/** Blackjack (pages/Blackjack.tsx): card values, the ace-demoting score,
    the dealer's draw-to-17 loop and settlement, over the shared wallet. */
module Blackjack {
  import opened Cards
  import opened Casino

  datatype Phase = Betting | Playing | DealerTurn | GameOver

  /** Why `endGame` was called: "blackjack", "bust" or "compare". */
  datatype Reason = Natural21 | Bust | Compare

  /** The `numericValue` this page's `getDeck` stores: pictures 10, the ace 11, the rest their face. */
  function BlackjackValue(c: Card): (v: nat)
    ensures 2 <= v <= 11
    ensures v == 11 <==> c.value == Ace
    ensures v == 10 <==> c.value in {Ten, Jack, Queen, King}
    ensures v <= 9 ==> v == ValueIndex(c.value) + 2
  {
    match c.value
    case Jack | Queen | King | Ten => 10
    case Ace => 11
    case Two => 2
    case Three => 3
    case Four => 4
    case Five => 5
    case Six => 6
    case Seven => 7
    case Eight => 8
    case Nine => 9
  }

  /** The `reduce` over a hand: aces counted as 11. */
  function RawSum(hand: seq<Card>): nat
  {
    if hand == [] then 0 else RawSum(hand[..|hand| - 1]) + BlackjackValue(hand[|hand| - 1])
  }

  /** The `filter(card => card.value === 'A').length` of a hand. */
  function AceCount(hand: seq<Card>): (n: nat)
    ensures n <= |hand|
  {
    if hand == [] then 0 else AceCount(hand[..|hand| - 1]) + (if hand[|hand| - 1].value == Ace then 1 else 0)
  }

  /** The demotion loop, one ace at a time while the total exceeds 21. */
  function Demote(score: int, aces: nat): int
  {
    if score > 21 && aces > 0 then Demote(score - 10, aces - 1) else score
  }

  /** How many aces the demotion loop turns from 11 into 1. */
  function Demotions(score: int, aces: nat): (k: nat)
    ensures k <= aces
  {
    if score > 21 && aces > 0 then 1 + Demotions(score - 10, aces - 1) else 0
  }

  /** The score of a hand, as `calculateScore` returns it. */
  function HandScore(hand: seq<Card>): (s: int)
    ensures s <= RawSum(hand)
    ensures s > 21 ==> s == RawSum(hand) - 10 * AceCount(hand)
  {
    DemoteIsBestTotal(RawSum(hand), AceCount(hand));
    Demote(RawSum(hand), AceCount(hand))
  }

  /** The demotion loop picks the best total: it subtracts 10 for k aces, k is
      the fewest demotions that bring the total to 21 or less, and when none
      does, every ace has been demoted. */
  lemma {:induction false} DemoteIsBestTotal(score: int, aces: nat)
    ensures var k := Demotions(score, aces);
            && Demote(score, aces) == score - 10 * k
            && (forall j :: 0 <= j < k ==> score - 10 * j > 21)
            && (Demote(score, aces) > 21 ==> k == aces)
  {
    if score > 21 && aces > 0 {
      DemoteIsBestTotal(score - 10, aces - 1);
      var k := Demotions(score, aces);
      forall j | 0 <= j < k ensures score - 10 * j > 21 {
        if j > 0 {
          assert (score - 10) - 10 * (j - 1) > 21;
        }
      }
    }
  }

  lemma {:induction false} RawSumBound(hand: seq<Card>)
    ensures RawSum(hand) >= 11 * AceCount(hand) + 2 * (|hand| - AceCount(hand))
  {
    if hand != [] {
      RawSumBound(hand[..|hand| - 1]);
    }
  }

  /** Each card counts at least 1 after demotion, so a score bounds the number of cards. */
  lemma HandScoreAtLeastSize(hand: seq<Card>)
    ensures HandScore(hand) >= |hand|
  {
    RawSumBound(hand);
    DemoteIsBestTotal(RawSum(hand), AceCount(hand));
  }

  /** `calculateScore`: the raw sum, then the demotion loop. */
  method CalculateScore(hand: seq<Card>) returns (score: int)
    ensures score == HandScore(hand)
    ensures score >= |hand|
  {
    score := RawSum(hand);
    var aces := AceCount(hand);
    while score > 21 && aces > 0
      invariant Demote(score, aces) == HandScore(hand)
      decreases aces
    {
      score := score - 10;
      aces := aces - 1;
    }
    HandScoreAtLeastSize(hand);
  }

  /** What `endGame` credits (the stake was debited by `startGame`). */
  function EndGamePayout(reason: Reason, pScore: int, dScore: int, bet: real): (credit: real)
    ensures reason == Natural21 ==> credit == 2.5 * bet
    ensures reason == Bust ==> credit == 0.0
    ensures reason == Compare && (dScore > 21 || pScore > dScore) ==> credit == 2.0 * bet
    ensures reason == Compare && dScore <= 21 && dScore > pScore ==> credit == 0.0
    ensures reason == Compare && dScore <= 21 && dScore == pScore ==> credit == bet
  {
    match reason
    case Natural21 => bet * 2.5
    case Bust => 0.0
    case Compare =>
      if dScore > 21 then bet * 2.0
      else if dScore > pScore then 0.0
      else if pScore > dScore then bet * 2.0
      else bet
  }

  /** The dealer's hand and the deck after the dealer has drawn to 17: the
      last card of the deck goes to the hand while the hand scores under 17. */
  function DealerDraw(hand: seq<Card>, deck: seq<Card>): (r: (seq<Card>, seq<Card>))
    requires |hand| + |deck| >= 17
    ensures HandScore(r.0) >= 17
    ensures |r.0| + |r.1| == |hand| + |deck|
    decreases |deck|
  {
    if HandScore(hand) >= 17 then (hand, deck)
    else
      HandScoreAtLeastSize(hand);
      var n := |deck|;
      DealerDraw(hand + [deck[n - 1]], deck[..n - 1])
  }

  /** The hand keeps its cards and gains cards from the deck's end; the deck
      loses exactly those. */
  lemma {:induction false} DealerDrawKeeps(hand: seq<Card>, deck: seq<Card>)
    requires |hand| + |deck| >= 17
    ensures var r := DealerDraw(hand, deck);
            |r.0| >= |hand| && r.0[..|hand|] == hand && r.1 == deck[..|r.1|]
    decreases |deck|
  {
    if HandScore(hand) < 17 {
      HandScoreAtLeastSize(hand);
      var n := |deck|;
      var h, d := hand + [deck[n - 1]], deck[..n - 1];
      DealerDrawKeeps(h, d);
      var r := DealerDraw(h, d);
      assert r.0[..|h|][..|hand|] == hand;
    }
  }

  /** The dealer stops at 17 or more, having drawn only while under 17; the
      hand keeps its cards and gains the deck's cards from the end, and the
      deck loses exactly those. */
  lemma {:induction false} DealerDrawRule(hand: seq<Card>, deck: seq<Card>)
    requires |hand| + |deck| >= 17
    ensures var r := DealerDraw(hand, deck);
            HandScore(r.0) >= 17 &&
            |r.0| >= |hand| && r.0[..|hand|] == hand &&
            |r.0| + |r.1| == |hand| + |deck| && r.1 == deck[..|r.1|]
    ensures var r := DealerDraw(hand, deck);
            forall k :: |hand| <= k < |r.0| ==> HandScore(r.0[..k]) < 17 && r.0[k] == deck[|hand| + |deck| - 1 - k]
    decreases |deck|
  {
    DealerDrawKeeps(hand, deck);
    if HandScore(hand) < 17 {
      HandScoreAtLeastSize(hand);
      var n := |deck|;
      var h, d := hand + [deck[n - 1]], deck[..n - 1];
      DealerDrawRule(h, d);
      var r := DealerDraw(h, d);
      assert r.0 == DealerDraw(hand, deck).0;
    }
  }

  /** `stand`'s loop: the dealer takes the deck's last card while scoring under 17. */
  method DealerLoop(hand: seq<Card>, deck: seq<Card>) returns (dHand: seq<Card>, current: seq<Card>)
    requires |hand| + |deck| >= 17
    ensures dHand == DealerDraw(hand, deck).0 && current == DealerDraw(hand, deck).1
    ensures HandScore(dHand) >= 17
    ensures |dHand| >= |hand| && dHand[..|hand|] == hand && |current| <= |deck| && current == deck[..|current|]
  {
    DealerDrawRule(hand, deck);
    dHand, current := hand, deck;
    var score := CalculateScore(dHand);
    while score < 17
      invariant |dHand| + |current| == |hand| + |deck|
      invariant score == HandScore(dHand)
      invariant DealerDraw(dHand, current) == DealerDraw(hand, deck)
      decreases |current|
    {
      HandScoreAtLeastSize(dHand);
      var n := |current|;
      dHand := dHand + [current[n - 1]];
      current := current[..n - 1];
      score := CalculateScore(dHand);
    }
  }

  class Game {
    const wallet: Wallet
    var deck: seq<Card>
    var playerHand: seq<Card>
    var dealerHand: seq<Card>
    var gameState: Phase
    var bet: real

    ghost predicate Valid()
      reads this
    {
      (gameState == Playing ==>
         HandScore(playerHand) <= 21 && |playerHand| <= 21 &&
         |dealerHand| == 2 && |deck| + |playerHand| + |dealerHand| == 52)
    }

    /** The page on mount: no cards, the default stake of 20. */
    constructor (w: Wallet)
      ensures Valid() && wallet == w
      ensures deck == [] && playerHand == [] && dealerHand == [] && gameState == Betting && bet == 20.0
    {
      wallet := w;
      deck, playerHand, dealerHand := [], [], [];
      gameState := Betting;
      bet := 20.0;
    }

    /** The "−" stake button, offered between rounds. */
    method DecreaseBet()
      requires Valid() && (gameState == Betting || gameState == GameOver)
      modifies this`bet
      ensures Valid()
      ensures bet == if old(bet) - 10.0 >= 10.0 then old(bet) - 10.0 else 10.0
    {
      bet := if bet - 10.0 >= 10.0 then bet - 10.0 else 10.0;
    }

    /** The "+" stake button, offered between rounds: never above the balance. */
    method IncreaseBet()
      requires Valid() && (gameState == Betting || gameState == GameOver)
      modifies this`bet
      ensures Valid()
      ensures bet == if old(bet) + 10.0 <= wallet.user.balance then old(bet) + 10.0 else wallet.user.balance
    {
      bet := if bet + 10.0 <= wallet.user.balance then bet + 10.0 else wallet.user.balance;
    }

    /** Settles the round for the given hands. */
    method EndGame(pHand: seq<Card>, dHand: seq<Card>, reason: Reason)
      modifies this`gameState, wallet
      ensures Valid() && gameState == GameOver
      ensures wallet.user == WithDelta(old(wallet.user), EndGamePayout(reason, HandScore(pHand), HandScore(dHand), bet))
    {
      gameState := GameOver;
      var pScore := CalculateScore(pHand);
      var dScore := CalculateScore(dHand);
      if reason == Natural21 {
        wallet.UpdateBalance(bet * 2.5);
      } else if reason == Bust {
      } else {
        if dScore > 21 {
          wallet.UpdateBalance(bet * 2.0);
        } else if dScore > pScore {
        } else if pScore > dScore {
          wallet.UpdateBalance(bet * 2.0);
        } else {
          wallet.UpdateBalance(bet);
        }
      }
    }

    /** Debits the stake and deals two cards each from a new shuffled deck; a
        two-card 21 settles at once. */
    method StartGame(shuffled: seq<Card>)
      requires Valid() && gameState in {Betting, GameOver} && IsShuffledDeck(shuffled)
      modifies this`deck, this`playerHand, this`dealerHand, this`gameState, wallet
      ensures Valid()
      ensures old(wallet.user.balance) < bet ==>
                wallet.user == old(wallet.user) && deck == old(deck) && playerHand == old(playerHand) &&
                dealerHand == old(dealerHand) && gameState == old(gameState)
      ensures old(wallet.user.balance) >= bet ==>
                |shuffled| == 52 && deck == shuffled[..48] &&
                playerHand == [shuffled[51], shuffled[50]] && dealerHand == [shuffled[49], shuffled[48]] &&
                (if HandScore(playerHand) == 21
                 then gameState == GameOver && wallet.user == WithDelta(old(wallet.user), 1.5 * bet)
                 else gameState == Playing && wallet.user == WithDelta(old(wallet.user), -bet))
    {
      if wallet.user.balance < bet {
        return;
      }
      wallet.UpdateBalance(-bet);
      var n := |shuffled|;
      var pHand := [shuffled[n - 1], shuffled[n - 2]];
      var dHand := [shuffled[n - 3], shuffled[n - 4]];
      deck := shuffled[..n - 4];
      playerHand, dealerHand := pHand, dHand;
      gameState := Playing;
      var score := CalculateScore(pHand);
      if score == 21 {
        EndGame(pHand, dHand, Natural21);
      } else {
        TwoCardsNeverBust(pHand);
        HandScoreAtLeastSize(pHand);
      }
    }

    /** Draws one card for the player; going over 21 loses the round. */
    method Hit()
      requires Valid() && gameState == Playing
      modifies this`deck, this`playerHand, this`gameState, wallet
      ensures Valid()
      ensures |old(deck)| > 0
      ensures playerHand == old(playerHand) + [old(deck)[|old(deck)| - 1]]
      ensures deck == old(deck)[..|old(deck)| - 1]
      ensures HandScore(playerHand) > 21 ==> gameState == GameOver
      ensures HandScore(playerHand) <= 21 ==> gameState == Playing
      ensures wallet.user == old(wallet.user)
    {
      HandScoreAtLeastSize(playerHand);
      var n := |deck|;
      var newCard := deck[n - 1];
      var newHand := playerHand + [newCard];
      playerHand := newHand;
      deck := deck[..n - 1];
      var score := CalculateScore(newHand);
      if score > 21 {
        EndGame(newHand, dealerHand, Bust);
      } else {
        HandScoreAtLeastSize(newHand);
      }
    }

    /** The dealer draws until reaching 17, then the hands are compared. */
    method Stand()
      requires Valid() && gameState == Playing
      modifies this`deck, this`dealerHand, this`gameState, wallet
      ensures Valid() && gameState == GameOver
      ensures (dealerHand, deck) == DealerDraw(old(dealerHand), old(deck))
      ensures HandScore(dealerHand) >= 17
      ensures wallet.user == WithDelta(old(wallet.user),
                EndGamePayout(Compare, HandScore(playerHand), HandScore(dealerHand), bet))
    {
      gameState := DealerTurn;
      var dHand, current := DealerLoop(dealerHand, deck);
      dealerHand := dHand;
      deck := current;
      EndGame(playerHand, dHand, Compare);
    }
  }

  /** The sum and the ace count of a two-card hand. */
  lemma TwoCardSums(hand: seq<Card>)
    requires |hand| == 2
    ensures RawSum(hand) == BlackjackValue(hand[0]) + BlackjackValue(hand[1])
    ensures AceCount(hand) == (if hand[0].value == Ace then 1 else 0) + (if hand[1].value == Ace then 1 else 0)
  {
    assert hand[..1] == [hand[0]] && hand[..1][..0] == [];
    assert RawSum(hand[..1]) == BlackjackValue(hand[0]);
    assert AceCount(hand[..1]) == if hand[0].value == Ace then 1 else 0;
  }

  /** Two cards never exceed 21 (two aces count 12). */
  lemma TwoCardsNeverBust(hand: seq<Card>)
    requires |hand| == 2
    ensures HandScore(hand) <= 21
  {
    TwoCardSums(hand);
    if RawSum(hand) > 21 {
      assert RawSum(hand) == 22 && AceCount(hand) == 2;
      assert Demote(22, 2) == 12;
    }
  }

  /** A two-card 21 is an ace with a ten-valued card. */
  lemma TwoCard21(hand: seq<Card>)
    requires |hand| == 2
    ensures HandScore(hand) == 21 <==>
              (hand[0].value == Ace && BlackjackValue(hand[1]) == 10) ||
              (hand[1].value == Ace && BlackjackValue(hand[0]) == 10)
  {
    TwoCardSums(hand);
    if RawSum(hand) > 21 {
      assert RawSum(hand) == 22 && AceCount(hand) == 2;
      assert Demote(22, 2) == 12;
    } else {
      assert HandScore(hand) == RawSum(hand);
    }
  }

  /** Ace-softening examples: {A, A, 9} scores 21 and {A, A, A, 9} scores 12. */
  lemma AceExamples(s: Suit)
    ensures HandScore([Card(s, Ace), Card(s, Ace), Card(s, Nine)]) == 21
    ensures HandScore([Card(s, Ace), Card(s, Ace), Card(s, Ace), Card(s, Nine)]) == 12
  {
    var a, n := Card(s, Ace), Card(s, Nine);
    assert [a, a, n][..2] == [a, a] && [a, a][..1] == [a] && [a][..0] == [];
    assert RawSum([a]) == 11 && AceCount([a]) == 1;
    assert RawSum([a, a]) == 22 && AceCount([a, a]) == 2;
    assert RawSum([a, a, n]) == 31 && AceCount([a, a, n]) == 2;
    assert Demote(31, 2) == 21;
    assert [a, a, a, n][..3] == [a, a, a] && [a, a, a][..2] == [a, a];
    assert RawSum([a, a, a]) == 33 && AceCount([a, a, a]) == 3;
    assert RawSum([a, a, a, n]) == 42 && AceCount([a, a, a, n]) == 3;
    assert Demote(42, 3) == 12;
  }
}
