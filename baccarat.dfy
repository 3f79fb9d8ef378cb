/** Baccarat (pages/Baccarat.tsx): pip values, the mod-10 score, the
    third-card drawing rule, the settlement of the four bet types, and the
    table's betting/dealing/result phase machine over the shared wallet. */
module Baccarat {
  import opened Cards
  import opened Casino

  /** `BaccaratBetType` of types.ts; PLAYER, BANKER and TIE double as round outcomes. */
  datatype BetType = Player | Banker | Tie | WinnerEven

  /** `BaccaratBet` of types.ts. */
  datatype Bet = Bet(kind: BetType, amount: real)

  datatype Phase = Betting | Dealing | Result

  /** The chip denominations the table offers. */
  const Chips: seq<real> := [10.0, 50.0, 100.0, 500.0]

  /** Most outcomes the history bar keeps. */
  const HistoryLength: nat := 15

  // ---- Scoring ----------------------------------------------------------------

  /** Pip value: tens and pictures count 0, the ace 1, the rest their face. */
  function BaccaratValue(c: Card): (v: nat)
    ensures v <= 9
    ensures v == 0 <==> c.value in {Ten, Jack, Queen, King}
    ensures v == 1 <==> c.value == Ace
    ensures v >= 2 ==> ValueIndex(c.value) == v - 2
  {
    match c.value
    case Ten | Jack | Queen | King => 0
    case Ace => 1
    case Two => 2
    case Three => 3
    case Four => 4
    case Five => 5
    case Six => 6
    case Seven => 7
    case Eight => 8
    case Nine => 9
  }

  /** The `reduce` over a hand, folded from the left. */
  function PipSum(hand: seq<Card>): nat
  {
    if hand == [] then 0 else PipSum(hand[..|hand| - 1]) + BaccaratValue(hand[|hand| - 1])
  }

  /** A hand's score: its pip sum modulo 10. */
  function Score(hand: seq<Card>): (s: nat)
    ensures s <= 9
  {
    PipSum(hand) % 10
  }

  /** Scores can be kept incrementally: adding a card adds its pips modulo 10. */
  lemma ScoreAppend(hand: seq<Card>, c: Card)
    ensures Score(hand + [c]) == (Score(hand) + BaccaratValue(c)) % 10
  {
    assert (hand + [c])[..|hand|] == hand;
  }

  /** A pip sum never exceeds 9 per card. */
  lemma {:induction false} PipSumBound(hand: seq<Card>)
    ensures PipSum(hand) <= 9 * |hand|
  {
    if hand != [] {
      PipSumBound(hand[..|hand| - 1]);
    }
  }

  // ---- Drawing rule -----------------------------------------------------------

  /** Either initial score is 8 or 9. */
  predicate Natural(p0: nat, b0: nat)
    ensures p0 <= 9 && b0 <= 9 ==> (Natural(p0, b0) <==> p0 in {8, 9} || b0 in {8, 9})
  {
    p0 >= 8 || b0 >= 8
  }

  /** Player draws a third card on 0..5 unless either side has a natural. */
  predicate PlayerDraws(p0: nat, b0: nat)
    ensures PlayerDraws(p0, b0) ==> !Natural(p0, b0)
    ensures !Natural(p0, b0) ==> (PlayerDraws(p0, b0) <==> p0 <= 5)
  {
    !Natural(p0, b0) && p0 <= 5
  }

  /** Banker's decision, given the player's third-card value when the player drew. */
  predicate BankerDraws(b0: nat, playerThird: Option<nat>)
    ensures b0 <= 2 ==> BankerDraws(b0, playerThird)
    ensures b0 >= 7 ==> !BankerDraws(b0, playerThird)
    ensures playerThird == Some(8) ==> (BankerDraws(b0, playerThird) <==> b0 <= 2)
  {
    match playerThird
    case None => b0 <= 5
    case Some(t) =>
      if b0 <= 2 then true
      else if b0 == 3 && t != 8 then true
      else if b0 == 4 && 2 <= t <= 7 then true
      else if b0 == 5 && 4 <= t <= 7 then true
      else if b0 == 6 && 6 <= t <= 7 then true
      else false
  }

  /** The banker's drawing table as casinos print it: one row per banker score
      0..7, one column per value 0..9 of the player's third card, D = draw. */
  const BankerTable: seq<string> := [
    "DDDDDDDDDD",
    "DDDDDDDDDD",
    "DDDDDDDDDD",
    "DDDDDDDDSD",
    "SSDDDDDDSS",
    "SSSSDDDDSS",
    "SSSSSSDDSS",
    "SSSSSSSSSS"
  ]

  /** The rule the logic implements is exactly the printed table. */
  lemma BankerRuleIsTable(b0: nat, t: nat)
    requires b0 <= 7 && t <= 9
    ensures BankerDraws(b0, Some(t)) <==> BankerTable[b0][t] == 'D'
  {
    if b0 <= 2 {
    } else if b0 == 3 {
    } else if b0 == 4 {
    } else if b0 == 5 {
    } else if b0 == 6 {
    } else {
    }
  }

  /** Hands and deck after the drawing rule. */
  datatype Round = Round(player: seq<Card>, banker: seq<Card>, deck: seq<Card>)

  /** `runGameLogic`'s drawing phase: the deck is popped from its end. */
  function Play(p: seq<Card>, b: seq<Card>, deck: seq<Card>): (r: Round)
    requires |p| == 2 && |b| == 2 && |deck| >= 2
    ensures 2 <= |r.player| <= 3 && 2 <= |r.banker| <= 3
    ensures r.player[..2] == p && r.banker[..2] == b
    ensures |r.deck| == |deck| - (|r.player| - 2) - (|r.banker| - 2) && r.deck == deck[..|r.deck|]
    ensures |r.player| == 3 ==> r.player[2] == deck[|deck| - 1]
    ensures |r.banker| == 3 ==> r.banker[2] == deck[|r.deck|]
  {
    var p0, b0 := Score(p), Score(b);
    if !Natural(p0, b0) then
      var n := |deck|;
      var p' := if p0 <= 5 then p + [deck[n - 1]] else p;
      var deck1 := if p0 <= 5 then deck[..n - 1] else deck;
      var third := if p0 <= 5 then Some(BaccaratValue(deck[n - 1])) else None;
      if BankerDraws(b0, third) then Round(p', b + [deck1[|deck1| - 1]], deck1[..|deck1| - 1])
      else Round(p', b, deck1)
    else Round(p, b, deck)
  }

  /** Who draws a third card: nobody after a natural; the player on 0..5; the
      banker on 0..5 when the player stood, and by the table when the player drew. */
  lemma PlayDrawingRule(p: seq<Card>, b: seq<Card>, deck: seq<Card>)
    requires |p| == 2 && |b| == 2 && |deck| >= 2
    ensures var r := Play(p, b, deck);
            && (Natural(Score(p), Score(b)) ==> r == Round(p, b, deck))
            && (|r.player| == 3 <==> PlayerDraws(Score(p), Score(b)))
            && (!Natural(Score(p), Score(b)) && |r.player| == 2 ==> (|r.banker| == 3 <==> Score(b) <= 5))
            && (|r.player| == 3 ==> (|r.banker| == 3 <==> BankerDraws(Score(b), Some(BaccaratValue(r.player[2])))))
  {
  }

  /** When the player drew, the banker's draw is the printed table's entry. */
  lemma PlayFollowsTable(p: seq<Card>, b: seq<Card>, deck: seq<Card>)
    requires |p| == 2 && |b| == 2 && |deck| >= 2
    ensures var r := Play(p, b, deck);
            |r.player| == 3 ==> (|r.banker| == 3 <==> BankerTable[Score(b)][BaccaratValue(r.player[2])] == 'D')
  {
    var r := Play(p, b, deck);
    if |r.player| == 3 {
      PlayDrawingRule(p, b, deck);
      BankerRuleIsTable(Score(b), BaccaratValue(r.player[2]));
    }
  }

  /** The cards drawn come off the end of the deck: the banker's (if any)
      below the player's. */
  lemma PlayDrawsFromEnd(p: seq<Card>, b: seq<Card>, deck: seq<Card>)
    requires |p| == 2 && |b| == 2 && |deck| >= 2
    ensures var r := Play(p, b, deck);
            deck == r.deck + r.banker[2..] + r.player[2..]
  {
    var r := Play(p, b, deck);
    var m, n := |r.deck|, |deck|;
    var tail := r.banker[2..] + r.player[2..];
    assert |tail| == n - m;
    forall i | 0 <= i < n - m ensures deck[m + i] == tail[i] {
      if |r.banker| == 3 && i == 0 {
        assert tail[0] == r.banker[2];
      } else {
        assert tail[i] == r.player[2];
      }
    }
    assert deck == deck[..m] + deck[m..];
    assert deck[m..] == tail;
  }

  /** No card is created or lost by the drawing rule. */
  lemma PlayConservesCards(p: seq<Card>, b: seq<Card>, deck: seq<Card>)
    requires |p| == 2 && |b| == 2 && |deck| >= 2
    ensures var r := Play(p, b, deck);
            multiset(r.player) + multiset(r.banker) + multiset(r.deck)
              == multiset(p) + multiset(b) + multiset(deck)
  {
    var r := Play(p, b, deck);
    PlayDrawsFromEnd(p, b, deck);
    var dp, db := r.player[2..], r.banker[2..];
    assert r.player == p + dp;
    assert r.banker == b + db;
    assert multiset(deck) == multiset(r.deck) + multiset(db) + multiset(dp);
  }

  /** The drawing phase of `runGameLogic`, popping the deck step by step. */
  method DrawThirdCards(p: seq<Card>, b: seq<Card>, deck: seq<Card>)
    returns (finalP: seq<Card>, finalB: seq<Card>, current: seq<Card>)
    requires |p| == 2 && |b| == 2 && |deck| >= 2
    ensures Round(finalP, finalB, current) == Play(p, b, deck)
  {
    finalP, finalB, current := p, b, deck;
    var pInitial, bInitial := Score(p), Score(b);
    if pInitial < 8 && bInitial < 8 {
      var pThird: Option<nat> := None;
      if pInitial <= 5 {
        var card := current[|current| - 1];
        current := current[..|current| - 1];
        finalP := finalP + [card];
        pThird := Some(BaccaratValue(card));
      }
      if BankerDraws(bInitial, pThird) {
        finalB := finalB + [current[|current| - 1]];
        current := current[..|current| - 1];
      }
    }
  }

  // ---- Outcome and settlement -------------------------------------------------

  /** The round's outcome by strict comparison of the final scores. */
  function Winner(pFinal: nat, bFinal: nat): (w: BetType)
    ensures w != WinnerEven
    ensures w == Player <==> pFinal > bFinal
    ensures w == Banker <==> bFinal > pFinal
    ensures w == Tie <==> pFinal == bFinal
  {
    if pFinal > bFinal then Player else if bFinal > pFinal then Banker else Tie
  }

  /** What the wallet is credited at settlement (the stake was debited when placed). */
  function Payout(bet: Bet, pFinal: nat, bFinal: nat): (credit: real)
    requires bet.amount >= 0.0
    ensures bet.kind in {Player, Banker} ==>
              credit == if Winner(pFinal, bFinal) == bet.kind then 2.0 * bet.amount else 0.0
    ensures bet.kind == Tie ==> credit == if pFinal == bFinal then 9.0 * bet.amount else 0.0
    ensures bet.kind == WinnerEven ==>
              credit == if (if pFinal >= bFinal then pFinal else bFinal) % 2 == 0 then 2.0 * bet.amount else 0.0
    ensures 0.0 <= credit <= 9.0 * bet.amount
  {
    var winner := Winner(pFinal, bFinal);
    var winningScore := if winner == Player then pFinal else if winner == Banker then bFinal else pFinal;
    if bet.kind == WinnerEven then
      if winningScore % 2 == 0 then bet.amount * 2.0 else 0.0
    else if winner == bet.kind then
      if winner == Tie then bet.amount * 9.0 else bet.amount * 2.0
    else 0.0
  }

  /** `[...prev.slice(-14), outcome]`: the history keeps the 15 latest outcomes. */
  function PushHistory(history: seq<BetType>, outcome: BetType): (r: seq<BetType>)
    ensures |r| == if |history| < HistoryLength then |history| + 1 else HistoryLength
    ensures r[|r| - 1] == outcome
    ensures r[..|r| - 1] == history[|history| - (|r| - 1)..]
  {
    var kept := if |history| <= HistoryLength - 1 then history else history[|history| - (HistoryLength - 1)..];
    kept + [outcome]
  }

  /** The payout branch of `runGameLogic`: credits the wallet only on a win. */
  method Settle(wallet: Wallet, bet: Bet, pFinal: nat, bFinal: nat)
    requires bet.amount >= 0.0
    modifies wallet
    ensures wallet.user == WithDelta(old(wallet.user), Payout(bet, pFinal, bFinal))
  {
    var winner := Winner(pFinal, bFinal);
    var winningScore := if winner == Player then pFinal else if winner == Banker then bFinal else pFinal;
    if bet.kind == WinnerEven {
      if winningScore % 2 == 0 {
        wallet.UpdateBalance(bet.amount * 2.0);
      }
    } else if winner == bet.kind {
      if winner == Tie {
        wallet.UpdateBalance(bet.amount * 9.0);
      } else {
        wallet.UpdateBalance(bet.amount * 2.0);
      }
    }
  }

  // ---- The table --------------------------------------------------------------

  class Table {
    const wallet: Wallet
    var deck: seq<Card>
    var playerHand: seq<Card>
    var bankerHand: seq<Card>
    var bet: Option<Bet>
    var gameState: Phase
    var selectedChip: real
    var history: seq<BetType>

    ghost predicate Valid()
      reads this
    {
      selectedChip > 0.0 &&
      (bet.Some? ==> bet.value.amount > 0.0) &&
      (gameState != Betting ==> bet.Some?) &&
      (gameState == Dealing ==> |playerHand| == 2 && |bankerHand| == 2 && |deck| >= 2) &&
      |history| <= HistoryLength
    }

    /** The page on mount: a freshly shuffled deck, no bet, the 10 chip selected. */
    constructor (w: Wallet, shuffled: seq<Card>)
      requires IsShuffledDeck(shuffled)
      ensures Valid() && wallet == w
      ensures deck == shuffled && playerHand == [] && bankerHand == [] && bet == None
      ensures gameState == Betting && selectedChip == 10.0 && history == []
    {
      wallet := w;
      deck := shuffled;
      playerHand, bankerHand := [], [];
      bet := None;
      gameState := Betting;
      selectedChip := 10.0;
      history := [];
    }

    /** Picking a chip from the rack (only offered while betting). */
    method SelectChip(chip: real)
      requires Valid() && chip in Chips && gameState == Betting
      modifies this`selectedChip
      ensures Valid() && selectedChip == chip
    {
      selectedChip := chip;
    }

    /** Adds the selected chip to the bet on `kind`, or switches the bet to `kind`. */
    method PlaceBet(kind: BetType)
      requires Valid()
      modifies this`bet, wallet
      ensures Valid()
      ensures old(gameState) != Betting || old(wallet.user.balance) < selectedChip ==>
                bet == old(bet) && wallet.user == old(wallet.user)
      ensures old(gameState) == Betting && old(wallet.user.balance) >= selectedChip ==>
                if old(bet).Some? && old(bet).value.kind != kind then
                  bet == Some(Bet(kind, selectedChip)) &&
                  wallet.user.balance == old(wallet.user.balance) + old(bet).value.amount - selectedChip
                else
                  bet == Some(Bet(kind, (if old(bet).Some? then old(bet).value.amount else 0.0) + selectedChip)) &&
                  wallet.user.balance == old(wallet.user.balance) - selectedChip
      ensures wallet.user.username == old(wallet.user.username) && wallet.user.isLoggedIn == old(wallet.user.isLoggedIn)
    {
      if gameState != Betting {
        return;
      }
      // the handler reads the balance of the render it was created in
      var balance := wallet.user.balance;
      var currentAmount := if bet.Some? && bet.value.kind == kind then bet.value.amount else 0.0;
      var newTotal := currentAmount + selectedChip;
      if balance < selectedChip {
        return;
      }
      if bet.Some? && bet.value.kind != kind {
        wallet.UpdateBalance(bet.value.amount);
        if balance + bet.value.amount < selectedChip {
          // the re-check after the refund can never fire: balance >= chip already
          assert false;
        }
        wallet.UpdateBalance(-selectedChip);
        bet := Some(Bet(kind, selectedChip));
      } else {
        if balance < selectedChip {
          assert false;
        }
        wallet.UpdateBalance(-selectedChip);
        bet := Some(Bet(kind, newTotal));
      }
    }

    /** Takes the bet back off the table, refunding it in full. */
    method ClearBet()
      requires Valid() && gameState == Betting
      modifies this`bet, wallet
      ensures Valid() && bet == None
      ensures wallet.user == WithDelta(old(wallet.user), if old(bet).Some? then old(bet).value.amount else 0.0)
    {
      if bet.Some? {
        wallet.UpdateBalance(bet.value.amount);
        bet := None;
      }
    }

    /** Deals two cards each, from a fresh deck when fewer than 10 cards remain.
        Fired by the deal button or by the betting countdown reaching zero. */
    method DealGame(shuffled: seq<Card>)
      requires Valid() && gameState == Betting && IsShuffledDeck(shuffled)
      modifies this`gameState, this`deck, this`playerHand, this`bankerHand
      ensures Valid()
      ensures old(bet) == None ==>
                gameState == Betting && deck == old(deck) && playerHand == old(playerHand) && bankerHand == old(bankerHand)
      ensures old(bet).Some? ==>
                var d := if |old(deck)| < 10 then shuffled else old(deck);
                var n := |d|;
                n >= 10 && gameState == Dealing && deck == d[..n - 4] &&
                playerHand == [d[n - 1], d[n - 2]] && bankerHand == [d[n - 3], d[n - 4]]
    {
      if bet == None {
        return;
      }
      gameState := Dealing;
      var current := deck;
      if |current| < 10 {
        current := shuffled;
      }
      var n := |current|;
      playerHand := [current[n - 1], current[n - 2]];
      bankerHand := [current[n - 3], current[n - 4]];
      deck := current[..n - 4];
    }

    /** The reveal after the dealing delay: drawing rule, outcome, history and settlement. */
    method RunGameLogic()
      requires Valid() && gameState == Dealing
      modifies this`playerHand, this`bankerHand, this`deck, this`gameState, this`history, wallet
      ensures Valid() && gameState == Result && bet == old(bet)
      ensures Round(playerHand, bankerHand, deck) == Play(old(playerHand), old(bankerHand), old(deck))
      ensures history == PushHistory(old(history), Winner(Score(playerHand), Score(bankerHand)))
      ensures wallet.user == WithDelta(old(wallet.user), Payout(bet.value, Score(playerHand), Score(bankerHand)))
    {
      var finalP, finalB, current := DrawThirdCards(playerHand, bankerHand, deck);
      playerHand, bankerHand, deck := finalP, finalB, current;
      var pFinal, bFinal := Score(finalP), Score(finalB);
      var winner := Winner(pFinal, bFinal);
      gameState := Result;
      history := PushHistory(history, winner);
      Settle(wallet, bet.value, pFinal, bFinal);
    }

    /** "New round": clears the hands and the bet; the deck and the history stay. */
    method Reset()
      requires Valid()
      modifies this`playerHand, this`bankerHand, this`bet, this`gameState
      ensures Valid()
      ensures playerHand == [] && bankerHand == [] && bet == None && gameState == Betting
    {
      playerHand, bankerHand := [], [];
      bet := None;
      gameState := Betting;
    }
  }
}
