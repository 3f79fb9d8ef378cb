/** Heads-up Texas Hold'em against the house (pages/TexasHoldem.tsx): a fixed
    stake opens a pot the dealer matches, the streets are dealt one action at a
    time, and at showdown each side's seven cards are scored by a single number. */
module TexasHoldem {
  import opened Cards
  import opened Casino

  datatype Phase = Start | Preflop | Flop | Turn | River | Showdown

  datatype Action = Check | Bet | Fold

  /** `betAmount`: the opening stake, also the size of every raise. */
  const BetAmount: real := 50.0

  // ---- Unique values and straights ------------------------------------------

  ghost predicate StrictlyDescending(u: seq<int>)
  {
    forall i, j :: 0 <= i < j < |u| ==> u[i] > u[j]
  }

  /** `Array.from(new Set(values))`: each value once, in order of first occurrence. */
  function UniqueValues(vs: seq<int>): (u: seq<int>)
    ensures forall x :: x in u <==> x in vs
    ensures |u| <= |vs|
  {
    if vs == [] then []
    else
      var r := UniqueValues(vs[..|vs| - 1]);
      var x := vs[|vs| - 1];
      assert forall y :: y in vs <==> y in vs[..|vs| - 1] || y == x by {
        assert vs == vs[..|vs| - 1] + [x];
      }
      if x in r then r else r + [x]
  }

  /** The distinct values of a descending sequence are strictly descending. */
  lemma {:induction false} UniqueValuesDescending(vs: seq<int>)
    requires Descending(vs)
    ensures StrictlyDescending(UniqueValues(vs))
    decreases |vs|
  {
    if vs != [] {
      var n := |vs| - 1;
      var r := UniqueValues(vs[..n]);
      UniqueValuesDescending(vs[..n]);
      var x := vs[n];
      if x !in r {
        forall i | 0 <= i < |r| ensures r[i] > x {
          assert r[i] in vs[..n];
          var k :| 0 <= k < n && vs[..n][k] == r[i];
          assert vs[k] >= vs[n];
        }
      }
    }
  }

  /** Five values from `h` down to `h - 4` all occur. */
  predicate RunFrom(vs: seq<int>, h: int)
  {
    h in vs && h - 1 in vs && h - 2 in vs && h - 3 in vs && h - 4 in vs
  }

  /** Ace, two, three, four and five all occur. */
  predicate HasWheel(u: seq<int>)
  {
    14 in u && 2 in u && 3 in u && 4 in u && 5 in u
  }

  /** The scan of `uniqueValues` from index `i` on: the first index whose value
      lies exactly four above the value four places later, or `|u|` if none. */
  function FirstRun(u: seq<int>, i: nat): (n: nat)
    requires i <= |u|
    ensures i <= n <= |u|
    ensures n < |u| ==> n + 4 < |u| && u[n] - u[n + 4] == 4
    decreases |u| - i
  {
    if i + 4 >= |u| then |u|
    else if u[i] - u[i + 4] == 4 then i
    else FirstRun(u, i + 1)
  }

  /** No index between `i` and the result starts a run. */
  lemma {:induction false} FirstRunIsFirst(u: seq<int>, i: nat, j: nat)
    requires i <= j < |u| && j + 4 < |u| && u[j] - u[j + 4] == 4
    ensures FirstRun(u, i) <= j
    decreases j - i
  {
    if i < j && u[i] - u[i + 4] != 4 {
      FirstRunIsFirst(u, i + 1, j);
    }
  }

  /** In strictly descending values, a drop of exactly four over four places
      means the five values are consecutive. */
  lemma RunAtIsRun(u: seq<int>, i: nat)
    requires StrictlyDescending(u) && i + 4 < |u| && u[i] - u[i + 4] == 4
    ensures RunFrom(u, u[i])
  {
    assert u[i + 1] < u[i] && u[i + 2] < u[i + 1] && u[i + 3] < u[i + 2] && u[i + 4] < u[i + 3];
    assert u[i + 1] == u[i] - 1 && u[i + 2] == u[i] - 2 && u[i + 3] == u[i] - 3;
  }

  /** Where a value of strictly descending values sits. */
  lemma IndexOf(u: seq<int>, x: int) returns (k: nat)
    requires x in u
    ensures k < |u| && u[k] == x
  {
    k :| 0 <= k < |u| && u[k] == x;
  }

  /** Conversely, five consecutive values among strictly descending ones sit
      in five consecutive places, so the scan can find them. */
  lemma RunIsRunAt(u: seq<int>, h: int) returns (i: nat)
    requires StrictlyDescending(u) && RunFrom(u, h)
    ensures i + 4 < |u| && u[i] == h && u[i] - u[i + 4] == 4
  {
    i := IndexOf(u, h);
    var k1 := IndexOf(u, h - 1);
    var k2 := IndexOf(u, h - 2);
    var k3 := IndexOf(u, h - 3);
    var j := IndexOf(u, h - 4);
    assert i < k1 < k2 < k3 < j;
    assert u[i + 4] >= u[j];
    assert u[i] > u[i + 1] > u[i + 2] > u[i + 3] > u[i + 4];
  }

  /** `isStraight` and `straightHigh` after the scan and the wheel check. */
  function StraightOf(u: seq<int>): (r: (bool, int))
  {
    var n := FirstRun(u, 0);
    if n < |u| then (true, u[n])
    else if HasWheel(u) then (true, 5)
    else (false, 0)
  }

  /** The straight test holds exactly when five consecutive values or the
      wheel occur, and `straightHigh` is then the top of the highest run, or 5
      for a wheel with no other run. */
  lemma StraightIsHighestRun(u: seq<int>)
    requires StrictlyDescending(u)
    ensures StraightOf(u).0 <==> (exists h :: RunFrom(u, h)) || HasWheel(u)
    ensures forall h :: RunFrom(u, h) ==> RunFrom(u, StraightOf(u).1) && h <= StraightOf(u).1
    ensures StraightOf(u).0 && !(exists h :: RunFrom(u, h)) ==> StraightOf(u).1 == 5
  {
    var n := FirstRun(u, 0);
    if n < |u| {
      RunAtIsRun(u, n);
    }
    forall h | RunFrom(u, h) ensures n < |u| && h <= u[n] {
      var i := RunIsRunAt(u, h);
      FirstRunIsFirst(u, 0, i);
    }
  }

  /** A run of card values (2 to 14) has its top at 6 or more, so the wheel's
      high card 5 never outranks one. */
  lemma RunTopAboveWheel(u: seq<int>, h: int)
    requires forall x :: x in u ==> 2 <= x <= 14
    requires RunFrom(u, h)
    ensures 6 <= h <= 14
  {
  }

  // ---- Hand score: the specification -----------------------------------------

  /** The suits of a hand, position by position. */
  function SuitsOf(hand: seq<Card>): (ss: seq<Suit>)
    ensures |ss| == |hand| && forall i :: 0 <= i < |hand| ==> ss[i] == hand[i].suit
  {
    seq(|hand|, i requires 0 <= i < |hand| => hand[i].suit)
  }

  /** Some suit occurs at least five times. The page counts the suits of the
      sorted copy; sorting does not change how often a suit occurs. */
  predicate Flush(hand: seq<Card>)
  {
    exists s :: Count(SuitsOf(hand), s) >= 5
  }

  /** The tests `evaluateHand` makes before it picks a category. `top` is the
      highest value, the default tie-breaker. */
  datatype Features = Features(flush: bool, straight: bool, straightHigh: int, quads: bool,
                               trips: bool, pairs: nat, top: int)

  /** The hand's values, highest first. */
  function SortedValues(hand: seq<Card>): seq<int>
  {
    SortDesc(Nums(hand))
  }

  function HandFeatures(hand: seq<Card>): Features
    requires |hand| > 0
  {
    var vs := SortedValues(hand);
    var st := StraightOf(UniqueValues(vs));
    Features(Flush(hand), st.0, st.1, HasCount(vs, 4), HasCount(vs, 3), PairsCount(vs), vs[0])
  }

  /** On a whole hand: the straight test holds exactly when five consecutive
      values or A-2-3-4-5 occur among the cards, and `straightHigh` is the top
      of the highest such run. */
  lemma HandStraightIsHighestRun(hand: seq<Card>)
    requires |hand| > 0
    ensures HandFeatures(hand).straight <==>
              (exists h :: RunFrom(SortedValues(hand), h)) || HasWheel(SortedValues(hand))
    ensures forall h :: RunFrom(SortedValues(hand), h) ==>
              h <= HandFeatures(hand).straightHigh && RunFrom(SortedValues(hand), HandFeatures(hand).straightHigh)
  {
    var vs := SortedValues(hand);
    var u := UniqueValues(vs);
    SortDescSorts(Nums(hand));
    UniqueValuesDescending(vs);
    StraightIsHighestRun(u);
    assert forall h :: RunFrom(u, h) <==> RunFrom(vs, h);
  }

  /** Whether category score `r` is one the features qualify for; 0 (high card) always is. */
  predicate Qualifies(r: nat, f: Features)
  {
    || r == 0
    || (r == 100 && f.pairs == 1)
    || (r == 200 && f.pairs >= 2)
    || (r == 300 && f.trips)
    || (r == 400 && f.straight)
    || (r == 500 && f.flush)
    || (r == 600 && f.trips && f.pairs >= 1)
    || (r == 700 && f.quads)
    || (r == 800 && f.flush && f.straight)
  }

  /** The category score the precedence chain assigns: the highest one the
      features qualify for. */
  function Rank(f: Features): (r: nat)
    ensures Qualifies(r, f)
    ensures forall q: nat :: Qualifies(q, f) ==> q <= r
    ensures r % 100 == 0 && r <= 800
  {
    if f.flush && f.straight then 800
    else if f.quads then 700
    else if f.trips && f.pairs >= 1 then 600
    else if f.flush then 500
    else if f.straight then 400
    else if f.trips then 300
    else if f.pairs >= 2 then 200
    else if f.pairs == 1 then 100
    else 0
  }

  /** The `label` shown for a category score. */
  function Label(r: nat): (s: string)
    ensures s == "High Card" <==> !(r % 100 == 0 && 100 <= r <= 800)
  {
    match r
    case 800 => "Straight Flush"
    case 700 => "Four of a Kind"
    case 600 => "Full House"
    case 500 => "Flush"
    case 400 => "Straight"
    case 300 => "Three of a Kind"
    case 200 => "Two Pair"
    case 100 => "Pair"
    case _ => "High Card"
  }

  /** `tieBreaker`: the straight's top card for a straight, the highest value otherwise. */
  function TieBreaker(f: Features): (t: int)
    ensures t == f.straightHigh || t == f.top
    ensures f.straight && !f.flush && !f.quads && !(f.trips && f.pairs >= 1) ==> t == f.straightHigh
    ensures !f.straight ==> t == f.top
  {
    if Rank(f) == 400 then f.straightHigh else f.top
  }

  /** `rankVal`, the single number showdown compares. */
  function RankVal(hand: seq<Card>): (v: int)
    requires |hand| > 0
    ensures Rank(HandFeatures(hand)) + 2 <= v <= Rank(HandFeatures(hand)) + 14
  {
    TieBreakerRange(hand);
    var f := HandFeatures(hand);
    Rank(f) + TieBreaker(f)
  }

  /** The values of a hand are card values, 2 to 14. */
  lemma SortedValuesRange(hand: seq<Card>)
    ensures forall x :: x in SortedValues(hand) ==> 2 <= x <= 14
  {
    var vs := SortedValues(hand);
    SortDescSorts(Nums(hand));
    forall x | x in vs ensures 2 <= x <= 14 {
      assert x in multiset(Nums(hand));
    }
  }

  /** The straight's top card is a card value when the values are. */
  lemma StraightHighRange(u: seq<int>)
    requires forall x :: x in u ==> 2 <= x <= 14
    ensures StraightOf(u).0 ==> 2 <= StraightOf(u).1 <= 14
  {
    var n := FirstRun(u, 0);
    if n < |u| {
      assert u[n] in u;
    }
  }

  /** The tie-breaker is a card value, so it never bridges the 100 points between categories. */
  lemma TieBreakerRange(hand: seq<Card>)
    requires |hand| > 0
    ensures 2 <= TieBreaker(HandFeatures(hand)) <= 14
  {
    var vs := SortedValues(hand);
    SortedValuesRange(hand);
    StraightHighRange(UniqueValues(vs));
    assert vs[0] in vs;
  }

  /** A better category always scores strictly higher, whatever the tie-breakers. */
  lemma HigherCategoryWins(h1: seq<Card>, h2: seq<Card>)
    requires |h1| > 0 && |h2| > 0
    requires Rank(HandFeatures(h1)) > Rank(HandFeatures(h2))
    ensures RankVal(h1) > RankVal(h2)
  {
    TieBreakerRange(h1);
    TieBreakerRange(h2);
  }

  /** The straight-flush test only asks for a flush and a straight somewhere in
      the seven cards, not for five cards of one suit in sequence. */
  lemma FlushAndStraightScore800(hand: seq<Card>)
    requires |hand| > 0 && Flush(hand)
    requires StraightOf(UniqueValues(SortedValues(hand))).0
    ensures Rank(HandFeatures(hand)) == 800 && Label(Rank(HandFeatures(hand))) == "Straight Flush"
  {
  }

  // ---- Hand score: the computation -------------------------------------------

  /** The suit-count pass: `flushSuit` is set once some suit reaches five. */
  method FindFlush(hand: seq<Card>) returns (flushSuit: Option<Suit>)
    ensures flushSuit.Some? <==> Flush(hand)
    ensures flushSuit.Some? ==> Count(SuitsOf(hand), flushSuit.value) >= 5
  {
    var suits := SuitsOf(hand);
    var suitCounts: map<Suit, nat> := map[];
    flushSuit := None;
    for i := 0 to |suits|
      invariant forall s :: s in suitCounts <==> s in suits[..i]
      invariant forall s :: s in suitCounts ==> suitCounts[s] == Count(suits[..i], s)
      invariant flushSuit.Some? ==> Count(suits[..i], flushSuit.value) >= 5
      invariant flushSuit.None? ==> forall s :: Count(suits[..i], s) < 5
    {
      var s := suits[i];
      assert suits[..i + 1] == suits[..i] + [s];
      CountSnoc(suits[..i], s);
      CountIsMultiplicity(suits[..i], s);
      suitCounts := suitCounts[s := (if s in suitCounts then suitCounts[s] else 0) + 1];
      if suitCounts[s] >= 5 {
        flushSuit := Some(s);
      }
    }
    assert suits[..|suits|] == suits;
  }

  /** The straight loop over `uniqueValues`: stop at the first index whose
      value is four above the value four places on. */
  method ScanRuns(u: seq<int>) returns (isStraight: bool, straightHigh: int)
    ensures isStraight <==> FirstRun(u, 0) < |u|
    ensures isStraight ==> straightHigh == u[FirstRun(u, 0)]
    ensures !isStraight ==> straightHigh == 0
  {
    isStraight, straightHigh := false, 0;
    var i := 0;
    while i < |u| - 4
      invariant 0 <= i <= |u| || (i == 0 && |u| < 4)
      invariant FirstRun(u, 0) == (if i + 4 >= |u| then |u| else FirstRun(u, i))
      decreases |u| - i
    {
      if u[i] - u[i + 4] == 4 {
        isStraight, straightHigh := true, u[i];
        break;
      }
      i := i + 1;
    }
  }

  /** The features `evaluateHand` computes: the sort, the suit counts, the
      straight scan with its wheel fallback, and the value counts. */
  method ComputeFeatures(hand: seq<Card>) returns (f: Features)
    requires |hand| > 0
    ensures f == HandFeatures(hand)
  {
    var values := SortDesc(Nums(hand));
    var flushSuit := FindFlush(hand);
    var uniqueValues := UniqueValues(values);
    var isStraight, straightHigh := ScanRuns(uniqueValues);
    if !isStraight && 14 in uniqueValues && 2 in uniqueValues && 3 in uniqueValues &&
       4 in uniqueValues && 5 in uniqueValues {
      isStraight, straightHigh := true, 5;
    }
    var counts := CountValues(values);
    var isQuads := exists v | v in counts :: counts[v] == 4;
    var isTrips := exists v | v in counts :: counts[v] == 3;
    var pairs := |PairKeys(counts)|;
    CountTests(values, counts);
    f := Features(flushSuit.Some?, isStraight, straightHigh, isQuads, isTrips, pairs, values[0]);
  }

  /** `evaluateHand`: the category score plus tie-breaker, and its label. */
  method EvaluateHand(hand: seq<Card>) returns (rankVal: int, handLabel: string)
    requires |hand| > 0
    ensures rankVal == RankVal(hand)
    ensures handLabel == Label(Rank(HandFeatures(hand)))
  {
    var f := ComputeFeatures(hand);
    var rank := Rank(f);
    var tieBreaker := if rank == 400 then f.straightHigh else f.top;
    rankVal := rank + tieBreaker;
    handLabel := Label(rank);
  }

  // ---- Showdown ---------------------------------------------------------------

  /** What `determineWinner` credits the player from a pot of `pot`. */
  function ShowdownCredit(playerVal: int, dealerVal: int, pot: real): (credit: real)
    ensures playerVal > dealerVal ==> credit == pot
    ensures playerVal < dealerVal ==> credit == 0.0
    ensures playerVal == dealerVal ==> credit == pot / 2.0
  {
    if playerVal > dealerVal then pot
    else if dealerVal > playerVal then 0.0
    else pot / 2.0
  }

  /** The rule treats both sides alike: the player's share and what the player
      would get holding the dealer's cards add up to the whole pot. */
  lemma ShowdownSharesPot(playerVal: int, dealerVal: int, pot: real)
    ensures ShowdownCredit(playerVal, dealerVal, pot) + ShowdownCredit(dealerVal, playerVal, pot) == pot
  {
  }

  /** The phases in which the player acts. */
  predicate Betting(p: Phase)
  {
    p == Preflop || p == Flop || p == Turn || p == River
  }

  /** The number of community cards on the board in each betting phase. */
  function BoardSize(p: Phase): nat
  {
    match p
    case Preflop => 0
    case Flop => 3
    case Turn => 4
    case _ => 5
  }

  class Table {
    const wallet: Wallet
    var deck: seq<Card>
    var playerHand: seq<Card>
    var dealerHand: seq<Card>
    var communityCards: seq<Card>
    var pot: real
    var phase: Phase

    /** During the betting phases both sides hold two cards, the board has
        the phase's number of cards, and the deck has the rest. */
    ghost predicate Valid()
      reads this
    {
      pot >= 0.0 &&
      (Betting(phase) ==>
         |playerHand| == 2 && |dealerHand| == 2 && |communityCards| == BoardSize(phase) &&
         |deck| == 48 - BoardSize(phase))
    }

    /** The page on mount: a fresh shuffled deck and an empty table. */
    constructor (w: Wallet, shuffled: seq<Card>)
      requires IsShuffledDeck(shuffled)
      ensures Valid() && wallet == w
      ensures deck == shuffled && playerHand == [] && dealerHand == [] && communityCards == []
      ensures pot == 0.0 && phase == Start
    {
      wallet := w;
      deck := shuffled;
      playerHand, dealerHand, communityCards := [], [], [];
      pot := 0.0;
      phase := Start;
    }

    /** Takes the stake (the dealer matches it) and deals two hole cards each
        from a new shuffled deck. */
    method DealGame(shuffled: seq<Card>)
      requires Valid() && IsShuffledDeck(shuffled)
      modifies this`deck, this`playerHand, this`dealerHand, this`communityCards, this`pot, this`phase, wallet
      ensures Valid()
      ensures old(wallet.user.balance) < BetAmount ==>
                wallet.user == old(wallet.user) && deck == old(deck) && playerHand == old(playerHand) &&
                dealerHand == old(dealerHand) && communityCards == old(communityCards) &&
                pot == old(pot) && phase == old(phase)
      ensures old(wallet.user.balance) >= BetAmount ==>
                wallet.user == WithDelta(old(wallet.user), -BetAmount) && pot == 2.0 * BetAmount &&
                playerHand == [shuffled[51], shuffled[50]] && dealerHand == [shuffled[49], shuffled[48]] &&
                deck == shuffled[..48] && communityCards == [] && phase == Preflop
    {
      if wallet.user.balance < BetAmount {
        return;
      }
      wallet.UpdateBalance(-BetAmount);
      pot := BetAmount * 2.0;
      var n := |shuffled|;
      playerHand := [shuffled[n - 1], shuffled[n - 2]];
      dealerHand := [shuffled[n - 3], shuffled[n - 4]];
      deck := shuffled[..n - 4];
      communityCards := [];
      phase := Preflop;
    }

    /** Scores both seven-card hands and credits the player's share of `potSeen`,
        the pot as the handler saw it. */
    method DetermineWinner(potSeen: real)
      requires |playerHand| > 0 && |dealerHand| > 0
      modifies wallet
      ensures wallet.user == WithDelta(old(wallet.user),
                ShowdownCredit(RankVal(playerHand + communityCards), RankVal(dealerHand + communityCards), potSeen))
    {
      var playerVal, playerLabel := EvaluateHand(playerHand + communityCards);
      var dealerVal, dealerLabel := EvaluateHand(dealerHand + communityCards);
      if playerVal > dealerVal {
        wallet.UpdateBalance(potSeen);
      } else if dealerVal > playerVal {
      } else {
        wallet.UpdateBalance(potSeen / 2.0);
      }
    }

    /** Turns over the next street from the top of the deck: three cards at
        the flop, then one at the turn and one at the river. */
    method DealStreet()
      requires Valid() && (phase == Preflop || phase == Flop || phase == Turn)
      modifies this`deck, this`communityCards, this`phase
      ensures Valid()
      ensures var n := |old(deck)|;
              old(phase) == Preflop ==>
                phase == Flop && communityCards == [old(deck)[n - 1], old(deck)[n - 2], old(deck)[n - 3]] &&
                deck == old(deck)[..n - 3]
      ensures var n := |old(deck)|;
              old(phase) != Preflop ==>
                phase == (if old(phase) == Flop then Turn else River) &&
                communityCards == old(communityCards) + [old(deck)[n - 1]] && deck == old(deck)[..n - 1]
    {
      var n := |deck|;
      if phase == Preflop {
        communityCards := [deck[n - 1], deck[n - 2], deck[n - 3]];
        deck := deck[..n - 3];
        phase := Flop;
      } else {
        communityCards := communityCards + [deck[n - 1]];
        deck := deck[..n - 1];
        phase := if phase == Flop then Turn else River;
      }
    }

    /** A raise: the player pays `betAmount` and the dealer calls it. */
    method Raise()
      requires Valid()
      modifies this`pot, wallet
      ensures Valid()
      ensures pot == old(pot) + 2.0 * BetAmount && wallet.user == WithDelta(old(wallet.user), -BetAmount)
    {
      wallet.UpdateBalance(-BetAmount);
      pot := pot + 2.0 * BetAmount;
    }

    /** One player action in a betting phase. A fold ends the hand with nothing
        back; a raise the player can afford costs 50 and grows the pot by 100;
        then the next street is dealt, or at the river the hand is settled. The
        settlement reads the pot from before the river raise. */
    method NextPhase(action: Action)
      requires Valid() && Betting(phase)
      modifies this`deck, this`communityCards, this`pot, this`phase, wallet
      ensures Valid()
      ensures action == Fold ==>
                phase == Start && pot == 0.0 && wallet.user == old(wallet.user) &&
                deck == old(deck) && communityCards == old(communityCards)
      ensures action == Bet && old(wallet.user.balance) < BetAmount ==>
                phase == old(phase) && pot == old(pot) && wallet.user == old(wallet.user) &&
                deck == old(deck) && communityCards == old(communityCards)
      ensures action != Fold && (action == Check || old(wallet.user.balance) >= BetAmount) ==>
                var raise := if action == Bet then BetAmount else 0.0;
                var n := |old(deck)|;
                pot == old(pot) + 2.0 * raise &&
                (old(phase) == Preflop ==>
                   phase == Flop && communityCards == [old(deck)[n - 1], old(deck)[n - 2], old(deck)[n - 3]] &&
                   deck == old(deck)[..n - 3] && wallet.user == WithDelta(old(wallet.user), -raise)) &&
                (old(phase) == Flop || old(phase) == Turn ==>
                   phase == (if old(phase) == Flop then Turn else River) &&
                   communityCards == old(communityCards) + [old(deck)[n - 1]] &&
                   deck == old(deck)[..n - 1] && wallet.user == WithDelta(old(wallet.user), -raise)) &&
                (old(phase) == River ==>
                   phase == Showdown && deck == old(deck) && communityCards == old(communityCards) &&
                   wallet.user == WithDelta(old(wallet.user), -raise +
                     ShowdownCredit(RankVal(playerHand + communityCards), RankVal(dealerHand + communityCards), old(pot))))
    {
      if action == Fold {
        phase := Start;
        pot := 0.0;
        return;
      }
      var potSeen := pot;
      if action == Bet {
        if wallet.user.balance < BetAmount {
          return;
        }
        Raise();
      }
      if phase != River {
        DealStreet();
      } else {
        DetermineWinner(potSeen);
        DeltasCompose(old(wallet.user), if action == Bet then -BetAmount else 0.0,
          ShowdownCredit(RankVal(playerHand + communityCards), RankVal(dealerHand + communityCards), potSeen));
        phase := Showdown;
      }
    }

    /** Clears the table for the next hand; the deck is kept. */
    method Reset()
      requires Valid()
      modifies this`playerHand, this`dealerHand, this`communityCards, this`pot, this`phase
      ensures Valid()
      ensures phase == Start && playerHand == [] && dealerHand == [] && communityCards == [] && pot == 0.0
    {
      phase := Start;
      playerHand, dealerHand, communityCards := [], [], [];
      pot := 0.0;
    }
  }
}
