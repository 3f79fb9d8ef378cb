/** Jacks-or-Better video poker (pages/VideoPoker.tsx): five cards are dealt
    from a fresh shuffled deck, the player holds some positions, the others
    are replaced from the deck in index order, and the final hand is paid by
    a nine-line pay table. */
module VideoPoker {
  import opened Cards
  import opened Casino

  datatype Phase = Betting | Holding | Result

  /** The winning hands of `PAYTABLE`. */
  datatype PayLine = RoyalFlush | StraightFlush | FourOfAKind | FullHouse | FlushLine
                   | StraightLine | ThreeOfAKind | TwoPair | JacksOrBetterLine
  {
    /** The `name` the page shows. */
    function Name(): string
    {
      match this
      case RoyalFlush => "ROYAL FLUSH"
      case StraightFlush => "STRAIGHT FLUSH"
      case FourOfAKind => "FOUR OF A KIND"
      case FullHouse => "FULL HOUSE"
      case FlushLine => "FLUSH"
      case StraightLine => "STRAIGHT"
      case ThreeOfAKind => "THREE OF A KIND"
      case TwoPair => "TWO PAIR"
      case JacksOrBetterLine => "JACKS OR BETTER"
    }

    /** The `multiplier` of the line: the credit is the bet times this. */
    function Multiplier(): (m: nat)
      ensures 1 <= m <= 250
    {
      match this
      case RoyalFlush => 250
      case StraightFlush => 50
      case FourOfAKind => 25
      case FullHouse => 9
      case FlushLine => 6
      case StraightLine => 4
      case ThreeOfAKind => 3
      case TwoPair => 2
      case JacksOrBetterLine => 1
    }
  }

  /** `PAYTABLE`, best hand first. */
  const Paytable: seq<PayLine> := [RoyalFlush, StraightFlush, FourOfAKind, FullHouse, FlushLine,
                                   StraightLine, ThreeOfAKind, TwoPair, JacksOrBetterLine]

  /** The pay lines are listed by strictly decreasing multiplier, so no line
      appears twice. */
  lemma PaytableInjective(i: nat, j: nat)
    requires i < |Paytable| && j < |Paytable|
    ensures i < j ==> Paytable[i].Multiplier() > Paytable[j].Multiplier()
    ensures Paytable[i] == Paytable[j] ==> i == j
  {
  }

  // ---- Hand evaluation: the specification ------------------------------------

  /** The hand's numeric values in ascending order (the `values` of the sorted copy). */
  function SortedValues(hand: seq<Card>): seq<int>
  {
    SortAsc(Nums(hand))
  }

  /** Every suit equals the first one. Sorting only permutes the suits, which
      does not change whether they are all equal. */
  predicate Flush(hand: seq<Card>)
  {
    forall i :: 0 <= i < |hand| ==> hand[i].suit == hand[0].suit
  }

  /** The five lowest values rise by one at each step. */
  predicate Consecutive(vs: seq<int>)
    requires |vs| >= 5
  {
    forall i :: 0 <= i < 4 ==> vs[i + 1] == vs[i] + 1
  }

  /** A-2-3-4-5, with the ace sorted last as 14. */
  predicate Wheel(vs: seq<int>)
    requires |vs| >= 5
  {
    vs[..5] == [2, 3, 4, 5, 14]
  }

  predicate Straight(vs: seq<int>)
    requires |vs| >= 5
  {
    Consecutive(vs) || Wheel(vs)
  }

  /** A pair of jacks, queens, kings or aces. */
  predicate JacksOrBetter(vs: seq<int>)
  {
    exists v :: v in vs && Count(vs, v) == 2 && v >= 11
  }

  /** The tests `evaluateHand` makes before it picks a pay line: flush,
      straight, the lowest value, whether some value occurs four, three or
      two times, how many values occur twice, and a jacks-or-better pair. */
  datatype Tests = Tests(flush: bool, straight: bool, lowest: int, four: bool, three: bool,
                         pair: bool, pairs: nat, jacks: bool)

  function HandTests(hand: seq<Card>): Tests
    requires |hand| >= 5
  {
    var vs := SortedValues(hand);
    Tests(Flush(hand), Straight(vs), vs[0], HasCount(vs, 4), HasCount(vs, 3),
          HasCount(vs, 2), PairsCount(vs), JacksOrBetter(vs))
  }

  /** The condition of pay line `k`, taken on its own. */
  predicate Category(k: nat, t: Tests)
  {
    match k
    case 0 => t.flush && t.straight && t.lowest == 10
    case 1 => t.flush && t.straight
    case 2 => t.four
    case 3 => t.three && t.pair
    case 4 => t.flush
    case 5 => t.straight
    case 6 => t.three
    case 7 => t.pairs == 2
    case 8 => t.jacks
    case _ => false
  }

  /** The index of the first pay line from `k` on whose condition holds, or 9 if none. */
  function FirstIndex(t: Tests, k: nat): (n: nat)
    requires k <= 9
    ensures k <= n <= 9
    decreases 9 - k
  {
    if k == 9 || Category(k, t) then k else FirstIndex(t, k + 1)
  }

  /** The pay line a set of test results selects: the first whose condition holds. */
  function Best(t: Tests): (r: Option<PayLine>)
    ensures r.Some? ==> r.value in Paytable
  {
    var n := FirstIndex(t, 0);
    if n == 9 then None else Some(Paytable[n])
  }

  /** What `evaluateHand` returns: nothing for fewer than five cards, else the
      best pay line the hand meets. */
  function Evaluate(hand: seq<Card>): (r: Option<PayLine>)
    ensures |hand| < 5 ==> r.None?
    ensures r.Some? ==> r.value in Paytable
  {
    if |hand| < 5 then None else Best(HandTests(hand))
  }

  /** The search stops at line `k` exactly when line `k` holds and no earlier line does. */
  lemma {:induction false} FirstIndexIsFirst(t: Tests, from: nat, k: nat)
    requires from <= k <= 9
    ensures FirstIndex(t, from) == k <==>
              (k == 9 || Category(k, t)) && forall j :: from <= j < k ==> !Category(j, t)
    decreases 9 - from
  {
    if from < k && !Category(from, t) {
      FirstIndexIsFirst(t, from + 1, k);
    }
  }

  /** Evaluation never matches a line whose condition fails, nor passes over one
      whose condition holds. */
  lemma EvaluatePrecedence(hand: seq<Card>, k: nat)
    requires |hand| >= 5 && k < 9
    ensures Evaluate(hand) == Some(Paytable[k]) <==>
              Category(k, HandTests(hand)) && forall j :: 0 <= j < k ==> !Category(j, HandTests(hand))
  {
    var n := FirstIndex(HandTests(hand), 0);
    FirstIndexIsFirst(HandTests(hand), 0, k);
    if n < 9 && Paytable[n] == Paytable[k] {
      PaytableInjective(n, k);
    }
  }

  /** No hand meets none of the lines' conditions yet is paid. */
  lemma EvaluateNone(hand: seq<Card>)
    requires |hand| >= 5
    ensures Evaluate(hand).None? <==> forall j :: 0 <= j < 9 ==> !Category(j, HandTests(hand))
  {
    FirstIndexIsFirst(HandTests(hand), 0, 9);
  }

  /** A straight whose lowest value is 10 is 10-J-Q-K-A. */
  lemma StraightFromTen(vs: seq<int>)
    requires |vs| == 5
    ensures Straight(vs) && vs[0] == 10 <==> vs == [10, 11, 12, 13, 14]
  {
    if Straight(vs) && vs[0] == 10 {
      assert !Wheel(vs);
      assert vs[1] == 11 && vs[2] == 12 && vs[3] == 13 && vs[4] == 14;
    }
    if vs == [10, 11, 12, 13, 14] {
      assert Consecutive(vs);
    }
  }

  /** A royal flush is exactly 10-J-Q-K-A of one suit. */
  lemma RoyalIsTenToAce(hand: seq<Card>)
    requires |hand| == 5
    ensures Evaluate(hand) == Some(Paytable[0]) <==> Flush(hand) && SortedValues(hand) == [10, 11, 12, 13, 14]
  {
    FirstIndexIsFirst(HandTests(hand), 0, 0);
    StraightFromTen(SortedValues(hand));
  }

  /** A one-suit wheel is a straight flush, not a royal flush. */
  lemma WheelFlushIsStraightFlush(hand: seq<Card>)
    requires |hand| == 5 && Flush(hand) && SortedValues(hand) == [2, 3, 4, 5, 14]
    ensures Evaluate(hand) == Some(Paytable[1])
  {
    var t := HandTests(hand);
    assert Wheel(SortedValues(hand));
    assert t.flush && t.straight && t.lowest == 2;
    FirstIndexIsFirst(t, 0, 1);
  }

  // ---- Hand evaluation: the computation --------------------------------------

  /** The straight scan over the sorted values: a gap stops the scan unless it
      is the last step of the wheel. */
  method ScanStraight(values: seq<int>) returns (isStraight: bool)
    requires |values| >= 5
    ensures isStraight <==> Straight(values)
  {
    isStraight := true;
    var i := 0;
    while i < 4 && isStraight
      invariant 0 <= i <= 4
      invariant isStraight ==> forall j :: 0 <= j < i && j < 3 ==> values[j + 1] == values[j] + 1
      invariant isStraight && i == 4 && values[4] != values[3] + 1 ==> Wheel(values)
      invariant !isStraight ==> !Straight(values)
      decreases 4 - i, isStraight
    {
      if values[i + 1] != values[i] + 1 {
        if i == 3 && values[4] == 14 && values[0] == 2 && values[1] == 3 && values[2] == 4 && values[3] == 5 {
          assert values[..5] == [2, 3, 4, 5, 14];
        } else {
          isStraight := false;
        }
      }
      if isStraight {
        i := i + 1;
      }
    }
  }

  /** The tests of `evaluateHand`: sort the values, check the suits, scan for
      a straight, and read the counts dictionary. */
  method ComputeTests(hand: seq<Card>) returns (t: Tests)
    requires |hand| >= 5
    ensures t == HandTests(hand)
  {
    var values := SortAsc(Nums(hand));
    var isFlush := forall i | 0 <= i < |hand| :: hand[i].suit == hand[0].suit;
    var isStraight := ScanStraight(values);
    var counts := CountValues(values);
    var isFourOfAKind := exists v | v in counts :: counts[v] == 4;
    var isThreeOfAKind := exists v | v in counts :: counts[v] == 3;
    var hasPair := exists v | v in counts :: counts[v] == 2;
    var pairs := PairKeys(counts);
    var jacksOrBetter := exists v | v in counts :: counts[v] == 2 && v >= 11;
    CountTests(values, counts);
    assert values == SortedValues(hand);
    assert isFlush == Flush(hand);
    assert isFourOfAKind == HasCount(values, 4);
    assert isThreeOfAKind == HasCount(values, 3);
    assert hasPair == HasCount(values, 2);
    assert |pairs| == PairsCount(values);
    assert jacksOrBetter == JacksOrBetter(values);
    t := Tests(isFlush, isStraight, values[0], isFourOfAKind, isThreeOfAKind, hasPair, |pairs|, jacksOrBetter);
  }

  /** The precedence chain of `evaluateHand`: the first test that passes picks the line. */
  method PickLine(t: Tests) returns (r: Option<PayLine>)
    ensures r == Best(t)
  {
    var k: nat;
    if t.flush && t.straight && t.lowest == 10 { k := 0; }
    else if t.flush && t.straight { k := 1; }
    else if t.four { k := 2; }
    else if t.three && t.pair { k := 3; }
    else if t.flush { k := 4; }
    else if t.straight { k := 5; }
    else if t.three { k := 6; }
    else if t.pairs == 2 { k := 7; }
    else if t.jacks { k := 8; }
    else { k := 9; }

    FirstIndexIsFirst(t, 0, k);
    if k == 9 {
      r := None;
    } else {
      r := Some(Paytable[k]);
    }
  }

  /** `evaluateHand`. */
  method EvaluateHand(hand: seq<Card>) returns (r: Option<PayLine>)
    ensures r == Evaluate(hand)
  {
    if |hand| < 5 {
      return None;
    }
    var t := ComputeTests(hand);
    r := PickLine(t);
  }

  // ---- The draw ---------------------------------------------------------------

  /** How many of the positions before `i` are not held, i.e. how many cards
      the draw has popped before it reaches position `i`. */
  function Popped(held: seq<int>, i: nat): (n: nat)
    ensures n <= i
  {
    if i == 0 then 0 else Popped(held, i - 1) + (if i - 1 in held then 0 else 1)
  }

  /** The card position `i` shows after the draw. */
  function DrawnCard(hand: seq<Card>, held: seq<int>, deck: seq<Card>, i: nat): (c: Card)
    requires i < |hand| <= |deck|
    ensures i in held ==> c == hand[i]
    ensures i !in held ==> c in deck[|deck| - |hand|..]
  {
    if i in held then hand[i] else deck[|deck| - 1 - Popped(held, i)]
  }

  /** Later non-held positions take cards from further down the deck: the
      replacements are popped in index order, each deck card at most once. */
  lemma {:induction false} PoppedInIndexOrder(held: seq<int>, i: nat, j: nat)
    requires i < j && i !in held
    ensures Popped(held, i) < Popped(held, j)
    decreases j
  {
    if j - 1 > i {
      PoppedInIndexOrder(held, i, j - 1);
    }
  }

  /** Settlement of the final hand: the bet times the line's multiplier, or nothing. */
  function Winnings(result: Option<PayLine>, bet: real): (credit: real)
    ensures result.None? ==> credit == 0.0
    ensures result.Some? && bet >= 0.0 ==> bet <= credit <= 250.0 * bet
  {
    match result
    case None => 0.0
    case Some(line) => bet * line.Multiplier() as real
  }

  /** A pair of twos with no other combination pays nothing: the hand
      2♠ 2♥ 5♦ 9♣ K♠. */
  lemma LowPairPaysNothing(hand: seq<Card>)
    requires hand == [Card(Spades, Two), Card(Hearts, Two), Card(Diamonds, Five), Card(Clubs, Nine), Card(Spades, King)]
    ensures Evaluate(hand).None?
  {
    var ns := Nums(hand);
    assert ns[0] == 2 && ns[1] == 2 && ns[2] == 5 && ns[3] == 9 && ns[4] == 13;
    SortAscOfAscending(ns);
    LowPairTests(ns);
    var t := HandTests(hand);
    assert hand[2].suit != hand[0].suit;
    assert !t.flush && !t.straight && !t.four && !t.three && t.pairs == 1 && !t.jacks;
    FirstIndexIsFirst(t, 0, 9);
  }

  /** The count and straight tests on the values 2, 2, 5, 9, 13. */
  lemma LowPairTests(ns: seq<int>)
    requires |ns| == 5 && ns[0] == 2 && ns[1] == 2 && ns[2] == 5 && ns[3] == 9 && ns[4] == 13
    ensures !Straight(ns) && !HasCount(ns, 4) && !HasCount(ns, 3) && PairsCount(ns) == 1 && !JacksOrBetter(ns)
  {
    assert ns == [ns[0], ns[1], ns[2], ns[3], ns[4]];
    assert multiset(ns) == multiset{2, 2, 5, 9, 13};
    forall v | v in ns ensures Count(ns, v) <= 2 && (Count(ns, v) == 2 <==> v == 2) {
      assert v in multiset(ns);
      CountIsMultiplicity(ns, v);
    }
    var twice := set v | v in ns && Count(ns, v) == 2;
    assert 2 in ns;
    assert forall v :: v in twice <==> v == 2;
    assert twice == {2};
    assert ns[1] != ns[0] + 1 && ns[..5][1] != 3;
  }

  /** 10-J-Q-K-A of one suit is a royal flush, paying 250 times the bet. */
  lemma RoyalFlushPays250(hand: seq<Card>, s: Suit, bet: real)
    requires hand == [Card(s, Ten), Card(s, Jack), Card(s, Queen), Card(s, King), Card(s, Ace)]
    ensures Evaluate(hand) == Some(RoyalFlush)
    ensures Winnings(Evaluate(hand), bet) == 250.0 * bet
  {
    RoyalQualifies(hand, s);
    FirstIndexIsFirst(HandTests(hand), 0, 0);
  }

  /** 10-J-Q-K-A of one suit meets the royal flush line's condition. */
  lemma RoyalQualifies(hand: seq<Card>, s: Suit)
    requires hand == [Card(s, Ten), Card(s, Jack), Card(s, Queen), Card(s, King), Card(s, Ace)]
    ensures Category(0, HandTests(hand))
  {
    var ns := Nums(hand);
    assert forall i :: 0 <= i < 5 ==> ns[i] == 10 + i;
    SortAscOfAscending(ns);
    assert Consecutive(ns);
  }

  /** Sorting values that are already ascending leaves them as they are. */
  lemma SortAscOfAscending(xs: seq<int>)
    requires Ascending(xs)
    ensures SortAsc(xs) == xs
  {
    SortAscSorts(xs);
    SortedUnique(SortAsc(xs), xs);
  }

  /** Two ascending sequences with the same elements are equal. */
  lemma {:induction false} SortedUnique(a: seq<int>, b: seq<int>)
    requires Ascending(a) && Ascending(b) && multiset(a) == multiset(b)
    ensures a == b
    decreases |a|
  {
    if a != [] {
      assert |a| == |multiset(a)| == |b|;
      assert b != [];
      assert a[0] in multiset(b) && b[0] in multiset(a);
      assert a[0] in b && b[0] in a;
      assert a[0] == b[0];
      assert a == [a[0]] + a[1..] && b == [b[0]] + b[1..];
      assert multiset(a) == multiset{a[0]} + multiset(a[1..]);
      assert multiset(b) == multiset{b[0]} + multiset(b[1..]);
      forall x ensures multiset(a[1..])[x] == multiset(b[1..])[x] {
        assert multiset(a)[x] == multiset{a[0]}[x] + multiset(a[1..])[x];
        assert multiset(b)[x] == multiset{b[0]}[x] + multiset(b[1..])[x];
      }
      assert multiset(a[1..]) == multiset(b[1..]);
      SortedUnique(a[1..], b[1..]);
    }
  }

  /** The page's state. The deck is the rest of the shuffled deck `deal` used;
      `draw` pops from a copy and never stores it back. */
  class Game {
    const wallet: Wallet
    var deck: seq<Card>
    var hand: seq<Card>
    var heldIndices: seq<int>
    var gameState: Phase
    var bet: real
    var winHand: Option<PayLine>

    ghost predicate Valid()
      reads this
    {
      gameState == Holding ==> |hand| == 5 && |deck| == 47
    }

    /** The page on mount: no cards, a stake of 10. */
    constructor (w: Wallet)
      ensures Valid() && wallet == w
      ensures deck == [] && hand == [] && heldIndices == [] && gameState == Betting
      ensures bet == 10.0 && winHand == None
    {
      wallet := w;
      deck, hand, heldIndices := [], [], [];
      gameState := Betting;
      bet := 10.0;
      winHand := None;
    }

    /** The "−" stake button (disabled while holding). */
    method DecreaseBet()
      requires Valid() && gameState != Holding
      modifies this`bet
      ensures Valid()
      ensures bet == if old(bet) - 10.0 >= 10.0 then old(bet) - 10.0 else 10.0
    {
      bet := if bet - 10.0 >= 10.0 then bet - 10.0 else 10.0;
    }

    /** The "+" stake button (disabled while holding): never above the balance. */
    method IncreaseBet()
      requires Valid() && gameState != Holding
      modifies this`bet
      ensures Valid()
      ensures bet == if old(bet) + 10.0 <= wallet.user.balance then old(bet) + 10.0 else wallet.user.balance
    {
      bet := if bet + 10.0 <= wallet.user.balance then bet + 10.0 else wallet.user.balance;
    }

    /** Debits the stake and deals the top five cards of a new shuffled deck. */
    method Deal(shuffled: seq<Card>)
      requires Valid() && IsShuffledDeck(shuffled)
      modifies this`deck, this`hand, this`heldIndices, this`winHand, this`gameState, wallet
      ensures Valid()
      ensures old(wallet.user.balance) < bet ==>
                wallet.user == old(wallet.user) && deck == old(deck) && hand == old(hand) &&
                heldIndices == old(heldIndices) && winHand == old(winHand) && gameState == old(gameState)
      ensures old(wallet.user.balance) >= bet ==>
                wallet.user == WithDelta(old(wallet.user), -bet) &&
                hand == [shuffled[51], shuffled[50], shuffled[49], shuffled[48], shuffled[47]] &&
                deck == shuffled[..47] &&
                heldIndices == [] && winHand == None && gameState == Holding
    {
      if wallet.user.balance < bet {
        return;
      }
      wallet.UpdateBalance(-bet);
      var n := |shuffled|;
      hand := [shuffled[n - 1], shuffled[n - 2], shuffled[n - 3], shuffled[n - 4], shuffled[n - 5]];
      deck := shuffled[..n - 5];
      heldIndices := [];
      winHand := None;
      gameState := Holding;
    }

    /** Holds position `index` if it is free, frees it if it is held; only while holding. */
    method ToggleHold(index: int)
      requires Valid()
      modifies this`heldIndices
      ensures Valid()
      ensures gameState != Holding ==> heldIndices == old(heldIndices)
      ensures gameState == Holding ==>
                (index in heldIndices <==> index !in old(heldIndices)) &&
                forall i :: i != index ==> (i in heldIndices <==> i in old(heldIndices))
    {
      if gameState != Holding {
        return;
      }
      if index in heldIndices {
        heldIndices := Without(heldIndices, index);
      } else {
        heldIndices := heldIndices + [index];
      }
    }

    /** Keeps the held positions, replaces the others in index order by cards
        popped from the deck, and pays the final hand. */
    method Draw()
      requires Valid() && gameState == Holding
      modifies this`gameState, this`hand, this`winHand, wallet
      ensures Valid() && gameState == Result && |hand| == 5
      ensures forall i :: 0 <= i < 5 ==> hand[i] == DrawnCard(old(hand), heldIndices, deck, i)
      ensures forall i :: 0 <= i < 5 && i in heldIndices ==> hand[i] == old(hand)[i]
      ensures wallet.user == WithDelta(old(wallet.user), Winnings(Evaluate(hand), bet))
      ensures winHand == (if Evaluate(hand).Some? then Evaluate(hand) else old(winHand))
    {
      gameState := Result;
      var current := deck;
      var finalHand: seq<Card> := [];
      for index := 0 to |hand|
        invariant |finalHand| == index
        invariant current == deck[..|deck| - Popped(heldIndices, index)]
        invariant forall i :: 0 <= i < index ==> finalHand[i] == DrawnCard(hand, heldIndices, deck, i)
      {
        if index in heldIndices {
          finalHand := finalHand + [hand[index]];
        } else {
          var n := |current|;
          finalHand := finalHand + [current[n - 1]];
          current := current[..n - 1];
        }
      }
      hand := finalHand;
      var result := EvaluateHand(finalHand);
      Pay(result);
    }

    /** The settlement at the end of `draw`: a winning line credits the bet
        times its multiplier and is shown; otherwise nothing is credited. */
    method Pay(result: Option<PayLine>)
      modifies this`winHand, wallet
      ensures wallet.user == WithDelta(old(wallet.user), Winnings(result, bet))
      ensures winHand == (if result.Some? then result else old(winHand))
    {
      if result.Some? {
        var winAmount := bet * result.value.Multiplier() as real;
        wallet.UpdateBalance(winAmount);
        winHand := result;
      }
    }
  }

  /** `prev.filter(i => i !== index)`. */
  function Without(xs: seq<int>, x: int): (r: seq<int>)
    ensures forall y :: y in r <==> y in xs && y != x
  {
    if xs == [] then []
    else if xs[0] == x then Without(xs[1..], x)
    else [xs[0]] + Without(xs[1..], x)
  }
}
