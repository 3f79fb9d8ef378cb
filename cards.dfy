/** The card model the card games share (the `Card` interface of types.ts and
    the `getDeck` helper each card page repeats). The numeric value of a card
    depends on the game, so a card here is only its suit and its face; each
    game module maps faces to numbers itself. */
module Cards {

  datatype Suit = Hearts | Diamonds | Clubs | Spades

  /** The face of a card: "A", "2".."10", "J", "Q", "K". */
  datatype Rank = Ace | Two | Three | Four | Five | Six | Seven | Eight | Nine | Ten
                | Jack | Queen | King

  datatype Card = Card(suit: Suit, value: Rank)

  const Suits: seq<Suit> := [Hearts, Diamonds, Clubs, Spades]
  const Values: seq<Rank> := [Two, Three, Four, Five, Six, Seven, Eight, Nine, Ten, Jack, Queen, King, Ace]

  function SuitIndex(s: Suit): (i: nat)
    ensures i < 4 && Suits[i] == s
  {
    match s
    case Hearts => 0
    case Diamonds => 1
    case Clubs => 2
    case Spades => 3
  }

  function ValueIndex(v: Rank): (i: nat)
    ensures i < 13 && Values[i] == v
  {
    match v
    case Two => 0
    case Three => 1
    case Four => 2
    case Five => 3
    case Six => 4
    case Seven => 5
    case Eight => 6
    case Nine => 7
    case Ten => 8
    case Jack => 9
    case Queen => 10
    case King => 11
    case Ace => 12
  }

  /** The `numericValue` the poker pages give a face: "2".."10" parse to
      themselves, J, Q, K and A become 11, 12, 13 and 14. */
  function NumericValue(r: Rank): (n: int)
    ensures 2 <= n <= 14
    ensures n == ValueIndex(r) + 2
  {
    match r
    case Two => 2
    case Three => 3
    case Four => 4
    case Five => 5
    case Six => 6
    case Seven => 7
    case Eight => 8
    case Nine => 9
    case Ten => 10
    case Jack => 11
    case Queen => 12
    case King => 13
    case Ace => 14
  }

  /** The numeric values of a hand, position by position. */
  function Nums(hand: seq<Card>): (vs: seq<int>)
    ensures |vs| == |hand|
    ensures forall i :: 0 <= i < |hand| ==> vs[i] == NumericValue(hand[i].value)
  {
    seq(|hand|, i requires 0 <= i < |hand| => NumericValue(hand[i].value))
  }

  /** The unshuffled deck in the order `getDeck` pushes it: suit by suit, face by face. */
  function OrderedDeck(): (d: seq<Card>)
    ensures |d| == 52
    ensures forall i :: 0 <= i < 52 ==> d[i] == Card(Suits[i / 13], Values[i % 13])
  {
    seq(52, i requires 0 <= i < 52 => Card(Suits[i / 13], Values[i % 13]))
  }

  /** Where a card sits in the ordered deck. */
  function Position(c: Card): (i: nat)
    ensures i < 52 && OrderedDeck()[i] == c
  {
    SuitIndex(c.suit) * 13 + ValueIndex(c.value)
  }

  /** The ordered deck holds every card exactly once. */
  lemma OrderedDeckComplete()
    ensures forall c: Card :: multiset(OrderedDeck())[c] == 1
  {
    var d := OrderedDeck();
    forall c: Card ensures multiset(d)[c] == 1 {
      var p := Position(c);
      forall j | 0 <= j < 52 && j != p ensures d[j] != c {
        assert SuitIndex(Suits[j / 13]) == j / 13;
        assert ValueIndex(Values[j % 13]) == j % 13;
      }
      OnlyAt(d, c, p);
    }
  }

  /** A value found at index p and nowhere else occurs once. */
  lemma {:induction false} OnlyAt<T>(s: seq<T>, x: T, p: nat)
    requires p < |s| && s[p] == x
    requires forall j :: 0 <= j < |s| && j != p ==> s[j] != x
    ensures multiset(s)[x] == 1
  {
    if p == |s| - 1 {
      assert s == s[..p] + [x];
      assert x !in s[..p];
      assert multiset(s[..p])[x] == 0;
    } else {
      var n := |s| - 1;
      assert s == s[..n] + [s[n]];
      OnlyAt(s[..n], x, p);
    }
  }

  /** `getDeck` before its shuffle: the nested loops push one card per suit and face. */
  method GetDeck() returns (deck: seq<Card>)
    ensures deck == OrderedDeck()
    ensures |deck| == 52
    ensures forall c: Card :: multiset(deck)[c] == 1
  {
    deck := [];
    for si := 0 to |Suits|
      invariant deck == OrderedDeck()[..13 * si]
    {
      for vi := 0 to |Values|
        invariant deck == OrderedDeck()[..13 * si + vi]
      {
        deck := deck + [Card(Suits[si], Values[vi])];
      }
    }
    OrderedDeckComplete();
  }

  /** No element occurs twice. */
  predicate Distinct<T(==)>(s: seq<T>)
  {
    forall i, j :: 0 <= i < j < |s| ==> s[i] != s[j]
  }

  /** A shuffled deck: any permutation of the 52 cards (the shuffle itself is a random input). */
  ghost predicate IsShuffledDeck(d: seq<Card>)
  {
    |d| == 52 && multiset(d) == multiset(OrderedDeck())
  }

  // ---- `Array.prototype.sort` on numeric values --------------------------------

  ghost predicate Ascending(xs: seq<int>)
  {
    forall i, j :: 0 <= i < j < |xs| ==> xs[i] <= xs[j]
  }

  ghost predicate Descending(xs: seq<int>)
  {
    forall i, j :: 0 <= i < j < |xs| ==> xs[i] >= xs[j]
  }

  ghost predicate AtLeast(b: int, xs: seq<int>)
  {
    forall i :: 0 <= i < |xs| ==> b <= xs[i]
  }

  ghost predicate AtMost(b: int, xs: seq<int>)
  {
    forall i :: 0 <= i < |xs| ==> xs[i] <= b
  }

  /** A bound on every element survives a rearrangement that adds one bounded element. */
  lemma BoundsCarry(b: int, x: int, xs: seq<int>, r: seq<int>)
    requires multiset(r) == multiset(xs) + multiset{x}
    ensures AtLeast(b, xs) && b <= x ==> AtLeast(b, r)
    ensures AtMost(b, xs) && x <= b ==> AtMost(b, r)
  {
    forall i | 0 <= i < |r| ensures r[i] == x || r[i] in xs {
      assert r[i] in multiset(r);
    }
  }

  lemma ConsAscending(x: int, r: seq<int>)
    requires Ascending(r) && AtLeast(x, r)
    ensures Ascending([x] + r)
  {
  }

  lemma ConsDescending(x: int, r: seq<int>)
    requires Descending(r) && AtMost(x, r)
    ensures Descending([x] + r)
  {
  }

  /** One insertion step of a numeric sort, smallest first. */
  function InsertAsc(x: int, xs: seq<int>): (r: seq<int>)
    ensures |r| == |xs| + 1
  {
    if xs == [] || x <= xs[0] then [x] + xs
    else [xs[0]] + InsertAsc(x, xs[1..])
  }

  /** `sort((a, b) => a - b)` on numbers. */
  function SortAsc(xs: seq<int>): (r: seq<int>)
    ensures |r| == |xs|
  {
    if xs == [] then [] else InsertAsc(xs[0], SortAsc(xs[1..]))
  }

  /** One insertion step of a numeric sort, largest first. */
  function InsertDesc(x: int, xs: seq<int>): (r: seq<int>)
    ensures |r| == |xs| + 1
  {
    if xs == [] || x >= xs[0] then [x] + xs
    else [xs[0]] + InsertDesc(x, xs[1..])
  }

  /** `sort((a, b) => b - a)` on numbers. */
  function SortDesc(xs: seq<int>): (r: seq<int>)
    ensures |r| == |xs|
  {
    if xs == [] then [] else InsertDesc(xs[0], SortDesc(xs[1..]))
  }

  /** Inserting into ascending values keeps them ascending and adds exactly `x`. */
  lemma {:induction false} InsertAscSorts(x: int, xs: seq<int>)
    requires Ascending(xs)
    ensures multiset(InsertAsc(x, xs)) == multiset(xs) + multiset{x}
    ensures Ascending(InsertAsc(x, xs))
    decreases |xs|
  {
    if xs != [] && x > xs[0] {
      assert xs == [xs[0]] + xs[1..];
      InsertAscSorts(x, xs[1..]);
      BoundsCarry(xs[0], x, xs[1..], InsertAsc(x, xs[1..]));
      ConsAscending(xs[0], InsertAsc(x, xs[1..]));
    }
  }

  /** The ascending sort yields ascending values and is a permutation. */
  lemma {:induction false} SortAscSorts(xs: seq<int>)
    ensures Ascending(SortAsc(xs)) && multiset(SortAsc(xs)) == multiset(xs)
    decreases |xs|
  {
    if xs != [] {
      assert xs == [xs[0]] + xs[1..];
      SortAscSorts(xs[1..]);
      InsertAscSorts(xs[0], SortAsc(xs[1..]));
    }
  }

  /** Inserting into descending values keeps them descending and adds exactly `x`. */
  lemma {:induction false} InsertDescSorts(x: int, xs: seq<int>)
    requires Descending(xs)
    ensures multiset(InsertDesc(x, xs)) == multiset(xs) + multiset{x}
    ensures Descending(InsertDesc(x, xs))
    decreases |xs|
  {
    if xs != [] && x < xs[0] {
      assert xs == [xs[0]] + xs[1..];
      InsertDescSorts(x, xs[1..]);
      BoundsCarry(xs[0], x, xs[1..], InsertDesc(x, xs[1..]));
      ConsDescending(xs[0], InsertDesc(x, xs[1..]));
    }
  }

  /** The descending sort yields descending values and is a permutation. */
  lemma {:induction false} SortDescSorts(xs: seq<int>)
    ensures Descending(SortDesc(xs)) && multiset(SortDesc(xs)) == multiset(xs)
    decreases |xs|
  {
    if xs != [] {
      assert xs == [xs[0]] + xs[1..];
      SortDescSorts(xs[1..]);
      InsertDescSorts(xs[0], SortDesc(xs[1..]));
    }
  }

  /** The number of times `x` occurs (the `counts[x]` of a counting dictionary). */
  function Count<T(==)>(xs: seq<T>, x: T): nat
  {
    if xs == [] then 0 else (if xs[0] == x then 1 else 0) + Count(xs[1..], x)
  }

  /** The count is the element's multiplicity in the sequence's multiset. */
  lemma {:induction false} CountIsMultiplicity<T>(xs: seq<T>, x: T)
    ensures Count(xs, x) == multiset(xs)[x]
    decreases |xs|
  {
    if xs != [] {
      assert xs == [xs[0]] + xs[1..];
      CountIsMultiplicity(xs[1..], x);
    }
  }

  /** Appending an element adds one to its count and leaves the others. */
  lemma CountSnoc<T>(xs: seq<T>, x: T)
    ensures forall t :: Count(xs + [x], t) == Count(xs, t) + (if t == x then 1 else 0)
  {
    forall t ensures Count(xs + [x], t) == Count(xs, t) + (if t == x then 1 else 0) {
      CountIsMultiplicity(xs + [x], t);
      CountIsMultiplicity(xs, t);
    }
    assert multiset(xs + [x]) == multiset(xs) + multiset{x};
  }

  // ---- The `counts` dictionaries of the poker and slot pages ---------------------------

  /** Some value occurs exactly `n` times (`includes(n)` on the dictionary's values). */
  predicate HasCount(vs: seq<int>, n: nat)
  {
    exists v :: v in vs && Count(vs, v) == n
  }

  /** How many values occur exactly twice. */
  function PairsCount(vs: seq<int>): nat
  {
    |set v | v in vs && Count(vs, v) == 2|
  }

  /** A `counts` dictionary: one pass over the values. */
  method CountValues<T(==)>(values: seq<T>) returns (counts: map<T, nat>)
    ensures forall v :: v in counts <==> v in values
    ensures forall v :: v in counts ==> counts[v] == Count(values, v)
  {
    counts := map[];
    for i := 0 to |values|
      invariant forall v :: v in counts <==> v in values[..i]
      invariant forall v :: v in counts ==> counts[v] == Count(values[..i], v)
    {
      var v := values[i];
      assert values[..i + 1] == values[..i] + [v];
      CountSnoc(values[..i], v);
      CountIsMultiplicity(values[..i], v);
      counts := counts[v := (if v in counts then counts[v] else 0) + 1];
    }
    assert values[..|values|] == values;
  }

  /** The keys of a counts dictionary that occur exactly twice. */
  function PairKeys(counts: map<int, nat>): set<int>
  {
    set v | v in counts && counts[v] == 2
  }

  /** The tests the poker pages read off a counts dictionary agree with the
      counting definitions. */
  lemma CountTests(values: seq<int>, counts: map<int, nat>)
    requires forall v :: v in counts <==> v in values
    requires forall v :: v in counts ==> counts[v] == Count(values, v)
    ensures forall n: nat :: (exists v | v in counts :: counts[v] == n) == HasCount(values, n)
    ensures |PairKeys(counts)| == PairsCount(values)
  {
    var b := set v | v in values && Count(values, v) == 2;
    assert forall v :: v in PairKeys(counts) <==> v in b;
    assert PairKeys(counts) == b;
  }
}
