/** European roulette (pages/Roulette.tsx): chips are stacked on numbers,
    colours and parities; a spin debits the whole table at once and, when
    the wheel stops, pays 35 to 1 on the number and 1 to 1 on a colour or a
    parity. The winning number is an input of the spin and the 3-second
    timeout that ends it is the separate `Resolve` event. */
module Roulette {
  import opened Casino

  /** `RED_NUMBERS`, kept as a set: the page only asks it `includes`. */
  const RedNumbers: set<int> := {1, 3, 5, 7, 9, 12, 14, 16, 18, 19, 21, 23, 25, 27, 30, 32, 34, 36}

  /** The chip rack `CHIPS`. */
  const Chips: seq<real> := [10.0, 50.0, 100.0, 500.0]

  datatype Colour = Green | Red | Black

  /** The `winParity` of a number: `'none'` for zero. */
  datatype Parity = NoParity | Even | Odd

  /** `RouletteBet['type']`. */
  datatype BetType = NumberBet | ColorBet | ParityBet

  /** `RouletteBet['value']`: a number, or one of the words `'red'`,
      `'black'`, `'even'`, `'odd'` (a colour word never equals a parity word). */
  datatype BetValue = Num(n: int) | Hue(c: Colour) | Par(p: Parity)

  /** The `RouletteBet` record of types.ts. */
  datatype RouletteBet = RouletteBet(kind: BetType, value: BetValue, amount: real)

  /** `getNumberColor`. */
  function NumberColor(n: int): (c: Colour)
    ensures c == Green <==> n == 0
  {
    if n == 0 then Green else if n in RedNumbers then Red else Black
  }

  /** The red numbers are exactly the classical European layout: in 1..10 and
      19..28 the odd numbers are red, in 11..18 and 29..36 the even ones. */
  lemma ColorRule(n: int)
    requires 1 <= n <= 36
    ensures NumberColor(n) == Red <==> ((n % 2 == 1) <==> (n <= 10 || 19 <= n <= 28))
    ensures NumberColor(n) != Green
  {
  }

  /** The parity a number `winNum` resolves parity bets with. */
  function ParityOf(n: int): (p: Parity)
    ensures p == NoParity <==> n == 0
  {
    if n == 0 then NoParity else if n % 2 == 0 then Even else Odd
  }

  /** The bets the table offers: a number 0..36, red or black, even or odd. */
  predicate Offered(kind: BetType, value: BetValue)
  {
    match kind
    case NumberBet => value.Num? && 0 <= value.n <= 36
    case ColorBet => value == Hue(Red) || value == Hue(Black)
    case ParityBet => value == Par(Even) || value == Par(Odd)
  }

  predicate OnKey(b: RouletteBet, kind: BetType, value: BetValue)
  {
    b.kind == kind && b.value == value
  }

  /** `totalBet`: the left fold of the amounts. */
  function Total(bets: seq<RouletteBet>): real
  {
    if bets == [] then 0.0 else Total(bets[..|bets| - 1]) + bets[|bets| - 1].amount
  }

  /** The stake lying on one spot of the table. */
  function StakeOn(bets: seq<RouletteBet>, kind: BetType, value: BetValue): real
  {
    if bets == [] then 0.0
    else StakeOn(bets[..|bets| - 1], kind, value) + Stake(bets[|bets| - 1], kind, value)
  }

  function Stake(b: RouletteBet, kind: BetType, value: BetValue): real
  {
    if OnKey(b, kind, value) then b.amount else 0.0
  }

  /** No spot carries two records (stacking keeps it so). */
  predicate UniqueSpots(bets: seq<RouletteBet>)
  {
    forall i, j :: 0 <= i < j < |bets| ==> !OnKey(bets[j], bets[i].kind, bets[i].value)
  }

  /** `prev.find(...)`: the index of the first bet on the spot, or `|bets|`. */
  function FindBet(bets: seq<RouletteBet>, kind: BetType, value: BetValue): (i: nat)
    ensures i <= |bets|
    ensures i < |bets| ==> OnKey(bets[i], kind, value)
    ensures forall j :: 0 <= j < i ==> !OnKey(bets[j], kind, value)
  {
    if bets == [] then 0
    else if OnKey(bets[0], kind, value) then 0
    else 1 + FindBet(bets[1..], kind, value)
  }

  /** The updater `placeBet` hands to `setBets`: the chip is added to the
      existing bet on the spot, or a new bet of one chip is appended. */
  function Stack(bets: seq<RouletteBet>, kind: BetType, value: BetValue, chip: real): (s: seq<RouletteBet>)
    ensures |bets| <= |s| <= |bets| + 1
    ensures forall k :: 0 <= k < |bets| ==> OnKey(s[k], bets[k].kind, bets[k].value)
    ensures |s| == |bets| + 1 <==> forall k :: 0 <= k < |bets| ==> !OnKey(bets[k], kind, value)
    ensures |s| == |bets| + 1 ==> s[|bets|] == RouletteBet(kind, value, chip)
  {
    var i := FindBet(bets, kind, value);
    if i < |bets| then bets[i := bets[i].(amount := bets[i].amount + chip)]
    else bets + [RouletteBet(kind, value, chip)]
  }

  lemma {:induction false} TotalUpdate(bets: seq<RouletteBet>, i: nat, b: RouletteBet)
    requires i < |bets|
    ensures Total(bets[i := b]) == Total(bets) - bets[i].amount + b.amount
    decreases |bets|
  {
    var n := |bets|;
    var u := bets[i := b];
    if i == n - 1 {
      assert u[..n - 1] == bets[..n - 1];
    } else {
      assert u[..n - 1] == bets[..n - 1][i := b];
      TotalUpdate(bets[..n - 1], i, b);
    }
  }

  lemma {:induction false} StakeOnUpdate(bets: seq<RouletteBet>, i: nat, b: RouletteBet, kind: BetType, value: BetValue)
    requires i < |bets|
    ensures StakeOn(bets[i := b], kind, value)
         == StakeOn(bets, kind, value) - Stake(bets[i], kind, value) + Stake(b, kind, value)
    decreases |bets|
  {
    var n := |bets|;
    var u := bets[i := b];
    if i == n - 1 {
      assert u[..n - 1] == bets[..n - 1];
    } else {
      assert u[..n - 1] == bets[..n - 1][i := b];
      StakeOnUpdate(bets[..n - 1], i, b, kind, value);
    }
  }

  /** Stacking raises the table total by exactly one chip. */
  lemma StackAddsChip(bets: seq<RouletteBet>, kind: BetType, value: BetValue, chip: real)
    ensures Total(Stack(bets, kind, value, chip)) == Total(bets) + chip
  {
    var i := FindBet(bets, kind, value);
    if i < |bets| {
      TotalUpdate(bets, i, bets[i].(amount := bets[i].amount + chip));
    } else {
      var r := Stack(bets, kind, value, chip);
      assert r[..|r| - 1] == bets;
    }
  }

  /** Stacking raises the stake on the chosen spot by one chip and leaves
      every other spot's stake as it was. */
  lemma StackRaisesSpot(bets: seq<RouletteBet>, kind: BetType, value: BetValue, chip: real, k: BetType, v: BetValue)
    ensures StakeOn(Stack(bets, kind, value, chip), k, v)
         == StakeOn(bets, k, v) + (if k == kind && v == value then chip else 0.0)
  {
    var i := FindBet(bets, kind, value);
    if i < |bets| {
      StakeOnUpdate(bets, i, bets[i].(amount := bets[i].amount + chip), k, v);
    } else {
      var r := Stack(bets, kind, value, chip);
      assert r[..|r| - 1] == bets;
    }
  }

  /** A spot gets a new record only if it had none, so no spot ever holds two. */
  lemma StackKeepsSpotsUnique(bets: seq<RouletteBet>, kind: BetType, value: BetValue, chip: real)
    ensures |Stack(bets, kind, value, chip)| == |bets| + (if FindBet(bets, kind, value) < |bets| then 0 else 1)
    ensures UniqueSpots(bets) ==> UniqueSpots(Stack(bets, kind, value, chip))
  {
  }

  /** Every bet on the table is a positive stake on a spot the layout offers,
      one record per spot. */
  ghost predicate WellPlaced(bets: seq<RouletteBet>)
  {
    (forall i :: 0 <= i < |bets| ==> bets[i].amount > 0.0 && Offered(bets[i].kind, bets[i].value)) &&
    UniqueSpots(bets)
  }

  /** Stacking a positive chip on an offered spot keeps the table well placed. */
  lemma StackKeepsWellPlaced(bets: seq<RouletteBet>, kind: BetType, value: BetValue, chip: real)
    requires WellPlaced(bets) && Offered(kind, value) && chip > 0.0
    ensures WellPlaced(Stack(bets, kind, value, chip))
  {
    StackKeepsSpotsUnique(bets, kind, value, chip);
  }

  /** What one bet returns (stake included) when `winNum` comes up. */
  function Return(b: RouletteBet, winNum: int): real
  {
    if b.kind == NumberBet && b.value == Num(winNum) then b.amount + b.amount * 35.0
    else if b.kind == ColorBet && b.value == Hue(NumberColor(winNum)) then b.amount + b.amount * 1.0
    else if b.kind == ParityBet && b.value == Par(ParityOf(winNum)) then b.amount + b.amount * 1.0
    else 0.0
  }

  /** The `winnings` `resolveBets` accumulates. */
  function Winnings(bets: seq<RouletteBet>, winNum: int): real
  {
    if bets == [] then 0.0 else Winnings(bets[..|bets| - 1], winNum) + Return(bets[|bets| - 1], winNum)
  }

  /** The payout in terms of the table layout: 36 times the stake on the
      winning number, plus twice the stake on its colour and on its parity. */
  lemma {:induction false} WinningsByStake(bets: seq<RouletteBet>, winNum: int)
    ensures Winnings(bets, winNum)
         == 36.0 * StakeOn(bets, NumberBet, Num(winNum))
          + 2.0 * StakeOn(bets, ColorBet, Hue(NumberColor(winNum)))
          + 2.0 * StakeOn(bets, ParityBet, Par(ParityOf(winNum)))
    decreases |bets|
  {
    if bets != [] {
      WinningsByStake(bets[..|bets| - 1], winNum);
    }
  }

  /** With non-negative amounts no spin pays less than nothing or more than
      36 times the table. */
  lemma {:induction false} WinningsBounds(bets: seq<RouletteBet>, winNum: int)
    requires forall i :: 0 <= i < |bets| ==> bets[i].amount >= 0.0
    ensures 0.0 <= Winnings(bets, winNum) <= 36.0 * Total(bets)
    decreases |bets|
  {
    if bets != [] {
      WinningsBounds(bets[..|bets| - 1], winNum);
    }
  }

  /** A spot nobody bet on carries no stake. */
  lemma {:induction false} StakeOnEmptySpot(bets: seq<RouletteBet>, kind: BetType, value: BetValue)
    requires forall i :: 0 <= i < |bets| ==> !OnKey(bets[i], kind, value)
    ensures StakeOn(bets, kind, value) == 0.0
    decreases |bets|
  {
    if bets != [] {
      StakeOnEmptySpot(bets[..|bets| - 1], kind, value);
    }
  }

  /** Zero is green and has no parity, so with bets the table offers only
      the straight-up bet on 0 pays, and every colour and parity bet loses. */
  lemma ZeroLosesOutside(bets: seq<RouletteBet>)
    requires forall i :: 0 <= i < |bets| ==> Offered(bets[i].kind, bets[i].value)
    ensures Winnings(bets, 0) == 36.0 * StakeOn(bets, NumberBet, Num(0))
  {
    WinningsByStake(bets, 0);
    StakeOnEmptySpot(bets, ColorBet, Hue(Green));
    StakeOnEmptySpot(bets, ParityBet, Par(NoParity));
  }

  /** The `forEach` of `resolveBets`. */
  method ResolveBets(bets: seq<RouletteBet>, winNum: int) returns (winnings: real)
    ensures winnings == Winnings(bets, winNum)
  {
    winnings := 0.0;
    var winColor := NumberColor(winNum);
    var winParity := ParityOf(winNum);
    for i := 0 to |bets|
      invariant winnings == Winnings(bets[..i], winNum)
    {
      var bet := bets[i];
      var won := false;
      var multiplier := 0.0;
      if bet.kind == NumberBet && bet.value == Num(winNum) {
        won, multiplier := true, 35.0;
      } else if bet.kind == ColorBet && bet.value == Hue(winColor) {
        won, multiplier := true, 1.0;
      } else if bet.kind == ParityBet && bet.value == Par(winParity) {
        won, multiplier := true, 1.0;
      }
      if won {
        winnings := winnings + (bet.amount + bet.amount * multiplier);
      }
      assert bets[..i + 1][..i] == bets[..i];
    }
    assert bets[..|bets|] == bets;
  }

  class Table {
    const wallet: Wallet
    var bets: seq<RouletteBet>
    var spinning: bool
    var resultNumber: Option<int>
    var selectedChip: real
    /** The number the pending timeout will announce. */
    var pending: Option<int>

    ghost predicate Valid()
      reads this
    {
      selectedChip > 0.0 &&
      WellPlaced(bets) &&
      (spinning <==> pending.Some?) &&
      (pending.Some? ==> 0 <= pending.value <= 36) &&
      (resultNumber.Some? ==> 0 <= resultNumber.value <= 36)
    }

    /** The page on mount: an empty table and the 10 chip. */
    constructor (w: Wallet)
      ensures Valid() && wallet == w
      ensures bets == [] && !spinning && resultNumber == None && selectedChip == 10.0
    {
      wallet := w;
      bets := [];
      spinning := false;
      resultNumber := None;
      selectedChip := 10.0;
      pending := None;
    }

    method SelectChip(chip: real)
      requires Valid() && chip in Chips
      modifies this`selectedChip
      ensures Valid() && selectedChip == chip
    {
      selectedChip := chip;
    }

    /** `placeBet`: ignored while spinning or when the table plus one more
        chip would exceed the balance; nothing is debited until the spin. */
    method PlaceBet(kind: BetType, value: BetValue)
      requires Valid() && Offered(kind, value)
      modifies this`bets
      ensures Valid()
      ensures old(spinning) || wallet.user.balance < old(Total(bets)) + selectedChip ==> bets == old(bets)
      ensures !old(spinning) && wallet.user.balance >= old(Total(bets)) + selectedChip ==>
                bets == Stack(old(bets), kind, value, selectedChip) &&
                Total(bets) == old(Total(bets)) + selectedChip &&
                StakeOn(bets, kind, value) == old(StakeOn(bets, kind, value)) + selectedChip
    {
      if spinning {
        return;
      }
      if wallet.user.balance < Total(bets) + selectedChip {
        return;
      }
      ghost var stacked := Stack(bets, kind, value, selectedChip);
      StackAddsChip(bets, kind, value, selectedChip);
      StackRaisesSpot(bets, kind, value, selectedChip, kind, value);
      StackKeepsWellPlaced(bets, kind, value, selectedChip);
      var i := FindBet(bets, kind, value);
      if i < |bets| {
        bets := bets[i := bets[i].(amount := bets[i].amount + selectedChip)];
      } else {
        bets := bets + [RouletteBet(kind, value, selectedChip)];
      }
      assert bets == stacked;
    }

    /** `clearBets`: empties the table unless the wheel is spinning. */
    method ClearBets()
      requires Valid()
      modifies this`bets
      ensures Valid()
      ensures bets == if old(spinning) then old(bets) else []
    {
      if spinning {
        return;
      }
      bets := [];
    }

    /** `spinWheel` with its draw `winNum` as input. The button is disabled
        while spinning. An empty table or a table above the balance is
        refused; otherwise the whole table is debited once and the timeout
        is armed. */
    method SpinWheel(winNum: int)
      requires Valid() && !spinning && 0 <= winNum <= 36
      modifies this`spinning, this`resultNumber, this`pending, wallet
      ensures Valid()
      ensures old(bets) == [] || old(wallet.user.balance) < Total(bets) ==>
                wallet.user == old(wallet.user) && !spinning && resultNumber == old(resultNumber)
      ensures old(bets) != [] && old(wallet.user.balance) >= Total(bets) ==>
                wallet.user == WithDelta(old(wallet.user), -Total(bets)) &&
                spinning && resultNumber == None && pending == Some(winNum)
    {
      if |bets| == 0 {
        return;
      }
      var totalBet := Total(bets);
      if wallet.user.balance < totalBet {
        return;
      }
      wallet.UpdateBalance(-totalBet);
      spinning := true;
      resultNumber := None;
      pending := Some(winNum);
    }

    /** The timeout of the spin: the number is shown and `resolveBets` pays
        the table, crediting the wallet only when something was won. The
        bets are those of the spin, since nothing can change them while the
        wheel turns. */
    method Resolve()
      requires Valid() && spinning
      modifies this`spinning, this`resultNumber, this`pending, wallet
      ensures Valid() && !spinning && resultNumber == old(pending)
      ensures var w := Winnings(bets, old(pending).value);
              wallet.user == if w > 0.0 then WithDelta(old(wallet.user), w) else old(wallet.user)
    {
      var winNum := pending.value;
      spinning := false;
      pending := None;
      resultNumber := Some(winNum);
      var winnings := ResolveBets(bets, winNum);
      if winnings > 0.0 {
        wallet.UpdateBalance(winnings);
      }
    }
  }
}
