/** Mines (pages/Mines.tsx): a 5×5 grid hides `mineCount` mines; every
    diamond uncovered raises the cash-out multiplier, a mine loses the
    stake. The random mine positions are the input stream `draws`. */
module Mines {
  import opened Casino
  import opened Cards

  /** `GRID_SIZE`. */
  const GridSize: int := 25

  /** The mine counts the selector offers. */
  const MineCounts: set<int> := {1, 3, 5, 10, 15, 20, 24}

  datatype Phase = Idle | Playing | GameOver | CashedOut

  /** The odds against surviving `found` reveals with `m` mines, the product
      ∏_{i<found} (25 − i) / (25 − i − m) of `calculateMultiplier`. */
  function FairOdds(found: nat, m: int): real
    requires 0 <= m && found + m <= GridSize
  {
    if found == 0 then 1.0
    else FairOdds(found - 1, m) * ((GridSize - (found - 1)) as real / (GridSize - (found - 1) - m) as real)
  }

  /** Every factor is at least one, so the odds never drop below one. */
  lemma {:induction false} OddsAtLeastOne(found: nat, m: int)
    requires 0 <= m && found + m <= GridSize
    ensures FairOdds(found, m) >= 1.0
  {
    if found > 0 {
      OddsAtLeastOne(found - 1, m);
      var t := (GridSize - (found - 1)) as real;
      var s := (GridSize - (found - 1) - m) as real;
      Quotients(t, s);
      MulAtLeast(FairOdds(found - 1, m), t / s);
    }
  }

  lemma Quotients(t: real, s: real)
    requires 0.0 < s <= t
    ensures t / s >= 1.0
    ensures s < t ==> t / s > 1.0
  {
  }

  lemma MulAtLeast(a: real, b: real)
    requires a >= 1.0 && b >= 1.0
    ensures a * b >= a
  {
    assert a * b - a == a * (b - 1.0);
  }

  /** With at least one mine every diamond strictly raises the odds. */
  lemma OddsGrow(found: nat, m: int)
    requires 1 <= m && found + 1 + m <= GridSize
    ensures FairOdds(found + 1, m) > FairOdds(found, m)
  {
    OddsAtLeastOne(found, m);
    var t := (GridSize - found) as real;
    var s := (GridSize - found - m) as real;
    Quotients(t, s);
    var a := FairOdds(found, m);
    assert a * (t / s) - a == a * (t / s - 1.0);
  }

  /** Hence the multiplier is strictly increasing in the diamonds found. */
  lemma {:induction false} OddsIncreasing(a: nat, b: nat, m: int)
    requires 1 <= m && a < b && b + m <= GridSize
    ensures FairOdds(a, m) < FairOdds(b, m)
    decreases b - a
  {
    OddsGrow(a, m);
    if a + 1 < b {
      OddsIncreasing(a + 1, b, m);
    }
  }

  /** What `calculateMultiplier` computes: the fair odds less a 5% house edge. */
  function Multiplier(found: nat, m: int): (x: real)
    requires 0 <= m && found + m <= GridSize
    ensures x >= 0.95
    ensures found == 0 ==> x == 0.95
  {
    OddsAtLeastOne(found, m);
    0.95 * FairOdds(found, m)
  }

  /** `calculateMultiplier(found, mines)`, its loop proved against the product. */
  method CalculateMultiplier(found: nat, mines: int) returns (mult: real)
    requires 0 <= mines && found + mines <= GridSize
    ensures mult == Multiplier(found, mines)
  {
    mult := 1.0;
    for i := 0 to found
      invariant mult == FairOdds(i, mines)
    {
      var totalAvailable := GridSize - i;
      var safeAvailable := GridSize - i - mines;
      mult := mult * (totalAvailable as real / safeAvailable as real);
    }
    mult := mult * 0.95;
  }

  /** `currentMultiplier`: shown as 1 before the first diamond. */
  function CurrentMultiplier(found: nat, m: int): (r: real)
    requires 0 <= m && found + m <= GridSize
    ensures found == 0 ==> r == 1.0
    ensures found > 0 ==> r >= 0.95
  {
    if found == 0 then 1.0 else (OddsAtLeastOne(found, m); Multiplier(found, m))
  }

  /** The first diamond lowers the displayed multiplier exactly when there is
      one mine: 0.95 · 25/24 is below 1, while for m ≥ 3 it is above. */
  lemma FirstRevealDrops(m: int)
    requires m in MineCounts
    ensures CurrentMultiplier(1, m) < CurrentMultiplier(0, m) <==> m == 1
  {
    var s := (GridSize - m) as real;
    assert FairOdds(1, m) == 25.0 / s;
    assert 0.95 * (25.0 / s) == 23.75 / s;
    if m == 1 {
      assert 23.75 / 24.0 < 1.0;
    } else {
      assert s <= 22.0;
      assert 23.75 / s > 1.0;
    }
  }

  function Elems(s: seq<int>): set<int>
  {
    set x | x in s
  }

  lemma {:induction false} DistinctCard(s: seq<int>)
    requires Distinct(s)
    ensures |Elems(s)| == |s|
    decreases |s|
  {
    if s != [] {
      var n := |s|;
      DistinctCard(s[..n - 1]);
      assert Elems(s) == Elems(s[..n - 1]) + {s[n - 1]};
      assert s[n - 1] !in Elems(s[..n - 1]);
    }
  }

  /** `Set.add` on a set kept in insertion order. */
  function Add(mines: seq<int>, x: int): seq<int>
  {
    if x in mines then mines else mines + [x]
  }

  /** The set `startGame` fills: draws are added (duplicates ignored, order of
      first appearance kept, as `Array.from` of a set does) until `m` mines
      are placed. */
  function Place(mines: seq<int>, rest: seq<int>, m: nat): (r: seq<int>)
    ensures |mines| <= |r| && r[..|mines|] == mines
    ensures |mines| <= m ==> |r| <= m
    ensures Distinct(mines) ==> Distinct(r)
    ensures forall x :: x in r ==> x in mines || x in rest
    decreases |rest|
  {
    if |mines| >= m || rest == [] then mines else Place(Add(mines, rest[0]), rest[1..], m)
  }

  /** While fewer than `m` mines are placed, enough distinct values remain
      among the draws still to come. */
  lemma DrawsRemain(mines: seq<int>, rest: seq<int>, m: nat)
    requires Distinct(mines) && |mines| < m && |Elems(mines) + Elems(rest)| >= m
    ensures rest != []
  {
    DistinctCard(mines);
    ElemsBound(rest);
    assert |Elems(mines) + Elems(rest)| <= |Elems(mines)| + |Elems(rest)|;
  }

  lemma {:induction false} ElemsBound(s: seq<int>)
    ensures |Elems(s)| <= |s|
    decreases |s|
  {
    if s != [] {
      var n := |s|;
      ElemsBound(s[..n - 1]);
      assert Elems(s) == Elems(s[..n - 1]) + {s[n - 1]};
    }
  }

  /** One turn of the loop keeps the mines distinct and the pool of values
      (placed or still to be drawn) unchanged. */
  lemma AddStep(mines: seq<int>, rest: seq<int>, m: nat)
    requires Distinct(mines) && |mines| < m && rest != []
    ensures Distinct(Add(mines, rest[0])) && |Add(mines, rest[0])| <= m
    ensures Elems(Add(mines, rest[0])) + Elems(rest[1..]) == Elems(mines) + Elems(rest)
    ensures Place(Add(mines, rest[0]), rest[1..], m) == Place(mines, rest, m)
  {
    var x := rest[0];
    assert rest == [x] + rest[1..];
    assert Elems(rest) == {x} + Elems(rest[1..]);
    if x !in mines {
      assert Elems(mines + [x]) == Elems(mines) + {x};
    }
  }

  /** The `while (newMines.size < mineCount)` loop over the draw stream:
      exactly `mineCount` distinct mines, all of them drawn. */
  method PlaceMines(draws: seq<int>, mineCount: nat) returns (mines: seq<int>)
    requires mineCount <= |Elems(draws)|
    ensures mines == Place([], draws, mineCount)
    ensures |mines| == mineCount && Distinct(mines)
    ensures forall x :: x in mines ==> x in draws
  {
    mines := [];
    var k := 0;
    assert Elems(mines) + Elems(draws[k..]) == Elems(draws);
    while |mines| < mineCount
      invariant 0 <= k <= |draws|
      invariant Distinct(mines) && |mines| <= mineCount
      invariant Place(mines, draws[k..], mineCount) == Place([], draws, mineCount)
      invariant |Elems(mines) + Elems(draws[k..])| >= mineCount
      invariant forall x :: x in mines ==> x in draws
      decreases |draws| - k
    {
      DrawsRemain(mines, draws[k..], mineCount);
      AddStep(mines, draws[k..], mineCount);
      assert draws[k..][0] == draws[k] && draws[k..][1..] == draws[k + 1..];
      var x := draws[k];
      if x !in mines {
        mines := mines + [x];
      }
      k := k + 1;
    }
  }

  class Game {
    const wallet: Wallet
    var bet: real
    var mineCount: int
    var gameState: Phase
    var mines: seq<int>
    var revealed: seq<int>

    /** Everything but the auto-cash-out bound. */
    ghost predicate Sound()
      reads this
    {
      1 <= mineCount <= 24 &&
      (gameState == Playing ==>
        |mines| == mineCount && Distinct(mines) && (forall x :: x in mines ==> 0 <= x < GridSize) &&
        Distinct(revealed) && (forall x :: x in revealed ==> 0 <= x < GridSize && x !in mines) &&
        |revealed| + mineCount <= GridSize)
    }

    /** While playing, at least one diamond is still hidden. */
    ghost predicate Valid()
      reads this
    {
      Sound() && (gameState == Playing ==> |revealed| + mineCount < GridSize)
    }

    constructor (w: Wallet)
      ensures Valid() && wallet == w
      ensures bet == 10.0 && mineCount == 3 && gameState == Idle && mines == [] && revealed == []
    {
      wallet := w;
      bet := 10.0;
      mineCount := 3;
      gameState := Idle;
      mines := [];
      revealed := [];
    }

    /** The "−" stake button (disabled while playing). */
    method DecreaseBet()
      requires Valid() && gameState != Playing
      modifies this`bet
      ensures Valid()
      ensures bet == if old(bet) - 10.0 >= 10.0 then old(bet) - 10.0 else 10.0
    {
      bet := if bet - 10.0 >= 10.0 then bet - 10.0 else 10.0;
    }

    /** The "+" stake button: never above the balance (disabled while playing). */
    method IncreaseBet()
      requires Valid() && gameState != Playing
      modifies this`bet
      ensures Valid()
      ensures bet == if old(bet) + 10.0 <= wallet.user.balance then old(bet) + 10.0 else wallet.user.balance
    {
      bet := if bet + 10.0 <= wallet.user.balance then bet + 10.0 else wallet.user.balance;
    }

    method SetMineCount(num: int)
      requires Valid() && gameState != Playing && num in MineCounts
      modifies this`mineCount
      ensures Valid() && mineCount == num
    {
      mineCount := num;
    }

    /** `startGame` (its button replaces the cash-out button when no game is
        running). With the stake covered, it is debited once and exactly
        `mineCount` distinct mines are placed from the draw stream. */
    method StartGame(draws: seq<int>)
      requires Valid() && gameState != Playing
      requires forall i :: 0 <= i < |draws| ==> 0 <= draws[i] < GridSize
      requires mineCount <= |Elems(draws)|
      modifies this`mines, this`revealed, this`gameState, wallet
      ensures Valid()
      ensures old(wallet.user.balance) < bet ==>
                wallet.user == old(wallet.user) && mines == old(mines) && revealed == old(revealed) &&
                gameState == old(gameState)
      ensures old(wallet.user.balance) >= bet ==>
                wallet.user == WithDelta(old(wallet.user), -bet) &&
                mines == Place([], draws, mineCount) && |mines| == mineCount && Distinct(mines) &&
                revealed == [] && gameState == Playing
    {
      if wallet.user.balance < bet {
        return;
      }
      wallet.UpdateBalance(-bet);
      var newMines := PlaceMines(draws, mineCount);
      mines := newMines;
      revealed := [];
      gameState := Playing;
    }

    /** `cashOut`: pays the stake times the multiplier of the diamonds found
        and ends the round; outside a round it does nothing. */
    method CashOut()
      requires Sound()
      modifies this`gameState, wallet
      ensures Valid()
      ensures old(gameState) != Playing ==> gameState == old(gameState) && wallet.user == old(wallet.user)
      ensures old(gameState) == Playing ==>
                gameState == CashedOut &&
                wallet.user == WithDelta(old(wallet.user), bet * Multiplier(|revealed|, mineCount))
    {
      if gameState != Playing {
        return;
      }
      var finalMult := CalculateMultiplier(|revealed|, mineCount);
      var winAmount := bet * finalMult;
      wallet.UpdateBalance(winAmount);
      gameState := CashedOut;
    }

    /** `revealTile`: a mine ends the round with nothing paid; a diamond is
        recorded and, when it is the last one, cashes out automatically. */
    method RevealTile(index: int)
      requires Valid() && 0 <= index < GridSize
      modifies this`revealed, this`gameState, wallet
      ensures Valid()
      ensures old(gameState) != Playing || index in old(revealed) ==>
                revealed == old(revealed) && gameState == old(gameState) && wallet.user == old(wallet.user)
      ensures old(gameState) == Playing && index !in old(revealed) && index in mines ==>
                revealed == old(revealed) + [index] && gameState == GameOver && wallet.user == old(wallet.user)
      ensures old(gameState) == Playing && index !in old(revealed) && index !in mines ==>
                revealed == old(revealed) + [index] &&
                if |revealed| + mineCount == GridSize then
                  gameState == CashedOut &&
                  wallet.user == WithDelta(old(wallet.user), bet * Multiplier(|revealed|, mineCount))
                else
                  gameState == Playing && wallet.user == old(wallet.user)
    {
      if gameState != Playing || index in revealed {
        return;
      }
      if index in mines {
        revealed := revealed + [index];
        gameState := GameOver;
      } else {
        revealed := revealed + [index];
        if |revealed| == GridSize - mineCount {
          CashOut();
        }
      }
    }
  }
}
