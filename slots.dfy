/** The themed slot machine (pages/Slots.tsx): a 5-reel, 3-row grid of
    symbols paid by counts anywhere on the grid ("cluster" pays) plus a
    flat prize for three wilds. Every `Math.random()` of the final grid is
    an input, and the end of the spin animation is the `FinalizeSpin`
    event. */
module Slots {
  import opened Casino
  import Cards

  /** A symbol is the emoji string the page draws. */
  type Symbol = string

  const Reels: nat := 5
  const Rows: nat := 3

  /** `SlotTheme`, without its description and colours: the symbols go from
      the highest paying to the lowest. */
  datatype Theme = Theme(id: string, name: string, symbols: seq<Symbol>, wildSymbol: Symbol)

  /** `SLOT_THEMES`. */
  const Themes: seq<Theme> := [
    Theme("blasting", "Blasting Wilds", ["💎", "7️⃣", "🔔", "🍉", "🍇", "🍋", "🍒"], "💣"),
    Theme("olympus", "Gates of Gods", ["👑", "⏳", "💍", "🏆", "🍷", "🟦", "🟩"], "⚡"),
    Theme("sweet", "Sugar Rush", ["🍭", "🍬", "🍩", "🍪", "🍎", "🍇", "🍌"], "🧁")
  ]

  /** What the pay rules rely on: at least two distinct symbols and a wild
      that is none of them. */
  predicate WellFormed(t: Theme)
  {
    |t.symbols| >= 2 && Cards.Distinct(t.symbols) && t.wildSymbol !in t.symbols
  }

  lemma ThemesWellFormed()
    ensures forall i :: 0 <= i < |Themes| ==> WellFormed(Themes[i]) && |Themes[i].symbols| == 7
  {
    ThemeWellFormed(0);
    ThemeWellFormed(1);
    ThemeWellFormed(2);
  }

  lemma ThemeWellFormed(i: nat)
    requires i < |Themes|
    ensures WellFormed(Themes[i]) && |Themes[i].symbols| == 7
  {
    var t := Themes[i];
    forall a, b | 0 <= a < b < |t.symbols| ensures t.symbols[a] != t.symbols[b] {
      assert t.symbols[a][0] != t.symbols[b][0];
    }
  }

  /** `[...symbols, wildSymbol]`. */
  function Pool(t: Theme): (pool: seq<Symbol>)
    ensures |pool| == |t.symbols| + 1 && pool[|t.symbols|] == t.wildSymbol
  {
    t.symbols + [t.wildSymbol]
  }

  lemma PoolDistinct(t: Theme)
    requires WellFormed(t)
    ensures Cards.Distinct(Pool(t))
  {
  }

  /** The two draws of one cell: `r`, and the second `Math.random()` that is
      consulted only in the fallback branch. */
  datatype Draw = Draw(r: real, r2: real)

  predicate UnitDraw(d: Draw)
  {
    0.0 <= d.r < 1.0 && 0.0 <= d.r2 < 1.0
  }

  lemma ScaledBelow(r: real, k: int)
    requires 0.0 <= r < 1.0 && k >= 1
    ensures 0.0 <= r * k as real < k as real
  {
  }

  /** The plain symbol `selectGame` puts in a cell:
      `symbols[Math.floor(r * symbols.length)]`. */
  function Pick(t: Theme, r: real): (s: Symbol)
    requires |t.symbols| >= 1 && 0.0 <= r < 1.0
    ensures s in t.symbols
  {
    ScaledBelow(r, |t.symbols|);
    t.symbols[(r * |t.symbols| as real).Floor]
  }

  /** Each plain symbol is picked on its own slice of width 1/n of the draw,
      so all n symbols are equally likely. */
  lemma PickSlice(t: Theme, r: real, k: int)
    requires WellFormed(t) && 0.0 <= r < 1.0 && 0 <= k < |t.symbols|
    ensures Pick(t, r) == t.symbols[k] <==> k as real <= r * |t.symbols| as real < (k + 1) as real
  {
    ScaledBelow(r, |t.symbols|);
    var i := (r * |t.symbols| as real).Floor;
    assert i as real <= r * |t.symbols| as real < (i + 1) as real;
    if k <= i - 1 {
      assert (k + 1) as real <= i as real;
    }
    if k >= i + 1 {
      assert (i + 1) as real <= k as real;
    }
  }

  /** `Math.floor(r2 * (pool.length - 2)) + 2`. */
  function FallbackIndex(n: int, r2: real): (i: int)
    requires n >= 3 && 0.0 <= r2 < 1.0
    ensures 2 <= i < n
  {
    ScaledBelow(r2, n - 2);
    (r2 * (n - 2) as real).Floor + 2
  }

  /** The weighted choice of one cell of the final grid. */
  function Choose(t: Theme, d: Draw): (c: Symbol)
    requires |t.symbols| >= 2 && UnitDraw(d)
    ensures c in Pool(t)
  {
    var pool := Pool(t);
    if d.r > 0.95 then t.wildSymbol
    else if d.r > 0.90 then pool[0]
    else if d.r > 0.80 then pool[1]
    else pool[FallbackIndex(|pool|, d.r2)]
  }

  /** Every cell is a symbol of the pool; the top symbol appears only for
      0.90 < r ≤ 0.95 and the second only for 0.80 < r ≤ 0.90, but the wild
      appears both for r > 0.95 and when the fallback index lands on the last
      slot of the pool, which holds the wild. */
  lemma ChooseRule(t: Theme, d: Draw)
    requires WellFormed(t) && UnitDraw(d)
    ensures Choose(t, d) in Pool(t)
    ensures Choose(t, d) == t.symbols[0] <==> 0.90 < d.r <= 0.95
    ensures Choose(t, d) == t.symbols[1] <==> 0.80 < d.r <= 0.90
    ensures Choose(t, d) == t.wildSymbol <==>
              d.r > 0.95 || (d.r <= 0.80 && FallbackIndex(|Pool(t)|, d.r2) == |t.symbols|)
  {
    PoolDistinct(t);
    var pool := Pool(t);
    assert pool[0] == t.symbols[0] && pool[1] == t.symbols[1];
    if d.r <= 0.80 {
      var i := FallbackIndex(|pool|, d.r2);
      assert pool[i] != pool[0] && pool[i] != pool[1];
      assert pool[i] == t.wildSymbol <==> i == |t.symbols|;
    }
  }

  /** With the seven-symbol themes, a low `r` and `r2 = 0.9` give the wild. */
  lemma FallbackYieldsWild(t: Theme)
    requires WellFormed(t) && |t.symbols| == 7
    ensures Choose(t, Draw(0.5, 0.9)) == t.wildSymbol
  {
    assert (0.9 * 6.0).Floor == 5;
  }

  /** The nested loops of `finalizeSpin`: 5 reels of 3 cells each. */
  method FinalGrid(t: Theme, draws: seq<seq<Draw>>) returns (grid: seq<seq<Symbol>>)
    requires |t.symbols| >= 2
    requires |draws| == Reels && forall i :: 0 <= i < Reels ==> |draws[i]| == Rows
    requires forall i, j :: 0 <= i < Reels && 0 <= j < Rows ==> UnitDraw(draws[i][j])
    ensures |grid| == Reels && forall i :: 0 <= i < Reels ==> |grid[i]| == Rows
    ensures forall i, j :: 0 <= i < Reels && 0 <= j < Rows ==> grid[i][j] == Choose(t, draws[i][j])
  {
    grid := [];
    for i := 0 to Reels
      invariant |grid| == i
      invariant forall a :: 0 <= a < i ==> |grid[a]| == Rows
      invariant forall a, j :: 0 <= a < i && 0 <= j < Rows ==> grid[a][j] == Choose(t, draws[a][j])
    {
      var col: seq<Symbol> := [];
      for j := 0 to Rows
        invariant |col| == j
        invariant forall b :: 0 <= b < j ==> col[b] == Choose(t, draws[i][b])
      {
        col := col + [Choose(t, draws[i][j])];
      }
      grid := grid + [col];
    }
  }

  /** `grid.flat()`. */
  function Flatten(grid: seq<seq<Symbol>>): (cells: seq<Symbol>)
    ensures (forall i :: 0 <= i < |grid| ==> |grid[i]| == Rows) ==> |cells| == |grid| * Rows
  {
    if grid == [] then [] else Flatten(grid[..|grid| - 1]) + grid[|grid| - 1]
  }

  /** A 5×3 grid flattens to 15 cells, each of them a cell of the grid. */
  lemma {:induction false} FlattenCells(grid: seq<seq<Symbol>>, pool: seq<Symbol>)
    requires forall i :: 0 <= i < |grid| ==> |grid[i]| == Rows
    requires forall i, j :: 0 <= i < |grid| && 0 <= j < Rows ==> grid[i][j] in pool
    ensures |Flatten(grid)| == |grid| * Rows
    ensures forall k :: 0 <= k < |Flatten(grid)| ==> Flatten(grid)[k] in pool
    decreases |grid|
  {
    if grid != [] {
      var n := |grid|;
      FlattenCells(grid[..n - 1], pool);
      var f := Flatten(grid[..n - 1]);
      forall k | 0 <= k < |Flatten(grid)|
        ensures Flatten(grid)[k] in pool
      {
        if k >= |f| {
          assert Flatten(grid)[k] == grid[n - 1][k - |f|];
        }
      }
    }
  }

  /** The sum of the counts of the pool's symbols. */
  function SumCounts(pool: seq<Symbol>, cells: seq<Symbol>): nat
  {
    if pool == [] then 0
    else SumCounts(pool[..|pool| - 1], cells) + Cards.Count(cells, pool[|pool| - 1])
  }

  lemma {:induction false} SumCountsSnoc(pool: seq<Symbol>, cells: seq<Symbol>, x: Symbol)
    ensures SumCounts(pool, cells + [x]) == SumCounts(pool, cells) + Cards.Count(pool, x)
    decreases |pool|
  {
    Cards.CountSnoc(cells, x);
    if pool != [] {
      var n := |pool|;
      SumCountsSnoc(pool[..n - 1], cells, x);
      Cards.CountSnoc(pool[..n - 1], pool[n - 1]);
      assert pool == pool[..n - 1] + [pool[n - 1]];
    }
  }

  lemma CountOnce(pool: seq<Symbol>, x: Symbol)
    requires Cards.Distinct(pool) && x in pool
    ensures Cards.Count(pool, x) == 1
  {
    var i :| 0 <= i < |pool| && pool[i] == x;
    assert pool == pool[..i] + [x] + pool[i + 1..];
    assert x !in pool[..i] && x !in pool[i + 1..];
    assert multiset(pool) == multiset(pool[..i]) + multiset{x} + multiset(pool[i + 1..]);
    Cards.CountIsMultiplicity(pool, x);
  }

  /** `counts` counts every cell exactly once: when all cells are pool
      symbols, the counts of the pool add up to the number of cells. */
  lemma {:induction false} CountsPartition(pool: seq<Symbol>, cells: seq<Symbol>)
    requires Cards.Distinct(pool)
    requires forall k :: 0 <= k < |cells| ==> cells[k] in pool
    ensures SumCounts(pool, cells) == |cells|
    decreases |cells|
  {
    if cells == [] {
      SumCountsEmpty(pool);
    } else {
      var n := |cells|;
      CountsPartition(pool, cells[..n - 1]);
      assert cells == cells[..n - 1] + [cells[n - 1]];
      SumCountsSnoc(pool, cells[..n - 1], cells[n - 1]);
      CountOnce(pool, cells[n - 1]);
    }
  }

  lemma {:induction false} SumCountsEmpty(pool: seq<Symbol>)
    ensures SumCounts(pool, []) == 0
    decreases |pool|
  {
    if pool != [] {
      SumCountsEmpty(pool[..|pool| - 1]);
    }
  }

  /** On a final 5×3 grid the counts of the pool's symbols add up to 15. */
  lemma GridCountsSumTo15(t: Theme, grid: seq<seq<Symbol>>)
    requires WellFormed(t)
    requires |grid| == Reels && forall i :: 0 <= i < Reels ==> |grid[i]| == Rows
    requires forall i, j :: 0 <= i < Reels && 0 <= j < Rows ==> grid[i][j] in Pool(t)
    ensures |Flatten(grid)| == Reels * Rows
    ensures SumCounts(Pool(t), Flatten(grid)) == Reels * Rows
  {
    FlattenCells(grid, Pool(t));
    PoolDistinct(t);
    CountsPartition(Pool(t), Flatten(grid));
  }

  /** Two different symbols share the cells. */
  lemma {:induction false} CountPairBound(cells: seq<Symbol>, a: Symbol, b: Symbol)
    requires a != b
    ensures Cards.Count(cells, a) + Cards.Count(cells, b) <= |cells|
    decreases |cells|
  {
    if cells != [] {
      CountPairBound(cells[1..], a, b);
    }
  }

  /** On 15 cells at most one symbol can reach the 8-of-a-kind tier. */
  lemma AtMostOneBigCluster(t: Theme, cells: seq<Symbol>, i: int, j: int)
    requires WellFormed(t) && |cells| == Reels * Rows
    requires 0 <= i < j < |t.symbols|
    ensures !(Cards.Count(cells, t.symbols[i]) >= 8 && Cards.Count(cells, t.symbols[j]) >= 8)
  {
    CountPairBound(cells, t.symbols[i], t.symbols[j]);
  }

  /** The prize of the symbol at `index` seen `count` times: rarer symbols
      (lower indices) pay more. */
  function SymbolPay(len: int, index: int, count: nat, bet: real): (p: real)
    ensures bet >= 0.0 && index < len ==> p >= 0.0
  {
    if count >= 8 then bet * ((len - index) as real * 2.0)
    else if count >= 5 then bet * ((len - index) as real * 0.5)
    else 0.0
  }

  /** The symbol prizes of the first `k` symbols; wilds do not count toward
      any of them. */
  function SymbolsWin(t: Theme, cells: seq<Symbol>, bet: real, k: nat): (w: real)
    requires k <= |t.symbols|
    ensures bet >= 0.0 ==> w >= 0.0
  {
    if k == 0 then 0.0
    else SymbolsWin(t, cells, bet, k - 1) + SymbolPay(|t.symbols|, k - 1, Cards.Count(cells, t.symbols[k - 1]), bet)
  }

  /** `totalWin`: the symbol prizes plus 20 bets for three or more wilds. */
  function TotalWin(t: Theme, cells: seq<Symbol>, bet: real): (w: real)
    ensures bet >= 0.0 ==> w >= 0.0
    ensures bet >= 0.0 && Cards.Count(cells, t.wildSymbol) >= 3 ==> w >= 20.0 * bet
  {
    SymbolsWin(t, cells, bet, |t.symbols|) + (if Cards.Count(cells, t.wildSymbol) >= 3 then bet * 20.0 else 0.0)
  }

  /** Some symbol reached five, or three wilds showed. */
  predicate Pays(t: Theme, cells: seq<Symbol>)
  {
    (exists i :: 0 <= i < |t.symbols| && Cards.Count(cells, t.symbols[i]) >= 5) ||
    Cards.Count(cells, t.wildSymbol) >= 3
  }

  lemma {:induction false} SymbolsWinSign(t: Theme, cells: seq<Symbol>, bet: real, k: nat)
    requires k <= |t.symbols| && bet > 0.0
    ensures SymbolsWin(t, cells, bet, k) >= 0.0
    ensures SymbolsWin(t, cells, bet, k) > 0.0 <==>
              exists i :: 0 <= i < k && Cards.Count(cells, t.symbols[i]) >= 5
  {
    if k > 0 {
      SymbolsWinSign(t, cells, bet, k - 1);
      var len := |t.symbols| as real;
      assert (len - (k - 1) as real) >= 1.0;
    }
  }

  /** With a positive stake the spin pays exactly when some symbol reached
      five or three wilds showed, and never takes anything. */
  lemma TotalWinPositive(t: Theme, cells: seq<Symbol>, bet: real)
    requires bet > 0.0
    ensures TotalWin(t, cells, bet) >= 0.0
    ensures TotalWin(t, cells, bet) > 0.0 <==> Pays(t, cells)
  {
    SymbolsWinSign(t, cells, bet, |t.symbols|);
  }

  /** One of the first `k` symbols reached five. */
  predicate SomeFive(t: Theme, cells: seq<Symbol>, k: nat)
    requires k <= |t.symbols|
  {
    k > 0 && (SomeFive(t, cells, k - 1) || Cards.Count(cells, t.symbols[k - 1]) >= 5)
  }

  lemma {:induction false} SomeFiveExists(t: Theme, cells: seq<Symbol>, k: nat)
    requires k <= |t.symbols|
    ensures SomeFive(t, cells, k) <==> exists i :: 0 <= i < k && Cards.Count(cells, t.symbols[i]) >= 5
  {
    if k > 0 {
      SomeFiveExists(t, cells, k - 1);
    }
  }

  /** The `theme.symbols.forEach` of `checkWin`, reading the counts
      dictionary. */
  method SymbolPrizes(t: Theme, cells: seq<Symbol>, counts: map<Symbol, nat>, bet: real)
    returns (totalWin: real, winOccurred: bool)
    requires forall v :: v in counts <==> v in cells
    requires forall v :: v in counts ==> counts[v] == Cards.Count(cells, v)
    ensures totalWin == SymbolsWin(t, cells, bet, |t.symbols|)
    ensures !winOccurred ==> totalWin == 0.0
    ensures winOccurred == SomeFive(t, cells, |t.symbols|)
  {
    totalWin := 0.0;
    winOccurred := false;
    for index := 0 to |t.symbols|
      invariant totalWin == SymbolsWin(t, cells, bet, index)
      invariant !winOccurred ==> totalWin == 0.0
      invariant winOccurred == SomeFive(t, cells, index)
    {
      var sym := t.symbols[index];
      var baseCount := if sym in counts then counts[sym] else 0;
      Cards.CountIsMultiplicity(cells, sym);
      assert baseCount == Cards.Count(cells, sym);
      var totalCount := baseCount;
      if totalCount >= 8 {
        var multiplier := (|t.symbols| - index) as real * 2.0;
        assert bet * multiplier == SymbolPay(|t.symbols|, index, baseCount, bet);
        totalWin := totalWin + bet * multiplier;
        winOccurred := true;
      } else if totalCount >= 5 {
        var multiplier := (|t.symbols| - index) as real * 0.5;
        assert bet * multiplier == SymbolPay(|t.symbols|, index, baseCount, bet);
        totalWin := totalWin + bet * multiplier;
        winOccurred := true;
      }
    }
  }

  /** `checkWin`: the counts dictionary, the symbol prizes and the wild prize. */
  method CheckWin(grid: seq<seq<Symbol>>, t: Theme, bet: real) returns (totalWin: real, winOccurred: bool)
    ensures totalWin == TotalWin(t, Flatten(grid), bet)
    ensures !winOccurred ==> totalWin == 0.0
    ensures winOccurred <==> Pays(t, Flatten(grid))
  {
    var cells := Flatten(grid);
    var counts := Cards.CountValues(cells);
    var wildCount := if t.wildSymbol in counts then counts[t.wildSymbol] else 0;
    Cards.CountIsMultiplicity(cells, t.wildSymbol);
    assert wildCount == Cards.Count(cells, t.wildSymbol);
    totalWin, winOccurred := SymbolPrizes(t, cells, counts, bet);
    SomeFiveExists(t, cells, |t.symbols|);
    if wildCount >= 3 {
      totalWin := totalWin + bet * 20.0;
      winOccurred := true;
    }
  }

  /** What a running spin captured: the theme and the stake of its render. */
  datatype Spin = Spin(theme: Theme, bet: real)

  class Machine {
    const wallet: Wallet
    var theme: Theme
    var grid: seq<seq<Symbol>>
    var isSpinning: bool
    var bet: real
    var pending: Option<Spin>

    ghost predicate Valid()
      reads this
    {
      WellFormed(theme) &&
      (isSpinning <==> pending.Some?) &&
      (pending.Some? ==> WellFormed(pending.value.theme))
    }

    /** The page on mount: the first theme, a grid of `'?'`, a 10 stake. */
    constructor (w: Wallet)
      ensures Valid() && wallet == w
      ensures theme == Themes[0] && !isSpinning && bet == 10.0
      ensures |grid| == Reels && forall i :: 0 <= i < Reels ==> grid[i] == ["?", "?", "?"]
    {
      ThemesWellFormed();
      wallet := w;
      theme := Themes[0];
      grid := seq(Reels, _ => ["?", "?", "?"]);
      isSpinning := false;
      bet := 10.0;
      pending := None;
    }

    /** `selectGame`: switches theme and fills the grid with its plain
        symbols (no wild), each picked by `floor(r · symbols.length)`. */
    method SelectGame(t: Theme, picks: seq<seq<real>>)
      requires Valid() && t in Themes
      requires |picks| == Reels && forall i :: 0 <= i < Reels ==> |picks[i]| == Rows
      requires forall i, j :: 0 <= i < Reels && 0 <= j < Rows ==> 0.0 <= picks[i][j] < 1.0
      modifies this`theme, this`grid
      ensures Valid() && theme == t
      ensures |grid| == Reels && forall i :: 0 <= i < Reels ==> |grid[i]| == Rows
      ensures forall i, j :: 0 <= i < Reels && 0 <= j < Rows ==> grid[i][j] == Pick(t, picks[i][j])
      ensures forall i, j :: 0 <= i < Reels && 0 <= j < Rows ==> grid[i][j] in t.symbols
    {
      ThemesWellFormed();
      var g: seq<seq<Symbol>> := [];
      for i := 0 to Reels
        invariant |g| == i
        invariant forall a :: 0 <= a < i ==> |g[a]| == Rows
        invariant forall a, j :: 0 <= a < i && 0 <= j < Rows ==> g[a][j] == Pick(t, picks[a][j])
      {
        var col: seq<Symbol> := [];
        for j := 0 to Rows
          invariant |col| == j
          invariant forall b :: 0 <= b < j ==> col[b] == Pick(t, picks[i][b])
        {
          col := col + [Pick(t, picks[i][j])];
        }
        g := g + [col];
      }
      theme := t;
      grid := g;
    }

    /** The "−" stake button. */
    method DecreaseBet()
      requires Valid()
      modifies this`bet
      ensures Valid()
      ensures bet == if old(bet) - 10.0 >= 10.0 then old(bet) - 10.0 else 10.0
    {
      bet := if bet - 10.0 >= 10.0 then bet - 10.0 else 10.0;
    }

    /** The "+" stake button: never above the balance. */
    method IncreaseBet()
      requires Valid()
      modifies this`bet
      ensures Valid()
      ensures bet == if old(bet) + 10.0 <= wallet.user.balance then old(bet) + 10.0 else wallet.user.balance
    {
      bet := if bet + 10.0 <= wallet.user.balance then bet + 10.0 else wallet.user.balance;
    }

    /** `spin` (its button is disabled while spinning): refused when the
        stake is not covered, otherwise the stake is debited once and the
        animation starts with the theme and stake of this render. */
    method StartSpin()
      requires Valid() && !isSpinning
      modifies this`isSpinning, this`pending, wallet
      ensures Valid()
      ensures old(wallet.user.balance) < bet ==> wallet.user == old(wallet.user) && !isSpinning
      ensures old(wallet.user.balance) >= bet ==>
                wallet.user == WithDelta(old(wallet.user), -bet) && isSpinning &&
                pending == Some(Spin(theme, bet))
    {
      if wallet.user.balance < bet {
        return;
      }
      isSpinning := true;
      wallet.UpdateBalance(-bet);
      pending := Some(Spin(theme, bet));
    }

    /** `finalizeSpin` at the end of the animation: the final grid is drawn,
        the spin stops, and the wallet is credited the total win of the spin's
        theme and stake when it is positive. */
    method FinalizeSpin(draws: seq<seq<Draw>>)
      requires Valid() && isSpinning
      requires |draws| == Reels && forall i :: 0 <= i < Reels ==> |draws[i]| == Rows
      requires forall i, j :: 0 <= i < Reels && 0 <= j < Rows ==> UnitDraw(draws[i][j])
      modifies this`grid, this`isSpinning, this`pending, wallet
      ensures Valid() && !isSpinning
      ensures |grid| == Reels && forall i :: 0 <= i < Reels ==> |grid[i]| == Rows
      ensures forall i, j :: 0 <= i < Reels && 0 <= j < Rows ==>
                grid[i][j] == Choose(old(pending).value.theme, draws[i][j])
      ensures var w := TotalWin(old(pending).value.theme, Flatten(grid), old(pending).value.bet);
              wallet.user == if w > 0.0 then WithDelta(old(wallet.user), w) else old(wallet.user)
    {
      var spin := pending.value;
      var newGrid := FinalGrid(spin.theme, draws);
      grid := newGrid;
      isSpinning := false;
      pending := None;
      var totalWin, winOccurred := CheckWin(newGrid, spin.theme, spin.bet);
      if winOccurred && totalWin > 0.0 {
        wallet.UpdateBalance(totalWin);
      }
    }
  }
}
