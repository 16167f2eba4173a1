/** Margin brackets and the liquidation price (exchange/rules.py:113-120 and 181-215, sizing/position.py:107-131). */
module Brackets {
  import opened Types

  datatype Bracket = Bracket(leverage: int, floor: real, cap: real, mmr: real, cum: real)

  /** The checks of `parse_brackets`. */
  predicate Parsed(t: seq<Bracket>) {
    && t != []
    && (forall i :: 0 <= i < |t| ==> t[i].cum >= 0.0)
    && (forall i :: 0 <= i < |t| - 1 ==> Adjoins(t[i], t[i + 1]))
  }

  predicate Adjoins(a: Bracket, b: Bracket) {
    && a.cap == b.floor && a.mmr <= b.mmr && b.leverage <= a.leverage
    && b.cum == a.cum + b.floor * (b.mmr - a.mmr)
  }

  /** What the checks leave to the exchange: no row ends before it begins. */
  predicate Proper(t: seq<Bracket>) {
    Parsed(t) && forall i :: 0 <= i < |t| ==> t[i].floor <= t[i].cap
  }

  predicate Contains(b: Bracket, n: real) {
    b.floor <= n < b.cap
  }

  // ---------------------------------------------------------------- the lookup

  /** First row whose range holds `n`; `None` is the exception. */
  method BracketForNotional(t: seq<Bracket>, n: real) returns (r: Option<nat>)
    ensures r.Some? ==> n >= 0.0 && r.value < |t| && Contains(t[r.value], n) && forall j :: 0 <= j < r.value ==> !Contains(t[j], n)
    ensures r.None? ==> n < 0.0 || forall j :: 0 <= j < |t| ==> !Contains(t[j], n)
  {
    if n < 0.0 { return None; }
    for i := 0 to |t|
      invariant forall j :: 0 <= j < i ==> !Contains(t[j], n)
    {
      if Contains(t[i], n) { return Some(i); }
    }
    return None;
  }

  lemma {:induction false} RowsAscend(t: seq<Bracket>, i: nat, j: nat)
    requires Proper(t) && i < j < |t|
    ensures t[i].cap <= t[j].floor && t[i].mmr <= t[j].mmr
    decreases j
  {
    assert Adjoins(t[j - 1], t[j]);
    if i < j - 1 { RowsAscend(t, i, j - 1); }
  }

  /** The rows tile the table's range: one row, and only one, holds a notional inside it. */
  lemma {:induction false} OneRowHolds(t: seq<Bracket>, n: real)
    requires Proper(t)
    ensures t[0].floor <= n < t[|t| - 1].cap <==> exists i :: 0 <= i < |t| && Contains(t[i], n)
    ensures forall i, j :: 0 <= i < |t| && 0 <= j < |t| && Contains(t[i], n) && Contains(t[j], n) ==> i == j
    decreases |t|
  {
    var m := |t| - 1;
    forall i: nat, j: nat | i < j < |t| ensures !(Contains(t[i], n) && Contains(t[j], n)) {
      RowsAscend(t, i, j);
    }
    forall i | 0 <= i < |t| && Contains(t[i], n) ensures t[0].floor <= n < t[m].cap {
      if i > 0 { RowsAscend(t, 0, i); }
      if i < m { RowsAscend(t, i, m); }
    }
    if t[0].floor <= n < t[m].cap {
      if n >= t[m].floor {
        assert Contains(t[m], n);
      } else {
        assert Adjoins(t[m - 1], t[m]);
        ProperPrefix(t, m);
        OneRowHolds(t[..m], n);
        var i :| 0 <= i < m && Contains(t[..m][i], n);
        assert Contains(t[i], n);
      }
    }
  }

  lemma ProperPrefix(t: seq<Bracket>, m: nat)
    requires Proper(t) && 0 < m <= |t|
    ensures Proper(t[..m])
  {
    forall i | 0 <= i < m - 1 ensures Adjoins(t[..m][i], t[..m][i + 1]) {
      assert Adjoins(t[i], t[i + 1]);
    }
  }

  /** A larger notional never allows more leverage. */
  lemma {:induction false} LeverageFalls(t: seq<Bracket>, i: nat, j: nat, n: real, m: real)
    requires Proper(t) && i < |t| && j < |t| && Contains(t[i], n) && Contains(t[j], m) && n <= m
    ensures t[j].leverage <= t[i].leverage
  {
    if j < i {
      RowsAscend(t, j, i);
    } else if i < j {
      LeverageDescends(t, i, j);
    }
  }

  lemma {:induction false} LeverageDescends(t: seq<Bracket>, i: nat, j: nat)
    requires Parsed(t) && i < j < |t|
    ensures t[j].leverage <= t[i].leverage
    decreases j
  {
    assert Adjoins(t[j - 1], t[j]);
    if i < j - 1 { LeverageDescends(t, i, j - 1); }
  }

  // ---------------------------------------------------------------- the margin

  /** Maintenance margin by the formula of one row. */
  function Margin(b: Bracket, n: real): real {
    n * b.mmr - b.cum
  }

  lemma MarginGap(a: Bracket, b: Bracket, n: real)
    requires Adjoins(a, b)
    ensures Margin(b, n) - Margin(a, n) == (n - b.floor) * (b.mmr - a.mmr)
  {
    var d := b.mmr - a.mmr;
    assert n * b.mmr - n * a.mmr == n * d;
    assert n * d - b.floor * d == (n - b.floor) * d;
  }

  /** Two neighbouring rows agree at their boundary, and the upper one is larger exactly above it. */
  lemma MarginStep(a: Bracket, b: Bracket, n: real)
    requires Adjoins(a, b)
    ensures Margin(b, b.floor) == Margin(a, b.floor)
    ensures n >= b.floor ==> Margin(b, n) >= Margin(a, n)
    ensures n <= b.floor ==> Margin(b, n) <= Margin(a, n)
  {
    MarginGap(a, b, n);
    MarginGap(a, b, b.floor);
    hide Margin;
    GapSign(n - b.floor, b.mmr - a.mmr, Margin(b, n) - Margin(a, n));
    GapSign(0.0, b.mmr - a.mmr, Margin(b, b.floor) - Margin(a, b.floor));
  }

  lemma GapSign(x: real, y: real, gap: real)
    requires y >= 0.0 && gap == x * y
    ensures (x >= 0.0 ==> gap >= 0.0) && (x <= 0.0 ==> gap <= 0.0)
  {}

  lemma {:induction false} MarginBelow(t: seq<Bracket>, i: nat, j: nat, n: real)
    requires Proper(t) && i <= j < |t| && n >= t[j].floor
    ensures Margin(t[i], n) <= Margin(t[j], n)
    decreases j
  {
    if i < j {
      RowsAscend(t, j - 1, j);
      assert Adjoins(t[j - 1], t[j]);
      MarginStep(t[j - 1], t[j], n);
      MarginBelow(t, i, j - 1, n);
    }
  }

  lemma {:induction false} MarginAbove(t: seq<Bracket>, i: nat, j: nat, n: real)
    requires Proper(t) && i <= j < |t| && n <= t[i].cap
    ensures Margin(t[j], n) <= Margin(t[i], n)
    decreases j
  {
    if i < j {
      assert Adjoins(t[j - 1], t[j]);
      if i < j - 1 { RowsAscend(t, i, j - 1); }
      MarginStep(t[j - 1], t[j], n);
      MarginAbove(t, i, j - 1, n);
    }
  }

  /** The margin of the row that holds a notional is the largest any row's formula gives: it is continuous and
      convex, so that it does not matter on which side of a boundary a notional falls. */
  lemma MarginIsMaximum(t: seq<Bracket>, i: nat, j: nat, n: real)
    requires Proper(t) && i < |t| && j < |t| && t[i].floor <= n <= t[i].cap
    ensures Margin(t[j], n) <= Margin(t[i], n)
  {
    if j <= i { MarginBelow(t, j, i, n); } else { MarginAbove(t, i, j, n); }
  }

  /** A row that ends before it begins passes the checks; then two rows hold 99, and the one the lookup finds asks for less. */
  lemma ReversedRow()
    ensures
      var t := [Bracket(3, 0.0, 100.0, 0.0, 0.0), Bracket(2, 100.0, 50.0, 0.1, 10.0), Bracket(1, 50.0, 1000.0, 0.2, 15.0)];
      && Parsed(t) && !Proper(t)
      && Contains(t[0], 99.0) && Contains(t[2], 99.0) && Margin(t[0], 99.0) < Margin(t[2], 99.0)
  {
    var t := [Bracket(3, 0.0, 100.0, 0.0, 0.0), Bracket(2, 100.0, 50.0, 0.1, 10.0), Bracket(1, 50.0, 1000.0, 0.2, 15.0)];
    assert t[1].floor > t[1].cap;
  }

  /** Below the upper bound of row `j` a later row asks for less, unless it has the same rate. */
  lemma {:induction false} LaterRowAsksLess(t: seq<Bracket>, j: nat, i: nat, x: real)
    requires Proper(t) && j < i < |t| && x < t[j].cap
    ensures Margin(t[i], x) <= Margin(t[j], x)
    ensures Margin(t[i], x) == Margin(t[j], x) <==> t[i].mmr == t[j].mmr
    decreases i
  {
    assert Adjoins(t[i - 1], t[i]);
    MarginGap(t[i - 1], t[i], x);
    if j < i - 1 {
      LaterRowAsksLess(t, j, i - 1, x);
      RowsAscend(t, j, i - 1);
    }
    hide Margin;
    GapIsStrict(x - t[i].floor, t[i].mmr - t[i - 1].mmr, Margin(t[i], x) - Margin(t[i - 1], x));
  }

  lemma GapIsStrict(x: real, y: real, gap: real)
    requires x < 0.0 <= y && gap == x * y
    ensures gap <= 0.0 && (gap == 0.0 <==> y == 0.0)
  {}

  /** Row `i` asks for the largest margin at `x`. */
  predicate LargestAt(t: seq<Bracket>, i: nat, x: real)
    requires i < |t|
  {
    forall j :: 0 <= j < |t| ==> Margin(t[j], x) <= Margin(t[i], x)
  }

  /** Every row below `i` with a lower rate ends at or below `x`. */
  predicate ReachesAbove(t: seq<Bracket>, i: nat, x: real)
    requires i < |t|
  {
    forall j :: 0 <= j < i && t[j].mmr < t[i].mmr ==> t[j].cap <= x
  }

  /** Up to its upper bound a row's margin is the largest if and only if the notional has reached the upper bound of
      every earlier row with a lower rate. */
  lemma {:induction false} LargestIff(t: seq<Bracket>, i: nat, x: real)
    requires Proper(t) && i < |t| && x <= t[i].cap
    ensures LargestAt(t, i, x) <==> ReachesAbove(t, i, x)
    decreases i
  {
    forall j: nat | j < i ensures t[j].mmr <= t[i].mmr && (x < t[j].cap && Margin(t[j], x) <= Margin(t[i], x) ==> t[j].mmr == t[i].mmr) {
      RowsAscend(t, j, i);
      if x < t[j].cap { LaterRowAsksLess(t, j, i, x); }
    }
    if ReachesAbove(t, i, x) {
      if i == 0 || x >= t[i].floor {
        forall j | 0 <= j < |t| ensures Margin(t[j], x) <= Margin(t[i], x) {
          if j < i { MarginBelow(t, j, i, x); } else { MarginAbove(t, i, j, x); }
        }
      } else {
        assert Adjoins(t[i - 1], t[i]);
        LargestIff(t, i - 1, x);
      }
    }
  }

  /** The margin rate never falls as the notional grows. */
  lemma MarginRateGrows(t: seq<Bracket>, i: nat, j: nat, n: PosReal, m: PosReal)
    requires Proper(t) && i < |t| && j < |t| && n <= m && Contains(t[i], n) && Contains(t[j], m)
    ensures Margin(t[i], n) / n <= Margin(t[j], m) / m
  {
    MarginIsMaximum(t, j, i, m);
    RateOfRow(t[i], n);
    RateOfRow(t[i], m);
    QuotientFalls(t[i].cum, n, m);
    QuotientGrows(Margin(t[i], m), Margin(t[j], m), m);
  }

  lemma RateOfRow(b: Bracket, n: PosReal)
    ensures Margin(b, n) / n == b.mmr - b.cum / n
  {}

  lemma QuotientFalls(c: real, n: PosReal, m: PosReal)
    requires c >= 0.0 && n <= m
    ensures c / m <= c / n
  {
    var q := c / m;
    assert q * m == c && q >= 0.0;
    assert q * n <= q * m;
    QuotientGrows(q * n, c, n);
    assert (q * n) / n == q;
  }

  lemma QuotientGrows(a: real, b: real, n: PosReal)
    requires a <= b
    ensures a / n <= b / n
  {}

  // ---------------------------------------------------------------- the liquidation notional

  /** `1 / leverage - taker`: the part of the entry notional left in the isolated wallet. */
  function Buffer(leverage: Leverage, taker: real): real {
    1.0 / leverage as real - taker
  }

  /** Wallet plus unrealised loss when the position is worth `x`, less the margin of row `b`: zero at liquidation. */
  function Excess(d: Direction, n: real, k: real, b: Bracket, x: real): real {
    n * k + Sign(d) * (x - n) - Margin(b, x)
  }

  function Slope(d: Direction, b: Bracket): real {
    1.0 - Sign(d) * b.mmr
  }

  /** No rate reaches one for a long, or minus one for a short: the estimate never divides by zero or changes sides. */
  predicate Rates(t: seq<Bracket>, d: Direction) {
    Proper(t) && forall i :: 0 <= i < |t| ==> Slope(d, t[i]) > 0.0
  }

  function Dist(d: Direction, n: PosReal, k: real, b: Bracket): real
    requires Slope(d, b) != 0.0
  {
    (k - (b.mmr - b.cum / n)) / Slope(d, b)
  }

  /** Notional at the liquidation price row `b` gives. */
  function LiqNotional(d: Direction, n: PosReal, k: real, b: Bracket): real
    requires Slope(d, b) != 0.0
  {
    n * (1.0 - Sign(d) * Dist(d, n, k, b))
  }

  /** That notional is where row `b` says the wallet is used up. */
  lemma LiqNotionalSolves(d: Direction, n: PosReal, k: real, b: Bracket)
    requires Slope(d, b) != 0.0
    ensures Excess(d, n, k, b, LiqNotional(d, n, k, b)) == 0.0
  {
    var g, s := Dist(d, n, k, b), Sign(d);
    var x := LiqNotional(d, n, k, b);
    assert g * Slope(d, b) == k - (b.mmr - b.cum / n);
    CumTimes(b.cum, n);
    LinearRoot(n, k, g, s, b.mmr, b.cum, b.cum / n);
  }

  lemma CumTimes(c: real, n: PosReal)
    ensures n * (c / n) == c
  {}

  lemma LinearRoot(n: real, k: real, g: real, s: real, m: real, c: real, q: real)
    requires g * (1.0 - s * m) == k - (m - q) && n * q == c && (s == 1.0 || s == -1.0)
    ensures var x := n * (1.0 - s * g); n * k + s * (x - n) - (x * m - c) == 0.0
  {
    var x := n * (1.0 - s * g);
    assert x == n - n * (s * g);
    assert s * (x - n) == -(n * g);
    assert x * m == n * m - n * (g * (s * m));
    assert n * (g * (1.0 - s * m)) == n * (k - (m - q));
    assert n * (g * (1.0 - s * m)) == n * g - n * (g * (s * m));
    assert n * (k - (m - q)) == n * k - n * m + n * q;
  }

  /** The excess falls for a short and rises for a long as the notional grows. */
  lemma ExcessSlope(d: Direction, n: real, k: real, b: Bracket, x: real, y: real)
    requires Slope(d, b) > 0.0
    ensures Sign(d) * (Excess(d, n, k, b, y) - Excess(d, n, k, b, x)) == (y - x) * Slope(d, b)
  {
    assert y * b.mmr - x * b.mmr == (y - x) * b.mmr;
    if d.Long? {
      assert (y - x) * (1.0 - b.mmr) == (y - x) - (y - x) * b.mmr;
    } else {
      assert (y - x) * (1.0 + b.mmr) == (y - x) + (y - x) * b.mmr;
    }
  }

  lemma SignOfProduct(x: real, y: real)
    requires y > 0.0
    ensures (x * y >= 0.0 <==> x >= 0.0) && (x * y <= 0.0 <==> x <= 0.0)
  {}

  /** Which side of the root a notional lies on. */
  lemma RootSide(d: Direction, n: PosReal, k: real, b: Bracket, x: real)
    requires Slope(d, b) > 0.0
    ensures d.Long? ==> (Excess(d, n, k, b, x) <= 0.0 <==> x <= LiqNotional(d, n, k, b))
    ensures d.Short? ==> (Excess(d, n, k, b, x) >= 0.0 <==> x <= LiqNotional(d, n, k, b))
    ensures d.Short? ==> (Excess(d, n, k, b, x) <= 0.0 <==> x >= LiqNotional(d, n, k, b))
  {
    var r := LiqNotional(d, n, k, b);
    LiqNotionalSolves(d, n, k, b);
    ExcessSlope(d, n, k, b, r, x);
    SignOfProduct(x - r, Slope(d, b));
  }

  /** The next iterate: for a long it never falls, for a short it never rises. */
  lemma NextIterate(t: seq<Bracket>, d: Direction, n: PosReal, k: real, i: nat, j: nat)
    requires Rates(t, d) && i < |t| && j < |t| && Contains(t[j], LiqNotional(d, n, k, t[i]))
    ensures d.Long? ==> LiqNotional(d, n, k, t[j]) >= LiqNotional(d, n, k, t[i])
    ensures d.Short? ==> LiqNotional(d, n, k, t[j]) <= LiqNotional(d, n, k, t[i])
  {
    var x := LiqNotional(d, n, k, t[i]);
    LiqNotionalSolves(d, n, k, t[i]);
    MarginIsMaximum(t, j, i, x);
    RootSide(d, n, k, t[j], x);
  }

  /** Once a short has left the entry row upwards, no later row leads back below its upper bound. */
  lemma ShortStaysAbove(t: seq<Bracket>, n: PosReal, k: real, i: nat, j: nat)
    requires Rates(t, Short) && i + 1 < |t| && j < |t| && LiqNotional(Short, n, k, t[i]) >= t[i].cap
    ensures LiqNotional(Short, n, k, t[j]) >= t[i].cap
  {
    var z := t[i].cap;
    RootSide(Short, n, k, t[i], z);
    MarginIsMaximum(t, i, j, z);
    RootSide(Short, n, k, t[j], z);
  }

  lemma RowOrder(t: seq<Bracket>, i: nat, j: nat, x: real, y: real)
    requires Proper(t) && i < |t| && j < |t| && Contains(t[i], x) && Contains(t[j], y)
    ensures x <= y ==> i <= j
  {
    if j < i { RowsAscend(t, j, i); }
  }

  // ---------------------------------------------------------------- the tier loop

  datatype Estimate =
    | Found(price: real, dist: real, row: nat, basis: real)
    | OutOfTable
    | Oscillates

  function Basis(d: Direction, n: PosReal, k: real, b: Bracket): real
    requires Slope(d, b) != 0.0
  {
    Max(n, LiqNotional(d, n, k, b))
  }

  /** The row found holds the larger of the entry notional and the notional at its own liquidation price, and its
      margin is the largest there. At the liquidation notional, above or below the entry, that row's margin uses up
      the wallet exactly; it is the largest there too if and only if every lower row with a lower rate ends at or
      below that notional. */
  ghost predicate Solved(t: seq<Bracket>, d: Direction, entry: real, n: PosReal, k: real, r: Estimate)
    requires Rates(t, d) && r.Found?
  {
    && r.row < |t| && Contains(t[r.row], r.basis)
    && r.dist == Dist(d, n, k, t[r.row]) && r.price == entry * (1.0 - Sign(d) * r.dist)
    && r.basis == Basis(d, n, k, t[r.row])
    && LargestAt(t, r.row, r.basis)
    && var x := LiqNotional(d, n, k, t[r.row]);
      && r.price * n == entry * x
      && Excess(d, n, k, t[r.row], x) == 0.0
      && (LargestAt(t, r.row, x) <==> ReachesAbove(t, r.row, x))
  }

  lemma FoundIsSolved(t: seq<Bracket>, d: Direction, entry: real, n: PosReal, k: real, r: Estimate)
    requires Rates(t, d) && r.Found? && r.row < |t| && r.basis == Basis(d, n, k, t[r.row]) && Contains(t[r.row], r.basis)
    requires r.dist == Dist(d, n, k, t[r.row]) && r.price == entry * (1.0 - Sign(d) * r.dist)
    ensures Solved(t, d, entry, n, k, r)
  {
    hide Margin, Dist, Excess, LargestAt, ReachesAbove, Adjoins;
    LiqNotionalSolves(d, n, k, t[r.row]);
    PriceOfNotional(d, entry, n, k, t[r.row]);
    LargestIff(t, r.row, LiqNotional(d, n, k, t[r.row]));
    HolderIsLargest(t, r.row, r.basis);
  }

  const TWO_TIERS := [Bracket(10, 0.0, 100.0, 0.1, 0.0), Bracket(5, 100.0, 1000.0, 0.2, 10.0)]

  /** A long whose liquidation notional falls out of its row: on this table the row found for a long of 150 at leverage
      two is the second, whose margin uses up the wallet at 81.25, where the first row asks for more. */
  lemma RowLeftBehind(entry: real, r: Estimate)
    requires Rates(TWO_TIERS, Long) && r.Found? && Solved(TWO_TIERS, Long, entry, 150.0, Buffer(2, 0.0), r)
    ensures r.row == 1 && r.price * 150.0 == entry * 81.25
    ensures Margin(TWO_TIERS[1], 81.25) == 6.25 && Margin(TWO_TIERS[0], 81.25) == 8.125
    ensures !LargestAt(TWO_TIERS, r.row, 81.25)
  {
    hide Dist, LiqNotional, Excess, Parsed, Adjoins, Rates, Buffer;
    TwoTierDists();
    TwoTierMargins();
  }

  lemma TwoTierMargins()
    ensures Margin(TWO_TIERS[1], 81.25) == 6.25 && Margin(TWO_TIERS[0], 81.25) == 8.125
    ensures forall n: real :: n >= 150.0 ==> !Contains(TWO_TIERS[0], n)
  {}

  lemma TwoTierDists()
    ensures Rates(TWO_TIERS, Long)
    ensures LiqNotional(Long, 150.0, Buffer(2, 0.0), TWO_TIERS[1]) == 81.25
    ensures LiqNotional(Long, 150.0, Buffer(2, 0.0), TWO_TIERS[0]) <= 150.0
  {
    assert Buffer(2, 0.0) == 0.5;
    assert 10.0 / 150.0 == 1.0 / 15.0;
    assert Slope(Long, TWO_TIERS[1]) == 0.8;
    assert Slope(Long, TWO_TIERS[0]) == 0.9;
    assert Dist(Long, 150.0, 0.5, TWO_TIERS[1]) == 11.0 / 24.0;
    assert Dist(Long, 150.0, 0.5, TWO_TIERS[0]) == 4.0 / 9.0;
  }

  /** The estimate in question exists. */
  lemma RowLeftBehindFound(entry: real)
    ensures Rates(TWO_TIERS, Long)
    ensures
      var b := TWO_TIERS[1];
      var dist := Dist(Long, 150.0, Buffer(2, 0.0), b);
      Solved(TWO_TIERS, Long, entry, 150.0, Buffer(2, 0.0), Found(entry * (1.0 - dist), dist, 1, 150.0))
  {
    hide LiqNotional, Excess, Parsed, Adjoins, Rates, Buffer, Dist, LargestAt, ReachesAbove;
    TwoTierDists();
    var dist := Dist(Long, 150.0, Buffer(2, 0.0), TWO_TIERS[1]);
    FoundIsSolved(TWO_TIERS, Long, entry, 150.0, Buffer(2, 0.0), Found(entry * (1.0 - dist), dist, 1, 150.0));
  }

  lemma PriceOfNotional(d: Direction, entry: real, n: PosReal, k: real, b: Bracket)
    requires Slope(d, b) != 0.0
    ensures entry * (1.0 - Sign(d) * Dist(d, n, k, b)) * n == entry * LiqNotional(d, n, k, b)
  {
    hide Dist;
    var y := 1.0 - Sign(d) * Dist(d, n, k, b);
    assert (entry * y) * n == entry * (n * y);
  }

  lemma HolderIsLargest(t: seq<Bracket>, i: nat, x: real)
    requires Proper(t) && i < |t| && t[i].floor <= x <= t[i].cap
    ensures LargestAt(t, i, x)
  {
    forall j | 0 <= j < |t| ensures Margin(t[j], x) <= Margin(t[i], x) {
      MarginIsMaximum(t, i, j, x);
    }
  }

  /** Rows tried so far: the entry row, then strictly upwards for a long, strictly downwards but above the entry
      row for a short. */
  ghost predicate Trail(t: seq<Bracket>, d: Direction, n: PosReal, k: real, first: nat, seen: seq<nat>, b: nat)
    requires Rates(t, d)
  {
    && first < |t| && Contains(t[first], n) && b < |t|
    && (if seen == [] then b == first
        else
          && seen[0] == first && first < b
          && (exists p: nat :: p < |t| && p in seen && LiqNotional(d, n, k, t[p]) > n && Contains(t[b], LiqNotional(d, n, k, t[p])))
          && (d.Long? ==> forall i :: 0 <= i < |seen| ==> seen[i] < b)
          && (d.Short? ==> first + 1 < |t| && LiqNotional(d, n, k, t[first]) >= t[first].cap
                           && forall i :: 1 <= i < |seen| ==> seen[i] > b))
  }

  lemma TrailStarts(t: seq<Bracket>, d: Direction, n: PosReal, k: real, b: nat)
    requires Rates(t, d) && b < |t| && Contains(t[b], n)
    ensures Trail(t, d, n, k, b, [], b)
  {}

  lemma TrailContinues(t: seq<Bracket>, d: Direction, n: PosReal, k: real, first: nat, seen: seq<nat>, b: nat, nb: nat)
    requires Rates(t, d) && Trail(t, d, n, k, first, seen, b) && nb < |t| && nb != b
    requires Contains(t[nb], Basis(d, n, k, t[b]))
    ensures nb !in seen && Trail(t, d, n, k, first, seen + [b], nb)
    ensures if d.Long? then nb > b else seen == [] || nb < b
  {
    var x, row := LiqNotional(d, n, k, t[b]), t[first];
    OneRowHolds(t, n);
    OneRowHolds(t, Basis(d, n, k, t[b]));
    RowOrder(t, first, nb, n, Basis(d, n, k, t[b]));
    var all := seen + [b];
    if seen == [] {
      assert x > n;
      assert b in all && all[0] == first;
      assert d.Short? && x < row.cap ==> Contains(row, x);
    } else {
      var p: nat :| p < |t| && p in seen && LiqNotional(d, n, k, t[p]) > n && Contains(t[b], LiqNotional(d, n, k, t[p]));
      NextIterate(t, d, n, k, p, b);
      if d.Long? {
        RowOrder(t, b, nb, LiqNotional(d, n, k, t[p]), x);
      } else {
        ShortStaysAbove(t, n, k, first, b);
        RowsAscend(t, first, b);
        RowOrder(t, nb, b, x, LiqNotional(d, n, k, t[p]));
        assert Basis(d, n, k, t[b]) >= x >= t[first].cap;
      }
      assert b in all;
    }
  }

  /** A rate above one passes the checks; then a long of 90 at leverage five is sent from the first row to the second
      and back, and the loop ends in its oscillation error. */
  lemma HighRateOscillates()
    ensures
      var t := [Bracket(10, 0.0, 100.0, 0.5, 0.0), Bracket(5, 100.0, 1000.0, 2.0, 150.0)];
      && Proper(t) && !Rates(t, Long) && Contains(t[0], 90.0)
      && Contains(t[1], Basis(Long, 90.0, Buffer(5, 0.0), t[0]))
      && Contains(t[0], Basis(Long, 90.0, Buffer(5, 0.0), t[1]))
  {
    var t := [Bracket(10, 0.0, 100.0, 0.5, 0.0), Bracket(5, 100.0, 1000.0, 2.0, 150.0)];
    assert Buffer(5, 0.0) == 0.2;
    assert 0.0 / 90.0 == 0.0;
    assert 150.0 / 90.0 == 5.0 / 3.0;
    assert Slope(Long, t[0]) == 0.5 && Slope(Long, t[1]) == -1.0;
    assert Dist(Long, 90.0, 0.2, t[0]) == -0.6;
    assert Dist(Long, 90.0, 0.2, t[1]) == 2.0 / 15.0;
    assert LiqNotional(Long, 90.0, 0.2, t[0]) == 144.0;
    assert LiqNotional(Long, 90.0, 0.2, t[1]) == 78.0;
  }

  /** `liquidation_estimate`: start from the entry row and follow the liquidation notional from row to row. While
      no row ends before it begins and no rate reaches one, the oscillation exception is unreachable, and at the notional
      of the price returned the margin of its row uses up the wallet exactly. */
  method LiquidationEstimate(t: seq<Bracket>, d: Direction, entry: real, n: PosReal, leverage: Leverage, taker: real)
    returns (r: Estimate)
    requires Rates(t, d)
    ensures !r.Oscillates?
    ensures r.Found? ==> Solved(t, d, entry, n, Buffer(leverage, taker), r)
  {
    hide Trail, Solved, Contains, Parsed, Adjoins, LiqNotional, Dist, Excess, Margin;
    var k := Buffer(leverage, taker);
    var start := BracketForNotional(t, n);
    if start.None? { return OutOfTable; }
    var b: nat := start.value;
    var seen: seq<nat> := [];
    ghost var first := b;
    TrailStarts(t, d, n, k, b);
    while true
      invariant b < |t| && Trail(t, d, n, k, first, seen, b)
      decreases if d.Long? then |t| - b else if seen == [] then |t| else b
    {
      var dist := Dist(d, n, k, t[b]);
      var price := entry * (1.0 - Sign(d) * dist);
      var basis := Basis(d, n, k, t[b]);
      var next := BracketForNotional(t, basis);
      if next.None? { return OutOfTable; }
      var nb := next.value;
      if nb == b {
        r := Found(price, dist, b, basis);
        FoundIsSolved(t, d, entry, n, k, r);
        return;
      }
      TrailContinues(t, d, n, k, first, seen, b, nb);
      if nb in seen { return Oscillates; }
      seen := seen + [b];
      b := nb;
    }
  }
}
