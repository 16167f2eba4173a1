/** Entry minutes by index without building the list (backtest/placebo.py:59-111): the grid, cut to the window,
    less the few positions whose last minute is missing. */
module EligibleIndex {
  import opened Types
  import opened Bisect
  import opened Sorting

  function Shift(h: nat): int
    requires h >= 1
  {
    (h - 1) * MINUTE_MS
  }

  /** `t` and the minute `h - 1` later are both in the window and both observed. */
  predicate Eligible(g: seq<int>, h: nat, start: int, end: int, t: int)
    requires h >= 1
  {
    start <= t && t + Shift(h) <= end && t + Shift(h) in g
  }

  /** The eligible ones of `g`, in its order; `all` is every observed minute. */
  function EligibleMinutes(g: seq<int>, all: seq<int>, h: nat, start: int, end: int): seq<int>
    requires h >= 1
  {
    if g == [] then []
    else
      var n := |g| - 1;
      EligibleMinutes(g[..n], all, h, start, end) + (if Eligible(all, h, start, end, g[n]) then [g[n]] else [])
  }

  /** `eligible_minutes`: the simple list. */
  function Simple(grid: seq<int>, h: nat, start: int, end: int): seq<int>
    requires h >= 1
  {
    EligibleMinutes(Sort(grid, AtMost), grid, h, start, end)
  }

  /** One of each run of equal neighbours. */
  function Uniq(s: seq<int>): seq<int> {
    if |s| <= 1 then s
    else
      var n := |s| - 1;
      Uniq(s[..n]) + if s[n] == s[n - 1] then [] else [s[n]]
  }

  /** `sorted(set(grid))`. */
  function SortedSet(grid: seq<int>): seq<int> {
    Uniq(Sort(grid, AtMost))
  }

  /** `range(lo, end + 1, MINUTE_MS)` without the observed minutes. */
  function Gaps(g: seq<int>, lo: int, end: int): seq<int>
    decreases end - lo + 1
  {
    if lo > end then [] else (if lo in g then [] else [lo]) + Gaps(g, lo + MINUTE_MS, end)
  }

  lemma {:induction false} GapsMean(g: seq<int>, lo: int, end: int, t: int)
    requires (t - lo) % MINUTE_MS == 0
    ensures t in Gaps(g, lo, end) <==> lo <= t <= end && t !in g
    decreases end - lo + 1
  {
    if lo <= end {
      assert (t - (lo + MINUTE_MS)) % MINUTE_MS == 0;
      GapsMean(g, lo + MINUTE_MS, end, t);
      if t > lo { assert t >= lo + MINUTE_MS; }
    }
  }

  predicate Grid(g: seq<int>) {
    Strict(g) && forall i :: 0 <= i < |g| ==> g[i] % MINUTE_MS == 0
  }

  // ---------------------------------------------------------------- the view

  /** Positions of the grid inside the window, less the bad ones. */
  class EligView {
    const g: seq<int>
    const first: nat
    const k: nat
    const bad: seq<int>

    predicate Valid() {
      first <= |g| && k <= |g| && BadInside(bad, first, k)
    }

    constructor (g: seq<int>, first: nat, k: nat, bad: seq<int>)
      ensures this.g == g && this.first == first && this.k == k && this.bad == bad
    {
      this.g, this.first, this.k, this.bad := g, first, k, bad;
    }

    function Length(): nat {
      if k - first - |bad| > 0 then k - first - |bad| else 0
    }

    /** The `j`-th position that is not bad: it is good, and exactly `j` good ones precede it. */
    method Position(j: nat) returns (i: nat)
      requires Valid() && j < Length()
      ensures first <= i < k && i !in bad && i - first - BisectLeft(bad, i) == j
    {
      i := first + j;
      var q := 0;
      while q < |bad|
        invariant q <= |bad| && i == first + j + q
        invariant forall p :: 0 <= p < q ==> bad[p] < i
      {
        if bad[q] <= i {
          i := i + 1;
        } else {
          break;
        }
        q := q + 1;
      }
      assert forall p :: q <= p < |bad| ==> bad[p] > i;
      LeftUnique(bad, i, q);
    }

    method Item(j: nat) returns (t: int)
      requires Valid() && j < Length()
      ensures j < |Listed(g, bad, first, k)| && t == Listed(g, bad, first, k)[j]
    {
      var i := Position(j);
      PositionIsListed(g, bad, first, k, i);
      t := g[i];
    }

    method ToList() returns (out: seq<int>)
      requires Valid()
      ensures out == Listed(g, bad, first, k)
    {
      out := [];
      ListedLength(g, bad, first, k);
      for j := 0 to Length()
        invariant j <= |Listed(g, bad, first, k)| && out == Listed(g, bad, first, k)[..j]
      {
        var t := Item(j);
        out := out + [t];
      }
    }
  }

  predicate Good(bad: seq<int>, first: nat, k: nat, i: int) {
    first <= i < k && i !in bad
  }

  /** Grid values at good positions below `n`. */
  function ListedUpTo(g: seq<int>, bad: seq<int>, first: nat, k: nat, n: nat): seq<int>
    requires n <= |g|
  {
    if n == 0 then [] else ListedUpTo(g, bad, first, k, n - 1) + (if Good(bad, first, k, n - 1) then [g[n - 1]] else [])
  }

  function Listed(g: seq<int>, bad: seq<int>, first: nat, k: nat): seq<int> {
    ListedUpTo(g, bad, first, k, |g|)
  }

  lemma LeftNext(bad: seq<int>, n: int)
    requires Strict(bad)
    ensures BisectLeft(bad, n + 1) == BisectLeft(bad, n) + (if n in bad then 1 else 0)
  {
    var q := BisectLeft(bad, n);
    if q < |bad| && bad[q] == n {
      LeftUnique(bad, n + 1, q + 1);
    } else {
      assert Ascending(bad);
      LeftRest(bad, n);
      LeftUnique(bad, n + 1, q);
    }
  }

  /** How many good positions lie below `n`. */
  function Rank(bad: seq<int>, first: nat, k: nat, n: nat): int {
    if n <= first then 0
    else if n <= k then n - first - BisectLeft(bad, n)
    else if first <= k then k - first - |bad| else 0
  }

  predicate BadInside(bad: seq<int>, first: nat, k: nat) {
    Strict(bad) && forall i :: 0 <= i < |bad| ==> first <= bad[i] < k
  }

  lemma RankEdges(bad: seq<int>, first: nat, k: nat)
    requires BadInside(bad, first, k)
    ensures BisectLeft(bad, first) == 0 && BisectLeft(bad, k) == |bad|
  {
    LeftUnique(bad, first, 0);
    LeftUnique(bad, k, |bad|);
  }

  lemma RankStep(bad: seq<int>, first: nat, k: nat, n: nat)
    requires BadInside(bad, first, k)
    ensures Rank(bad, first, k, n + 1) == Rank(bad, first, k, n) + (if Good(bad, first, k, n) then 1 else 0)
  {
    RankEdges(bad, first, k);
    LeftNext(bad, n);
    hide BisectLeft, Strict;
  }

  lemma {:induction false} LengthUpTo(g: seq<int>, bad: seq<int>, first: nat, k: nat, n: nat)
    requires n <= |g| && BadInside(bad, first, k)
    ensures |ListedUpTo(g, bad, first, k, n)| == Rank(bad, first, k, n)
  {
    hide Rank, Good, BadInside;
    if n > 0 {
      LengthUpTo(g, bad, first, k, n - 1);
      RankStep(bad, first, k, n - 1);
    } else {
      assert Rank(bad, first, k, 0) == 0 by { RankZero(bad, first, k); }
    }
  }

  lemma RankZero(bad: seq<int>, first: nat, k: nat)
    ensures Rank(bad, first, k, 0) == 0
  {}

  lemma ListedLength(g: seq<int>, bad: seq<int>, first: nat, k: nat)
    requires k <= |g| && BadInside(bad, first, k)
    ensures |Listed(g, bad, first, k)| == if k - first - |bad| > 0 then k - first - |bad| else 0
  {
    LengthUpTo(g, bad, first, k, |g|);
    RankEdges(bad, first, k);
    BadFits(bad, first, k);
  }

  /** Distinct positions inside [first, k) are at most k - first. */
  lemma {:induction false} BadFits(bad: seq<int>, first: nat, k: nat)
    requires BadInside(bad, first, k)
    ensures |bad| <= if first <= k then k - first else 0
    decreases |bad|
  {
    if bad != [] {
      var n := |bad| - 1;
      BadFits(bad[..n], first, bad[n]);
    }
  }

  lemma {:induction false} Prefixes(g: seq<int>, bad: seq<int>, first: nat, k: nat, n: nat, m: nat)
    requires n <= m <= |g|
    ensures ListedUpTo(g, bad, first, k, n) <= ListedUpTo(g, bad, first, k, m)
  {
    if n < m { Prefixes(g, bad, first, k, n, m - 1); }
  }

  lemma PositionIsListed(g: seq<int>, bad: seq<int>, first: nat, k: nat, i: nat)
    requires k <= |g| && BadInside(bad, first, k) && Good(bad, first, k, i)
    ensures var j := i - first - BisectLeft(bad, i);
      0 <= j < |Listed(g, bad, first, k)| && Listed(g, bad, first, k)[j] == g[i]
  {
    LengthUpTo(g, bad, first, k, i);
    RankEdges(bad, first, k);
    Prefixes(g, bad, first, k, i + 1, |g|);
    assert ListedUpTo(g, bad, first, k, i + 1) == ListedUpTo(g, bad, first, k, i) + [g[i]];
  }

  // ---------------------------------------------------------------- the grid, sorted and without repetition

  predicate Aligned(grid: seq<int>) {
    forall i :: 0 <= i < |grid| ==> grid[i] % MINUTE_MS == 0
  }

  lemma SortAscends(grid: seq<int>)
    ensures Ascending(Sort(grid, AtMost)) && multiset(Sort(grid, AtMost)) == multiset(grid)
    ensures forall t :: t in Sort(grid, AtMost) <==> t in grid
  {
    AtMostIsTotal();
    SortSorts(grid, AtMost);
    var s := Sort(grid, AtMost);
    assert forall i, j :: 0 <= i < j < |s| ==> AtMost(s[i], s[j]);
    forall t ensures t in s <==> t in grid { assert t in multiset(s) <==> t in multiset(grid); }
  }

  lemma Snoc(s: seq<int>)
    requires s != []
    ensures var n := |s| - 1;
      && s == s[..n] + [s[n]] && (forall t :: t in s <==> t in s[..n] || t == s[n])
      && (Ascending(s) ==> Ascending(s[..n]) && forall t :: t in s ==> t <= s[n])
  {}

  lemma StrictSnoc(u: seq<int>, x: int)
    ensures Strict(u + [x]) <==> Strict(u) && (u == [] || u[|u| - 1] < x)
  {
    var all := u + [x];
    if Strict(all) {
      assert forall i, j :: 0 <= i < j < |u| ==> all[i] == u[i] && all[j] == u[j];
      if u != [] { assert all[|u| - 1] < all[|u|]; }
    }
  }

  lemma UniqSnoc(p: seq<int>, x: int)
    ensures Uniq(p + [x]) == if p != [] && x == p[|p| - 1] then Uniq(p) else Uniq(p) + [x]
  {
    assert (p + [x])[..|p|] == p;
  }

  lemma FilterSnoc(p: seq<int>, x: int, all: seq<int>, h: nat, start: int, end: int)
    requires h >= 1
    ensures EligibleMinutes(p + [x], all, h, start, end)
         == if Eligible(all, h, start, end, x) then EligibleMinutes(p, all, h, start, end) + [x] else EligibleMinutes(p, all, h, start, end)
  {
    assert (p + [x])[..|p|] == p;
  }

  lemma {:induction false} UniqMembers(s: seq<int>)
    ensures forall t :: t in Uniq(s) <==> t in s
    ensures s != [] ==> Uniq(s) != [] && Uniq(s)[|Uniq(s)| - 1] == s[|s| - 1]
    ensures |Uniq(s)| <= |s|
    decreases |s|
  {
    if |s| > 1 {
      UniqMembers(s[..|s| - 1]);
      Snoc(s);
    }
  }

  lemma {:induction false} UniqIsStrict(s: seq<int>)
    requires Ascending(s)
    ensures Strict(Uniq(s))
    ensures Uniq(s) == s <==> Strict(s)
    decreases |s|
  {
    if |s| > 1 {
      var n := |s| - 1;
      var p, x := s[..n], s[n];
      Snoc(s);
      UniqIsStrict(p);
      UniqMembers(p);
      UniqMembers(s);
      UniqSnoc(p, x);
      StrictSnoc(Uniq(p), x);
      StrictSnoc(p, x);
      assert p[n - 1] <= x;
      SameSnoc(Uniq(p), p, x);
      hide *;
    }
  }

  lemma SameSnoc(u: seq<int>, p: seq<int>, x: int)
    ensures u + [x] == p + [x] <==> u == p
    ensures |u| <= |p| ==> u != p + [x]
  {
    if u + [x] == p + [x] { assert u == (u + [x])[..|u|] && p == (p + [x])[..|p|]; }
  }

  lemma SortedSetIsGrid(grid: seq<int>)
    requires Aligned(grid)
    ensures Grid(SortedSet(grid)) && forall t :: t in SortedSet(grid) <==> t in grid
  {
    SortAscends(grid);
    UniqIsStrict(Sort(grid, AtMost));
    UniqMembers(Sort(grid, AtMost));
    var g := SortedSet(grid);
    forall i | 0 <= i < |g| ensures g[i] % MINUTE_MS == 0 {
      assert g[i] in grid;
    }
  }

  lemma {:induction false} SameObserved(s: seq<int>, a: seq<int>, b: seq<int>, h: nat, start: int, end: int)
    requires h >= 1 && forall t :: t in a <==> t in b
    ensures EligibleMinutes(s, a, h, start, end) == EligibleMinutes(s, b, h, start, end)
  {
    if s != [] { SameObserved(s[..|s| - 1], a, b, h, start, end); }
  }

  lemma {:induction false} FilterCounts(s: seq<int>, all: seq<int>, h: nat, start: int, end: int, t: int)
    requires h >= 1
    ensures multiset(EligibleMinutes(s, all, h, start, end))[t] == if Eligible(all, h, start, end, t) then multiset(s)[t] else 0
  {
    if s != [] {
      var n := |s| - 1;
      FilterCounts(s[..n], all, h, start, end, t);
      hide Eligible;
      assert s == s[..n] + [s[n]];
    }
  }

  lemma FilterMembers(s: seq<int>, all: seq<int>, h: nat, start: int, end: int)
    requires h >= 1
    ensures forall t :: t in EligibleMinutes(s, all, h, start, end) <==> t in s && Eligible(all, h, start, end, t)
  {
    var f := EligibleMinutes(s, all, h, start, end);
    forall t ensures t in f <==> t in s && Eligible(all, h, start, end, t) {
      FilterCounts(s, all, h, start, end, t);
      hide *;
      assert (t in f <==> t in multiset(f)) && (t in s <==> t in multiset(s));
    }
  }

  lemma AscendingSnoc(f: seq<int>, x: int)
    requires Ascending(f) && forall t :: t in f ==> t <= x
    ensures Ascending(f + [x])
  {
    assert forall i :: 0 <= i < |f| ==> f[i] in f;
  }

  lemma {:induction false} FilterAscends(s: seq<int>, all: seq<int>, h: nat, start: int, end: int)
    requires h >= 1 && Ascending(s)
    ensures Ascending(EligibleMinutes(s, all, h, start, end))
  {
    if s != [] {
      var n := |s| - 1;
      var p, x := s[..n], s[n];
      Snoc(s);
      FilterAscends(p, all, h, start, end);
      FilterMembers(p, all, h, start, end);
      FilterSnoc(p, x, all, h, start, end);
      var f := EligibleMinutes(p, all, h, start, end);
      hide *;
      AscendingSnoc(f, x);
    }
  }

  /** Dropping repetitions before or after picking the eligible minutes is the same. */
  lemma {:induction false} FilterUniq(s: seq<int>, all: seq<int>, h: nat, start: int, end: int)
    requires h >= 1 && Ascending(s)
    ensures EligibleMinutes(Uniq(s), all, h, start, end) == Uniq(EligibleMinutes(s, all, h, start, end))
    decreases |s|
  {
    if |s| > 1 {
      var n := |s| - 1;
      var p, x := s[..n], s[n];
      Snoc(s);
      var f := EligibleMinutes(p, all, h, start, end);
      FilterUniq(p, all, h, start, end);
      if Eligible(all, h, start, end, x) { FilterLast(p, f, x, all, h, start, end); }
      UniqSnoc(p, x);
      UniqSnoc(f, x);
      FilterSnoc(p, x, all, h, start, end);
      FilterSnoc(Uniq(p), x, all, h, start, end);
      hide *;
    }
  }

  /** Whether the next eligible minute repeats the last one can be seen before or after picking. */
  lemma FilterLast(p: seq<int>, f: seq<int>, x: int, all: seq<int>, h: nat, start: int, end: int)
    requires h >= 1 && p != [] && Ascending(p) && f == EligibleMinutes(p, all, h, start, end) && x >= p[|p| - 1]
    requires Eligible(all, h, start, end, x)
    ensures x == p[|p| - 1] <==> f != [] && f[|f| - 1] == x
  {
    FilterAscends(p, all, h, start, end);
    FilterMembers(p, all, h, start, end);
    Snoc(p);
    if x == p[|p| - 1] {
      assert x in f;
      Snoc(f);
    } else if f != [] {
      assert f[|f| - 1] in f;
    }
  }

  lemma SimpleOnce(grid: seq<int>, h: nat, start: int, end: int)
    requires h >= 1 && Aligned(grid)
    ensures var g := SortedSet(grid); EligibleMinutes(g, g, h, start, end) == Uniq(Simple(grid, h, start, end))
  {
    SortAscends(grid);
    SortedSetIsGrid(grid);
    FilterUniq(Sort(grid, AtMost), grid, h, start, end);
    SameObserved(SortedSet(grid), SortedSet(grid), grid, h, start, end);
  }

  /** Listing each once is the simple list itself if and only if no eligible minute is given twice in the grid. */
  lemma OnceIsSimpleIff(grid: seq<int>, h: nat, start: int, end: int)
    requires h >= 1
    ensures Uniq(Simple(grid, h, start, end)) == Simple(grid, h, start, end)
       <==> forall t :: Eligible(grid, h, start, end, t) ==> multiset(grid)[t] <= 1
  {
    var f := Simple(grid, h, start, end);
    SortAscends(grid);
    FilterAscends(Sort(grid, AtMost), grid, h, start, end);
    UniqIsStrict(f);
    StrictIffOnce(f);
    forall t ensures multiset(f)[t] == if Eligible(grid, h, start, end, t) then multiset(grid)[t] else 0 {
      FilterCounts(Sort(grid, AtMost), grid, h, start, end, t);
    }
    hide *;
  }

  /** A minute given twice: the simple list has it twice and the index once. */
  lemma RepeatedMinute()
    ensures Simple([0, 0], 1, 0, 0) == [0, 0] && Uniq(Simple([0, 0], 1, 0, 0)) == [0]
    ensures EligibleMinutes(SortedSet([0, 0]), SortedSet([0, 0]), 1, 0, 0) == [0]
  {
    TwiceSorted();
    TwicePicked();
  }

  lemma TwiceSorted()
    ensures Sort([0, 0], AtMost) == [0, 0] && Uniq([0, 0]) == [0]
  {
    assert [0, 0][1..] == [0] && [0][1..] == [];
    assert Sort([0], AtMost) == Insert(0, Sort([], AtMost), AtMost) == [0];
    assert Sort([0, 0], AtMost) == Insert(0, [0], AtMost);
    assert [0, 0][..1] == [0];
  }

  lemma TwicePicked()
    ensures EligibleMinutes([0, 0], [0, 0], 1, 0, 0) == [0, 0]
    ensures EligibleMinutes([0], [0], 1, 0, 0) == [0]
  {
    assert [0, 0][..1] == [0] && [0][..0] == [];
    assert Eligible([0, 0], 1, 0, 0, 0) && Eligible([0], 1, 0, 0, 0);
    assert EligibleMinutes([0], [0, 0], 1, 0, 0) == [] + [0];
  }

  lemma StrictIffOnce(f: seq<int>)
    requires Ascending(f)
    ensures Strict(f) <==> forall t :: multiset(f)[t] <= 1
  {
    if Strict(f) {
      forall t ensures multiset(f)[t] <= 1 { CountOnce(f, t); }
    } else {
      var i, j :| 0 <= i < j < |f| && f[i] >= f[j];
      CountTwice(f, i, j);
    }
  }

  // ---------------------------------------------------------------- the index

  /** The earliest minute that can be missing. */
  function GapStart(g: seq<int>, start: int): int {
    if g != [] && g[0] > start then g[0] else start
  }

  lemma ShiftIsMinutes(a: int, lo: int, h: nat)
    requires h >= 1 && a % MINUTE_MS == 0 && lo % MINUTE_MS == 0
    ensures (a + Shift(h) - lo) % MINUTE_MS == 0
  {
    var x := a / MINUTE_MS - lo / MINUTE_MS + (h - 1);
    assert a + Shift(h) - lo == x * MINUTE_MS;
  }

  /** A position is good exactly when the minute there is eligible. */
  lemma GoodIsEligible(g: seq<int>, h: nat, start: int, end: int, first: nat, k: nat, bad: seq<int>, i: nat)
    requires h >= 1 && Grid(g) && start % MINUTE_MS == 0 && i < |g|
    requires first == BisectLeft(g, start) && k == BisectRight(g, end - Shift(h))
    requires forall p: nat :: p in bad <==> first <= p < k && g[p] + Shift(h) in Gaps(g, GapStart(g, start), end)
    ensures Good(bad, first, k, i) <==> Eligible(g, h, start, end, g[i])
  {
    LeftRest(g, start);
    RightRest(g, end - Shift(h));
    ShiftIsMinutes(g[i], GapStart(g, start), h);
    GapsMean(g, GapStart(g, start), end, g[i] + Shift(h));
  }

  lemma {:induction false} ListedIsEligible(g: seq<int>, h: nat, start: int, end: int, first: nat, k: nat, bad: seq<int>, n: nat)
    requires h >= 1 && Grid(g) && start % MINUTE_MS == 0 && n <= |g|
    requires first == BisectLeft(g, start) && k == BisectRight(g, end - Shift(h))
    requires forall p: nat :: p in bad <==> first <= p < k && g[p] + Shift(h) in Gaps(g, GapStart(g, start), end)
    ensures ListedUpTo(g, bad, first, k, n) == EligibleMinutes(g[..n], g, h, start, end)
  {
    hide Eligible, Gaps, Good, BisectLeft, BisectRight, Grid;
    if n > 0 {
      ListedIsEligible(g, h, start, end, first, k, bad, n - 1);
      GoodIsEligible(g, h, start, end, first, k, bad, n - 1);
      assert g[..n][..n - 1] == g[..n - 1];
    }
  }

  class Index {
    ghost const grid: seq<int>
    const g: seq<int>
    const start: int
    const end: int
    const gaps: seq<int>
    var cache: map<nat, EligView>

    ghost predicate Valid()
      reads this
    {
      && Aligned(grid) && g == SortedSet(grid) && start % MINUTE_MS == 0 && gaps == Gaps(g, GapStart(g, start), end)
      && forall h :: h in cache ==> h >= 1 && Shows(cache[h], h)
    }

    /** The view lists exactly the eligible minutes, each once. */
    ghost predicate Shows(view: EligView, h: nat)
      requires h >= 1
    {
      view.Valid() && Listed(view.g, view.bad, view.first, view.k) == Uniq(Simple(grid, h, start, end))
    }

    constructor (grid: seq<int>, start: int, end: int)
      requires Aligned(grid) && start % MINUTE_MS == 0
      ensures Valid() && this.grid == grid && this.start == start && this.end == end
    {
      this.grid, this.start, this.end, cache := grid, start, end, map[];
      g := SortedSet(grid);
      gaps := Gaps(SortedSet(grid), GapStart(SortedSet(grid), start), end);
    }

    /** Positions in [first, k) whose last minute is a gap. */
    method BadPositions(h: nat, first: nat, k: nat) returns (bad: set<nat>)
      requires Valid() && h >= 1 && k <= |g|
      ensures forall i: nat :: i in bad <==> first <= i < k && g[i] + Shift(h) in gaps
    {
      SortedSetIsGrid(grid);
      hide SortedSet, Gaps;
      bad := {};
      for q := 0 to |gaps|
        invariant forall i: nat :: i in bad <==> first <= i < k && g[i] + Shift(h) in gaps[..q]
      {
        var m := gaps[q];
        var i := BisectLeft(g, m - Shift(h));
        forall p: nat | p < |g| && g[p] + Shift(h) == m ensures p == i {
          LeftUnique(g, m - Shift(h), p);
        }
        assert gaps[..q + 1] == gaps[..q] + [m];
        if first <= i < k && g[i] == m - Shift(h) {
          bad := bad + {i};
        }
      }
      assert gaps[..|gaps|] == gaps;
    }

    /** `get`: the view for `h`, built once. Its list is the one `eligible_minutes` would give. */
    method Get(h: nat) returns (view: EligView)
      requires Valid() && h >= 1
      modifies this`cache
      ensures Valid() && Shows(view, h)
    {
      hide Eligible, EligibleMinutes, Gaps, BisectLeft, BisectRight, Uniq, Simple, SortedSet, Aligned, Strict;
      if h in cache { return cache[h]; }
      SortedSetIsGrid(grid);
      var first, k := BisectLeft(g, start), BisectRight(g, end - Shift(h));
      var positions := BadPositions(h, first, k);
      var bad := PositionsInOrder(positions, first, k);
      assert forall p: nat :: p in bad <==> first <= p < k && g[p] + Shift(h) in gaps;
      view := new EligView(g, first, k, bad);
      ListedIsEligible(g, h, start, end, first, k, bad, |g|);
      assert g[..|g|] == g;
      SimpleOnce(grid, h, start, end);
      cache := cache[h := view];
    }
  }

  /** `sorted` of a set of positions. */
  method PositionsInOrder(s: set<nat>, first: nat, k: nat) returns (out: seq<int>)
    requires forall i :: i in s ==> first <= i < k
    ensures BadInside(out, first, k) && forall i: nat :: i in out <==> i in s
  {
    out := [];
    var i := first;
    while i < k
      invariant first <= i && (i <= k || out == [])
      invariant BadInside(out, first, k) && (out != [] ==> out[|out| - 1] < i)
      invariant forall p: nat :: p in out <==> p in s && p < i
    {
      if i in s { out := out + [i]; }
      i := i + 1;
    }
  }
}
