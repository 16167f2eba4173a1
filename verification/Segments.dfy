/** Clean stretches of history and the lazily indexed entry minutes in them (backtest/p1_t3.py:65-106). */
module Segments {
  import opened Types
  import opened Bisect

  const EIGHT_HOURS_MS := 28_800_000

  /** First and last open minute, both included. */
  datatype Segment = Segment(a: int, b: int)

  /** How many fundings fall into the minute at `t`. */
  function FundingCount(fundings: seq<int>, t: int): nat {
    if fundings == [] then 0 else (if MinuteStart(fundings[0]) == t then 1 else 0) + FundingCount(fundings[1..], t)
  }

  datatype History = History(completeDays: set<int>, fundings: seq<int>, first: int, lastOpen: int)
  {
    predicate Aligned() {
      Minute(first) && Minute(lastOpen)
    }
  }

  function Day(t: int): int {
    t / DAY_MS
  }

  predicate OnGrid(t: int) {
    t % DAY_MS == 0 || t % DAY_MS == EIGHT_HOURS_MS || t % DAY_MS == 2 * EIGHT_HOURS_MS
  }

  predicate Minute(t: int) {
    t % MINUTE_MS == 0
  }

  /** A minute of the window on a complete day; on the funding grid there must be exactly one funding. */
  predicate Clean(h: History, t: int) {
    && Minute(t) && h.first <= t <= h.lastOpen && Day(t) in h.completeDays
    && (OnGrid(t) ==> FundingCount(h.fundings, t) == 1)
  }

  predicate Covers(segs: seq<Segment>, t: int) {
    exists i :: 0 <= i < |segs| && segs[i].a <= t <= segs[i].b
  }

  /** Non-empty, in order, and with at least one minute between neighbours: no two of them could be merged. */
  predicate Runs(segs: seq<Segment>) {
    && (forall i :: 0 <= i < |segs| ==> segs[i].a <= segs[i].b && Minute(segs[i].a) && Minute(segs[i].b))
    && (forall i, j :: 0 <= i < j < |segs| ==> segs[i].b + MINUTE_MS < segs[j].a)
  }

  /** `segs` are the clean runs before `u`. */
  ghost predicate Before(h: History, segs: seq<Segment>, u: int) {
    && Runs(segs) && (segs != [] ==> segs[|segs| - 1].b < u)
    && forall t :: Minute(t) && t < u ==> (Covers(segs, t) <==> Clean(h, t))
  }

  /** `segs` are exactly the maximal runs of clean minutes. */
  ghost predicate CleanRuns(h: History, segs: seq<Segment>) {
    Runs(segs) && forall t :: Covers(segs, t) && Minute(t) <==> Clean(h, t)
  }

  lemma InsideIsClean(h: History, segs: seq<Segment>, i: nat, t: int)
    requires CleanRuns(h, segs) && i < |segs| && segs[i].a <= t <= segs[i].b && Minute(t)
    ensures Clean(h, t)
  {
    assert Covers(segs, t);
  }

  lemma CleanIsInside(h: History, segs: seq<Segment>, t: int) returns (i: nat)
    requires CleanRuns(h, segs) && Clean(h, t)
    ensures i < |segs| && segs[i].a <= t <= segs[i].b && Minute(t)
  {
    assert Covers(segs, t);
    i :| 0 <= i < |segs| && segs[i].a <= t <= segs[i].b;
  }

  /** Runs do not touch: two that hold minutes one step apart are the same. */
  lemma SameRun(segs: seq<Segment>, i: nat, k: nat, t: int)
    requires Runs(segs) && i < |segs| && k < |segs| && segs[i].a <= t <= segs[i].b
    requires segs[k].a <= t + MINUTE_MS <= segs[k].b
    ensures i == k
  {}

  lemma NextIsMinute(a: int)
    requires Minute(a)
    ensures Minute(a + MINUTE_MS) && Minute(a - MINUTE_MS)
  {}

  lemma NextMinute(a: int, b: int)
    requires Minute(a) && Minute(b) && a < b
    ensures a + MINUTE_MS <= b
  {}

  /** Funding `i` falls into the minute from `t` on. */
  predicate FallsInto(fundings: seq<int>, i: nat, t: int)
    requires i < |fundings|
  {
    t <= fundings[i] < t + MINUTE_MS
  }

  lemma {:induction false} NoFundingIff(fundings: seq<int>, t: int)
    requires Minute(t)
    ensures FundingCount(fundings, t) == 0 <==> forall i: nat :: i < |fundings| ==> !FallsInto(fundings, i, t)
  {
    if fundings != [] {
      NoFundingIff(fundings[1..], t);
      assert MinuteStart(fundings[0]) == t <==> FallsInto(fundings, 0, t);
      forall i: nat | 0 < i < |fundings| ensures FallsInto(fundings, i, t) == FallsInto(fundings[1..], i - 1, t) {}
      forall i: nat | i < |fundings| - 1 ensures FallsInto(fundings[1..], i, t) == FallsInto(fundings, i + 1, t) {}
    }
  }

  /** A grid point is clean if there is one funding in its minute, and only one. */
  lemma {:induction false} OneFundingIff(fundings: seq<int>, t: int)
    requires Minute(t)
    ensures FundingCount(fundings, t) == 1
       <==> exists i: nat :: i < |fundings| && FallsInto(fundings, i, t) && forall j: nat :: j < |fundings| && j != i ==> !FallsInto(fundings, j, t)
  {
    if fundings != [] {
      var rest := fundings[1..];
      OneFundingIff(rest, t);
      NoFundingIff(rest, t);
      assert MinuteStart(fundings[0]) == t <==> FallsInto(fundings, 0, t);
      assert forall i: nat :: 0 < i < |fundings| ==> FallsInto(fundings, i, t) == FallsInto(rest, i - 1, t);
      assert forall i: nat :: i < |rest| ==> FallsInto(rest, i, t) == FallsInto(fundings, i + 1, t);
    }
  }

  // ---------------------------------------------------------------- building the runs

  /** Nothing clean between `u` and `v`. */
  lemma Skip(h: History, segs: seq<Segment>, u: int, v: int)
    requires Before(h, segs, u) && u <= v && forall t :: u <= t < v ==> !Clean(h, t)
    ensures Before(h, segs, v)
  {
    forall t | Minute(t) && t < v ensures Covers(segs, t) <==> Clean(h, t) {
      if t >= u && Covers(segs, t) {
        var i :| 0 <= i < |segs| && segs[i].a <= t <= segs[i].b;
        LastIsLast(segs, i);
      }
    }
  }

  lemma LastIsLast(segs: seq<Segment>, i: nat)
    requires Runs(segs) && i < |segs|
    ensures segs[i].b <= segs[|segs| - 1].b
  {
    if i < |segs| - 1 { assert segs[i].b + MINUTE_MS < segs[|segs| - 1].a; }
  }

  function Extended(segs: seq<Segment>, start: int, end: int): seq<Segment> {
    if segs != [] && segs[|segs| - 1].b + MINUTE_MS == start
    then segs[|segs| - 1 := Segment(segs[|segs| - 1].a, end)]
    else segs + [Segment(start, end)]
  }

  /** Everything clean from `start` to `end`. */
  lemma Extend(h: History, segs: seq<Segment>, start: int, end: int)
    requires Before(h, segs, start) && Minute(start) && Minute(end) && start <= end
    requires forall t :: Minute(t) && start <= t <= end ==> Clean(h, t)
    ensures Before(h, Extended(segs, start, end), end + MINUTE_MS)
    ensures Extended(segs, start, end) != []
  {
    hide Clean, Covers, Minute, Runs;
    ExtendedRuns(segs, start, end);
    forall t | Minute(t) && t < end + MINUTE_MS ensures Covers(Extended(segs, start, end), t) <==> Clean(h, t) {
      ExtendedCovers(segs, start, end, t);
    }
  }

  lemma ExtendedCovers(segs: seq<Segment>, start: int, end: int, t: int)
    requires Runs(segs) && (segs != [] ==> segs[|segs| - 1].b < start) && Minute(start) && Minute(end) && start <= end
    requires Minute(t) && t < end + MINUTE_MS
    ensures t <= end
    ensures Covers(Extended(segs, start, end), t) <==> start <= t || Covers(segs, t)
  {
    var out := Extended(segs, start, end);
    if t > end { NextMinute(end, t); }
    if t >= start {
      assert out[|out| - 1].a <= t <= out[|out| - 1].b;
    } else {
      if Covers(segs, t) {
        var i :| 0 <= i < |segs| && segs[i].a <= t <= segs[i].b;
        assert out[i].a <= t <= out[i].b;
      }
      if Covers(out, t) {
        var i :| 0 <= i < |out| && out[i].a <= t <= out[i].b;
        CoveredBefore(segs, start, end, i, t);
      }
    }
  }

  lemma ExtendedRuns(segs: seq<Segment>, start: int, end: int)
    requires Runs(segs) && Minute(start) && Minute(end) && start <= end && (segs != [] ==> segs[|segs| - 1].b < start)
    ensures Runs(Extended(segs, start, end)) && Extended(segs, start, end) != []
    ensures Extended(segs, start, end)[|Extended(segs, start, end)| - 1].b == end
  {
    var out := Extended(segs, start, end);
    forall i, j | 0 <= i < j < |out| ensures out[i].b + MINUTE_MS < out[j].a {
      if j == |out| - 1 && |out| > |segs| {
        LastIsLast(segs, i);
        NextMinute(segs[|segs| - 1].b, start);
      }
    }
  }

  lemma CoveredBefore(segs: seq<Segment>, start: int, end: int, i: nat, t: int)
    requires Runs(segs) && (segs != [] ==> segs[|segs| - 1].b < start) && Minute(start) && Minute(t) && t < start
    requires i < |Extended(segs, start, end)| && Extended(segs, start, end)[i].a <= t <= Extended(segs, start, end)[i].b
    ensures Covers(segs, t)
  {
    if i < |segs| {
      if segs[|segs| - 1].b + MINUTE_MS == start && i == |segs| - 1 { NextMinute(t, start); }
      assert segs[i].a <= t <= segs[i].b;
    }
  }

  function Cut(h: History, t: int, lo: int, hi: int): seq<int> {
    if lo <= t <= hi && FundingCount(h.fundings, t) != 1 then [t] else []
  }

  /** The grid points of day `d` inside [lo, hi] that break it: not exactly one funding there. */
  function Cuts(h: History, d: int, lo: int, hi: int): seq<int> {
    var g := d * DAY_MS;
    Cut(h, g, lo, hi) + Cut(h, g + EIGHT_HOURS_MS, lo, hi) + Cut(h, g + 2 * EIGHT_HOURS_MS, lo, hi)
  }

  lemma GridOfDay(d: int, t: int)
    ensures Day(t) == d && OnGrid(t) <==>
      t == d * DAY_MS || t == d * DAY_MS + EIGHT_HOURS_MS || t == d * DAY_MS + 2 * EIGHT_HOURS_MS
    ensures Day(t) == d && OnGrid(t) ==> Minute(t)
  {
    var r := t - d * DAY_MS;
    assert t == DAY_MS * d + r;
    if 0 <= r < DAY_MS {
      assert Day(t) == d && t % DAY_MS == r;
      if r == 0 || r == EIGHT_HOURS_MS || r == 2 * EIGHT_HOURS_MS { assert t == MINUTE_MS * (1440 * d + r / MINUTE_MS); }
    }
  }

  lemma CutsMean(h: History, d: int, lo: int, hi: int)
    ensures Strict(Cuts(h, d, lo, hi))
    ensures forall t :: t in Cuts(h, d, lo, hi) <==> lo <= t <= hi && Day(t) == d && OnGrid(t) && FundingCount(h.fundings, t) != 1
  {
    forall t ensures t in Cuts(h, d, lo, hi) <==> lo <= t <= hi && Day(t) == d && OnGrid(t) && FundingCount(h.fundings, t) != 1 {
      GridOfDay(d, t);
    }
  }

  /** The part [lo, hi] of day `d` inside the window. */
  predicate DayRange(h: History, d: int, lo: int, hi: int) {
    && h.Aligned() && d * DAY_MS <= h.lastOpen && h.first < (d + 1) * DAY_MS
    && lo == (if h.first >= d * DAY_MS then h.first else d * DAY_MS)
    && hi == (if h.lastOpen <= d * DAY_MS + DAY_MS - MINUTE_MS then h.lastOpen else d * DAY_MS + DAY_MS - MINUTE_MS)
  }

  lemma DayEdges(h: History, d: int, lo: int, hi: int)
    requires DayRange(h, d, lo, hi)
    ensures Minute(lo) && Minute(hi) && d * DAY_MS <= lo <= (d + 1) * DAY_MS && hi + MINUTE_MS <= (d + 1) * DAY_MS
    ensures forall t :: d * DAY_MS <= t < lo ==> !Clean(h, t)
    ensures forall t :: (if lo <= hi then hi + MINUTE_MS else lo) <= t < (d + 1) * DAY_MS ==> !Clean(h, t)
    ensures forall t :: lo <= t <= hi ==> Day(t) == d
  {
    hide OnGrid, Day, FundingCount, Minute;
    DayMinutes(d);
    if hi < h.first { NextMinute(hi, h.first); }
    forall t | lo <= t <= hi ensures Day(t) == d { DayIs(d, t); }
    forall t | d * DAY_MS <= t < lo ensures !Clean(h, t) {}
    forall t | (if lo <= hi then hi + MINUTE_MS else lo) <= t < (d + 1) * DAY_MS ensures !Clean(h, t) {}
  }

  lemma DayIs(d: int, t: int)
    ensures Day(t) == d <==> d * DAY_MS <= t < (d + 1) * DAY_MS
  {}

  lemma DayMinutes(d: int)
    ensures Minute(d * DAY_MS) && Minute(d * DAY_MS + DAY_MS - MINUTE_MS)
  {
    assert d * DAY_MS == MINUTE_MS * (1440 * d);
  }

  lemma CutsAreMinutes(h: History, d: int, lo: int, hi: int)
    ensures forall i :: 0 <= i < |Cuts(h, d, lo, hi)| ==> Minute(Cuts(h, d, lo, hi)[i]) && lo <= Cuts(h, d, lo, hi)[i] <= hi
  {
    CutsMean(h, d, lo, hi);
    forall i | 0 <= i < |Cuts(h, d, lo, hi)| ensures Minute(Cuts(h, d, lo, hi)[i]) && lo <= Cuts(h, d, lo, hi)[i] <= hi {
      assert Cuts(h, d, lo, hi)[i] in Cuts(h, d, lo, hi);
      GridOfDay(d, Cuts(h, d, lo, hi)[i]);
    }
  }

  /** Where cut `q` leaves the scan. */
  function From(cuts: seq<int>, lo: int, q: nat): int
    requires q <= |cuts|
  {
    if q == 0 then lo else cuts[q - 1] + MINUTE_MS
  }

  /** Between two cuts every minute is clean, and the scan has not passed the next cut. */
  lemma BetweenCuts(h: History, d: int, lo: int, hi: int, q: nat)
    requires DayRange(h, d, lo, hi) && d in h.completeDays && q <= |Cuts(h, d, lo, hi)|
    ensures var cuts := Cuts(h, d, lo, hi);
      var c := if q < |cuts| then cuts[q] else hi + MINUTE_MS;
      && Minute(From(cuts, lo, q)) && lo <= From(cuts, lo, q)
      && (From(cuts, lo, q) <= c || lo > hi)
      && (forall t :: Minute(t) && From(cuts, lo, q) <= t <= c - MINUTE_MS ==> Clean(h, t))
  {
    hide Cuts, OnGrid, Day, FundingCount, Minute;
    var cuts := Cuts(h, d, lo, hi);
    var c := if q < |cuts| then cuts[q] else hi + MINUTE_MS;
    DayEdges(h, d, lo, hi);
    CutsMean(h, d, lo, hi);
    CutsAreMinutes(h, d, lo, hi);
    NextIsMinute(if q > 0 then cuts[q - 1] else lo);
    if q > 0 && q < |cuts| { NextMinute(cuts[q - 1], cuts[q]); }
    forall t | Minute(t) && From(cuts, lo, q) <= t <= c - MINUTE_MS ensures Clean(h, t) {
      assert forall p :: 0 <= p < |cuts| ==> cuts[p] != t;
    }
  }

  lemma CutIsUnclean(h: History, d: int, lo: int, hi: int, q: nat)
    requires q < |Cuts(h, d, lo, hi)|
    ensures var c := Cuts(h, d, lo, hi)[q]; forall t :: c <= t < c + MINUTE_MS ==> !Clean(h, t)
  {
    var c := Cuts(h, d, lo, hi)[q];
    CutsMean(h, d, lo, hi);
    CutsAreMinutes(h, d, lo, hi);
    assert c in Cuts(h, d, lo, hi);
    forall t | c <= t < c + MINUTE_MS ensures !Clean(h, t) {
      if Minute(t) && t != c { NextMinute(c, t); }
    }
  }

  /** Add the run up to the minute before `c`, if there is one. */
  method AddRun(h: History, before: seq<Segment>, start: int, c: int) returns (segs: seq<Segment>)
    requires Before(h, before, start) && Minute(start) && Minute(c) && start <= c
    requires forall t :: Minute(t) && start <= t <= c - MINUTE_MS ==> Clean(h, t)
    ensures Before(h, segs, c)
  {
    hide Clean, Before;
    segs := before;
    var end := c - MINUTE_MS;
    if start <= end {
      Extend(h, segs, start, end);
      var n := |segs| - 1;
      if segs != [] && segs[n].b + MINUTE_MS == start {
        segs := segs[n := Segment(segs[n].a, end)];
      } else {
        segs := segs + [Segment(start, end)];
      }
    } else if start < c {
      NextMinute(start, c);
    }
  }

  /** The inner loop: cut the range [lo, hi] of one day at its bad grid points. */
  method CutDay(h: History, d: int, lo: int, hi: int, before: seq<Segment>) returns (segs: seq<Segment>)
    requires d in h.completeDays && DayRange(h, d, lo, hi) && Before(h, before, lo)
    ensures Before(h, segs, if lo <= hi then hi + MINUTE_MS else lo)
  {
    hide Before, Clean, Minute, DayRange, Cuts;
    segs := before;
    var cuts := Cuts(h, d, lo, hi);
    var start := lo;
    for q := 0 to |cuts|
      invariant start == From(cuts, lo, q) && Before(h, segs, start)
    {
      CutsAreMinutes(h, d, lo, hi);
      BetweenCuts(h, d, lo, hi, q);
      segs := AddRun(h, segs, start, cuts[q]);
      CutIsUnclean(h, d, lo, hi, q);
      Skip(h, segs, cuts[q], cuts[q] + MINUTE_MS);
      start := cuts[q] + MINUTE_MS;
    }
    DayEdges(h, d, lo, hi);
    CutsAreMinutes(h, d, lo, hi);
    BetweenCuts(h, d, lo, hi, |cuts|);
    NextIsMinute(hi);
    if lo <= hi {
      segs := AddRun(h, segs, start, hi + MINUTE_MS);
    }
  }

  method BuildDay(h: History, d: int, before: seq<Segment>) returns (segs: seq<Segment>)
    requires h.Aligned() && d in h.completeDays && Before(h, before, d * DAY_MS)
    requires d * DAY_MS <= h.lastOpen && h.first < (d + 1) * DAY_MS
    ensures Before(h, segs, (d + 1) * DAY_MS)
  {
    hide Before, Clean, Minute;
    var lo := if h.first >= d * DAY_MS then h.first else d * DAY_MS;
    var hi := if h.lastOpen <= d * DAY_MS + DAY_MS - MINUTE_MS then h.lastOpen else d * DAY_MS + DAY_MS - MINUTE_MS;
    DayEdges(h, d, lo, hi);
    Skip(h, before, d * DAY_MS, lo);
    segs := CutDay(h, d, lo, hi, before);
    Skip(h, segs, if lo <= hi then hi + MINUTE_MS else lo, (d + 1) * DAY_MS);
  }

  /** `build_segments`: the maximal runs of clean minutes of the whole window, in order. */
  method BuildSegments(h: History) returns (segs: seq<Segment>)
    requires h.Aligned()
    ensures CleanRuns(h, segs)
  {
    segs := [];
    var d, last := Day(h.first), Day(h.lastOpen);
    EmptyBefore(h, d * DAY_MS);
    while d <= last
      invariant Day(h.first) <= d && (d <= last + 1 || d == Day(h.first))
      invariant Before(h, segs, d * DAY_MS)
    {
      if d in h.completeDays {
        segs := BuildDay(h, d, segs);
      } else {
        IncompleteDay(h, d);
        Skip(h, segs, d * DAY_MS, (d + 1) * DAY_MS);
      }
      d := d + 1;
    }
    NothingLater(h, d * DAY_MS, segs);
  }

  lemma EmptyBefore(h: History, u: int)
    requires u <= h.first
    ensures Before(h, [], u)
  {}

  lemma IncompleteDay(h: History, d: int)
    requires d !in h.completeDays
    ensures forall t :: d * DAY_MS <= t < (d + 1) * DAY_MS ==> !Clean(h, t)
  {
    forall t | d * DAY_MS <= t < (d + 1) * DAY_MS ensures Day(t) == d {}
  }

  lemma NothingLater(h: History, u: int, segs: seq<Segment>)
    requires Before(h, segs, u) && u > h.lastOpen
    ensures CleanRuns(h, segs)
  {
    forall t ensures Covers(segs, t) && Minute(t) <==> Clean(h, t) {
      if t >= u && Covers(segs, t) {
        var i :| 0 <= i < |segs| && segs[i].a <= t <= segs[i].b;
        LastIsLast(segs, i);
      }
    }
  }

  // ---------------------------------------------------------------- entry minutes that stay clean for a while

  /** `n` consecutive minutes from `t` on are clean. */
  predicate StaysClean(h: History, t: int, n: nat) {
    forall k: nat :: k < n ==> Clean(h, t + k * MINUTE_MS)
  }

  /** Minutes of a segment. */
  function Length(s: Segment): int {
    (s.b - s.a) / MINUTE_MS + 1
  }

  function Entries(s: Segment, n: nat): nat {
    if Length(s) - n + 1 > 0 then Length(s) - n + 1 else 0
  }

  function Cumulative(segs: seq<Segment>, n: nat): (cum: seq<int>)
    ensures |cum| == |segs|
  {
    if segs == [] then []
    else
      var m := |segs| - 1;
      var before := Cumulative(segs[..m], n);
      before + [(if m == 0 then 0 else before[m - 1]) + Entries(segs[m], n)]
  }

  /** Entries in the segments before the `i`-th. */
  function EntriesBefore(cum: seq<int>, i: nat): int
    requires i <= |cum|
  {
    if i == 0 then 0 else cum[i - 1]
  }

  lemma {:induction false} CumulativeSteps(segs: seq<Segment>, n: nat, i: nat)
    requires i < |segs|
    ensures Cumulative(segs, n)[i] == EntriesBefore(Cumulative(segs, n), i) + Entries(segs[i], n)
    decreases |segs|
  {
    var m := |segs| - 1;
    if i < m {
      CumulativeSteps(segs[..m], n, i);
    }
  }

  lemma {:induction false} CumulativeGrows(segs: seq<Segment>, n: nat, i: nat, j: nat)
    requires i <= j < |segs|
    ensures EntriesBefore(Cumulative(segs, n), i) <= EntriesBefore(Cumulative(segs, n), j)
    ensures 0 <= EntriesBefore(Cumulative(segs, n), i) && Cumulative(segs, n)[i] <= Cumulative(segs, n)[j]
    decreases j
  {
    CumulativeSteps(segs, n, j);
    if i < j {
      CumulativeSteps(segs, n, j - 1);
      CumulativeGrows(segs, n, i, j - 1);
    } else if i > 0 {
      CumulativeGrows(segs, n, i - 1, i - 1);
      CumulativeSteps(segs, n, i - 1);
    }
  }

  lemma CumulativeAscends(segs: seq<Segment>, n: nat)
    ensures Ascending(Cumulative(segs, n))
  {
    forall i, j | 0 <= i < j < |segs| ensures Cumulative(segs, n)[i] <= Cumulative(segs, n)[j] {
      CumulativeGrows(segs, n, i, j);
    }
  }

  // ---------------------------------------------------------------- the list it stands for

  /** The minutes of one segment that still have `n - 1` minutes of it after them. */
  function StartsFrom(a: int, b: int, n: nat): seq<int>
    decreases b - a + 2 * MINUTE_MS
  {
    if a + (n - 1) * MINUTE_MS > b then [] else [a] + StartsFrom(a + MINUTE_MS, b, n)
  }

  /** All entry minutes, segment after segment. */
  function AllStarts(segs: seq<Segment>, n: nat): seq<int> {
    if segs == [] then [] else AllStarts(segs[..|segs| - 1], n) + StartsFrom(segs[|segs| - 1].a, segs[|segs| - 1].b, n)
  }

  lemma {:induction false} StartsAreSteps(s: Segment, n: nat)
    ensures |StartsFrom(s.a, s.b, n)| == Entries(s, n)
    ensures forall k :: 0 <= k < Entries(s, n) ==> StartsFrom(s.a, s.b, n)[k] == s.a + k * MINUTE_MS
    decreases s.b - s.a + 2 * MINUTE_MS
  {
    if s.a + (n - 1) * MINUTE_MS <= s.b {
      StartsAreSteps(Segment(s.a + MINUTE_MS, s.b), n);
    }
  }

  lemma {:induction false} AllStartsAt(segs: seq<Segment>, n: nat, i: nat, k: nat)
    requires i < |segs| && k < Entries(segs[i], n)
    ensures |AllStarts(segs, n)| == EntriesBefore(Cumulative(segs, n), |segs|)
    ensures 0 <= EntriesBefore(Cumulative(segs, n), i) + k < |AllStarts(segs, n)|
    ensures AllStarts(segs, n)[EntriesBefore(Cumulative(segs, n), i) + k] == segs[i].a + k * MINUTE_MS
    decreases |segs|
  {
    var m := |segs| - 1;
    AllStartsCount(segs, n);
    AllStartsCount(segs[..m], n);
    StartsAreSteps(segs[m], n);
    CumulativeGrows(segs, n, i, m);
    CumulativeSteps(segs, n, i);
    if i < m {
      AllStartsAt(segs[..m], n, i, k);
    }
  }

  lemma {:induction false} AllStartsCount(segs: seq<Segment>, n: nat)
    ensures |AllStarts(segs, n)| == EntriesBefore(Cumulative(segs, n), |segs|)
    decreases |segs|
  {
    if segs != [] {
      AllStartsCount(segs[..|segs| - 1], n);
      StartsAreSteps(segs[|segs| - 1], n);
    }
  }

  /** The lazy list of entry minutes: only running totals per segment are kept. */
  class CrossDayEligible {
    const segments: seq<Segment>
    const n: nat
    const cum: seq<int>
    const count: int

    predicate Valid() {
      cum == Cumulative(segments, n) && count == EntriesBefore(cum, |cum|)
    }

    constructor (segments: seq<Segment>, n: nat)
      ensures Valid() && this.segments == segments && this.n == n
    {
      this.segments, this.n := segments, n;
      var sums: seq<int>, total := [], 0;
      for i := 0 to |segments|
        invariant sums == Cumulative(segments[..i], n) && total == EntriesBefore(sums, i)
      {
        assert segments[..i + 1][..i] == segments[..i];
        var entries := Length(segments[i]) - n + 1;
        total := total + (if entries > 0 then entries else 0);
        sums := sums + [total];
      }
      assert segments[..|segments|] == segments;
      cum, count := sums, total;
    }

    /** `len`: as many as the list has. */
    function Size(): (r: int)
      requires Valid()
      ensures r == |AllStarts(segments, n)|
    {
      AllStartsCount(segments, n);
      count
    }

    /** `[j]`: element `j` of the list, without building it. */
    function Item(j: nat): (t: int)
      requires Valid() && j < Size()
      ensures t == AllStarts(segments, n)[j]
    {
      AllStartsCount(segments, n);
      var i := BisectRight(cum, j);
      RowOf(segments, n, j);
      AllStartsAt(segments, n, i, j - EntriesBefore(cum, i));
      segments[i].a + (j - EntriesBefore(cum, i)) * MINUTE_MS
    }
  }

  /** Entry `j` is in the segment the search finds. */
  lemma RowOf(segs: seq<Segment>, n: nat, j: nat)
    requires j < EntriesBefore(Cumulative(segs, n), |segs|)
    ensures var cum := Cumulative(segs, n);
      var i := BisectRight(cum, j);
      i < |segs| && EntriesBefore(cum, i) <= j < cum[i] && j - EntriesBefore(cum, i) < Entries(segs[i], n)
  {
    var cum := Cumulative(segs, n);
    var i := BisectRight(cum, j);
    if i < |segs| { CumulativeSteps(segs, n, i); }
  }

  lemma SegmentMinutes(s: Segment, n: nat, k: int)
    requires Minute(s.a) && Minute(s.b) && s.a <= s.b && n >= 1
    ensures 0 <= k < Entries(s, n) <==> 0 <= k && s.a + (k + n - 1) * MINUTE_MS <= s.b
  {
    var q := (s.b - s.a) / MINUTE_MS;
    assert s.b - s.a == q * MINUTE_MS;
  }

  /** Every listed minute starts `n` clean minutes. */
  lemma EntriesAreClean(h: History, segs: seq<Segment>, n: nat, j: nat)
    requires CleanRuns(h, segs) && n >= 1 && j < |AllStarts(segs, n)|
    ensures StaysClean(h, AllStarts(segs, n)[j], n)
  {
    hide Cumulative, EntriesBefore, Clean, Minute, Entries, CleanRuns, AllStarts, StaysClean;
    AllStartsCount(segs, n);
    RowOf(segs, n, j);
    var i := BisectRight(Cumulative(segs, n), j);
    var k := j - EntriesBefore(Cumulative(segs, n), i);
    AllStartsAt(segs, n, i, k);
    EntryIsClean(h, segs, n, i, k);
  }

  lemma EntryIsClean(h: History, segs: seq<Segment>, n: nat, i: nat, k: nat)
    requires CleanRuns(h, segs) && n >= 1 && i < |segs| && k < Entries(segs[i], n)
    ensures StaysClean(h, segs[i].a + k * MINUTE_MS, n)
  {
    hide Clean, Entries;
    var s := segs[i];
    SegmentMinutes(s, n, k);
    forall m: nat | m < n ensures Clean(h, s.a + k * MINUTE_MS + m * MINUTE_MS) {
      MinuteOf(s.a, k + m);
      InsideIsClean(h, segs, i, s.a + k * MINUTE_MS + m * MINUTE_MS);
    }
  }

  lemma MinuteOf(a: int, k: int)
    requires Minute(a)
    ensures Minute(a + k * MINUTE_MS)
  {}

  lemma EntriesAscend(segs: seq<Segment>, n: nat, j: nat, j': nat)
    requires Runs(segs) && n >= 1 && j < j' < |AllStarts(segs, n)|
    ensures AllStarts(segs, n)[j] < AllStarts(segs, n)[j']
  {
    hide AllStarts;
    var cum := Cumulative(segs, n);
    AllStartsCount(segs, n);
    RowOf(segs, n, j);
    RowOf(segs, n, j');
    var i, i' := BisectRight(cum, j), BisectRight(cum, j');
    AllStartsAt(segs, n, i, j - EntriesBefore(cum, i));
    AllStartsAt(segs, n, i', j' - EntriesBefore(cum, i'));
    SegmentMinutes(segs[i], n, j - EntriesBefore(cum, i));
    CumulativeAscends(segs, n);
    assert i > 0 ==> EntriesBefore(cum, i) == cum[i - 1];
    assert i <= i';
  }

  /** Minutes that stay clean lie in one run: the runs are maximal, so that none of them can be crossed. */
  lemma {:induction false} OneRun(h: History, segs: seq<Segment>, t: int, n: nat) returns (i: nat)
    requires CleanRuns(h, segs) && n >= 1
    requires StaysClean(h, t, n)
    ensures i < |segs| && segs[i].a <= t && t + (n - 1) * MINUTE_MS <= segs[i].b && Minute(t)
    decreases n
  {
    hide Clean, CleanRuns, Minute;
    if n == 1 {
      assert Clean(h, t + 0 * MINUTE_MS);
      i := CleanIsInside(h, segs, t);
    } else {
      i := OneRun(h, segs, t, n - 1);
      var last := t + (n - 1) * MINUTE_MS;
      assert Clean(h, last);
      var k := CleanIsInside(h, segs, last);
      RunsOf(h, segs);
      SameRun(segs, i, k, last - MINUTE_MS);
    }
  }

  lemma RunsOf(h: History, segs: seq<Segment>)
    requires CleanRuns(h, segs)
    ensures Runs(segs)
  {}

  lemma WholeMinutes(a: int, t: int)
    requires Minute(a) && Minute(t) && a <= t
    ensures t == a + ((t - a) / MINUTE_MS) * MINUTE_MS && (t - a) / MINUTE_MS >= 0
  {}

  /** The list holds exactly the minutes that start `n` clean minutes, in strictly ascending order. */
  lemma ListedIffClean(h: History, segs: seq<Segment>, n: nat)
    requires CleanRuns(h, segs) && n >= 1
    ensures Strict(AllStarts(segs, n))
    ensures forall t :: t in AllStarts(segs, n) <==> StaysClean(h, t, n)
  {
    hide AllStarts, StaysClean, CleanRuns;
    var all := AllStarts(segs, n);
    RunsOf(h, segs);
    forall j, j' | 0 <= j < j' < |all| ensures all[j] < all[j'] { EntriesAscend(segs, n, j, j'); }
    forall t ensures t in all <==> StaysClean(h, t, n) {
      if j :| 0 <= j < |all| && all[j] == t { EntriesAreClean(h, segs, n, j); }
      if StaysClean(h, t, n) { EveryEntryListed(h, segs, t, n); }
    }
  }

  /** No entry is left out. */
  lemma EveryEntryListed(h: History, segs: seq<Segment>, t: int, n: nat)
    requires CleanRuns(h, segs) && n >= 1
    requires StaysClean(h, t, n)
    ensures t in AllStarts(segs, n)
  {
    hide Clean, Covers, Cumulative, Entries, StaysClean, AllStarts;
    var i := OneRun(h, segs, t, n);
    var k := (t - segs[i].a) / MINUTE_MS;
    WholeMinutes(segs[i].a, t);
    SegmentMinutes(segs[i], n, k);
    AllStartsAt(segs, n, i, k);
  }
}
