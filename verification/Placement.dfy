/** Random placement of placebo trades without overlap (backtest/p1_core.py:30-135). The random generator is any
    sequence of numbers. */
module Placement {
  import opened Types
  import opened Bisect
  import opened Sorting

  // ---------------------------------------------------------------- occupied intervals

  predicate Apart(a: int, b: int, c: int, d: int) {
    b <= c || d <= a
  }

  /** Non-empty half-open intervals in order, none overlapping. */
  predicate Intervals(starts: seq<int>, ends: seq<int>) {
    && |starts| == |ends| && Strict(starts)
    && (forall i :: 0 <= i < |starts| ==> starts[i] < ends[i])
    && (forall i, j :: 0 <= i < j < |starts| ==> ends[i] <= starts[j])
  }

  predicate FreeOf(starts: seq<int>, ends: seq<int>, a: int, b: int)
    requires |starts| == |ends|
  {
    forall i :: 0 <= i < |starts| ==> Apart(a, b, starts[i], ends[i])
  }

  predicate Holds(starts: seq<int>, ends: seq<int>, a: int, b: int)
    requires |starts| == |ends|
  {
    exists i :: 0 <= i < |starts| && starts[i] == a && ends[i] == b
  }

  function InsertAt(xs: seq<int>, i: nat, x: int): (out: seq<int>)
    requires i <= |xs|
    ensures |out| == |xs| + 1 && out[i] == x
    ensures forall j :: 0 <= j < i ==> out[j] == xs[j]
    ensures forall j :: i < j < |out| ==> out[j] == xs[j - 1]
  {
    xs[..i] + [x] + xs[i..]
  }

  /** The insertion point splits the stored intervals into those before and those after. */
  lemma PointSplits(starts: seq<int>, ends: seq<int>, a: int, b: int)
    requires Intervals(starts, ends) && a < b && FreeOf(starts, ends, a, b)
    ensures var i := BisectRight(starts, a);
      (forall j :: 0 <= j < i ==> starts[j] < a && ends[j] <= a) && (forall j :: i <= j < |starts| ==> b <= starts[j])
  {
    RightRest(starts, a);
  }

  lemma InsertKeepsIntervals(starts: seq<int>, ends: seq<int>, a: int, b: int)
    requires Intervals(starts, ends) && a < b && FreeOf(starts, ends, a, b)
    ensures var i := BisectRight(starts, a); Intervals(InsertAt(starts, i, a), InsertAt(ends, i, b))
  {
    PointSplits(starts, ends, a, b);
    InsertedBetween(starts, ends, a, b, BisectRight(starts, a));
  }

  lemma InsertedBetween(starts: seq<int>, ends: seq<int>, a: int, b: int, i: nat)
    requires Intervals(starts, ends) && a < b && i <= |starts|
    requires (forall j :: 0 <= j < i ==> starts[j] < a && ends[j] <= a) && (forall j :: i <= j < |starts| ==> b <= starts[j])
    ensures Intervals(InsertAt(starts, i, a), InsertAt(ends, i, b))
  {
    var s, e := InsertAt(starts, i, a), InsertAt(ends, i, b);
    hide InsertAt;
    forall p, q | 0 <= p < q < |s| ensures s[p] < s[q] && e[p] <= s[q] {
      var p0, q0 := if p < i then p else p - 1, if q < i then q else q - 1;
      if p != i && q != i { assert starts[p0] < starts[q0] && ends[p0] <= starts[q0]; }
    }
  }

  lemma InsertHolds(starts: seq<int>, ends: seq<int>, a: int, b: int, i: nat, c: int, d: int)
    requires |starts| == |ends| && i <= |starts|
    ensures Holds(InsertAt(starts, i, a), InsertAt(ends, i, b), c, d) <==> Holds(starts, ends, c, d) || (c == a && d == b)
  {
    var s, e := InsertAt(starts, i, a), InsertAt(ends, i, b);
    if j :| 0 <= j < |starts| && starts[j] == c && ends[j] == d {
      var k := if j < i then j else j + 1;
      assert s[k] == c && e[k] == d;
    }
    if c == a && d == b { assert s[i] == c && e[i] == d; }
    if j :| 0 <= j < |s| && s[j] == c && e[j] == d {
      if j != i { var k := if j < i then j else j - 1; assert starts[k] == c && ends[k] == d; }
    }
  }

  /** Only the two neighbours of the insertion point need to be looked at. */
  lemma NeighboursDecide(starts: seq<int>, ends: seq<int>, a: int, b: int)
    requires Intervals(starts, ends) && a < b
    ensures var i := BisectRight(starts, a);
      FreeOf(starts, ends, a, b) <==> !(i > 0 && ends[i - 1] > a) && !(i < |starts| && starts[i] < b)
  {
    var i := BisectRight(starts, a);
    RightRest(starts, a);
    assert i > 0 ==> forall j :: 0 <= j < i - 1 ==> ends[j] <= starts[i - 1];
  }

  class Occupancy {
    var starts: seq<int>
    var ends: seq<int>

    ghost predicate Valid()
      reads this
    {
      Intervals(starts, ends)
    }

    constructor ()
      ensures Valid() && starts == []
    {
      starts, ends := [], [];
    }

    method Free(a: int, b: int) returns (r: bool)
      requires Valid() && a < b
      ensures r <==> FreeOf(starts, ends, a, b)
    {
      NeighboursDecide(starts, ends, a, b);
      var i := BisectRight(starts, a);
      if i > 0 && ends[i - 1] > a { return false; }
      r := !(i < |starts| && starts[i] < b);
    }

    method Add(a: int, b: int)
      requires Valid() && a < b && FreeOf(starts, ends, a, b)
      modifies this
      ensures Valid()
      ensures forall c, d :: Holds(starts, ends, c, d) <==> Holds(old(starts), old(ends), c, d) || (c == a && d == b)
    {
      var i := BisectRight(starts, a);
      InsertKeepsIntervals(starts, ends, a, b);
      forall c, d ensures Holds(InsertAt(starts, i, a), InsertAt(ends, i, b), c, d) <==> Holds(starts, ends, c, d) || (c == a && d == b) {
        InsertHolds(starts, ends, a, b, i, c, d);
      }
      starts, ends := InsertAt(starts, i, a), InsertAt(ends, i, b);
    }
  }

  // ---------------------------------------------------------------- slots

  datatype Source = Source(h: nat, slDist: real)

  datatype Slot = Slot(slot: nat, pair: nat, direction: Direction, h: nat, slDist: real)

  datatype Placed = Placed(s: Slot, entryMs: int)

  datatype Draw = Draw(ok: bool, placed: seq<Placed>, failed: Option<nat>)

  function ExitMs(p: Placed): int {
    p.entryMs + p.s.h * MINUTE_MS
  }

  /** `SourceTrade.h`: whole minutes, at least one. */
  function HoldMinutes(entryMs: int, exitMs: int): nat {
    var up := (exitMs - entryMs + MINUTE_MS - 1) / MINUTE_MS;
    if up > 1 then up else 1
  }

  lemma HoldCovers(entryMs: int, exitMs: int)
    ensures var h := HoldMinutes(entryMs, exitMs);
      && h >= 1 && exitMs <= entryMs + h * MINUTE_MS
      && (h > 1 ==> entryMs + (h - 1) * MINUTE_MS < exitMs)
  {}

  /** Longest first, then by slot number. */
  predicate LongestFirst(x: Slot, y: Slot) {
    x.h > y.h || (x.h == y.h && x.slot <= y.slot)
  }

  predicate BySlot(x: Placed, y: Placed) {
    x.s.slot <= y.s.slot
  }

  lemma OrdersAreTotal()
    ensures Total(LongestFirst) && Total(BySlot)
  {}

  // ---------------------------------------------------------------- drawing

  /** What a draw depends on. `rng(i)` is the `i`-th random number. */
  datatype Setup = Setup(src: seq<Source>, eligible: nat -> seq<int>, sizingOk: (int, Direction, real) -> bool, attempts: nat, rng: nat -> nat)
  {
    predicate Valid() {
      forall i :: 0 <= i < |src| ==> src[i].h >= 1
    }
  }

  function Pick(u: Setup, i: nat, n: nat): nat
    requires n > 0
  {
    u.rng(i) % n
  }

  function SlotAt(u: Setup, k: nat): Slot
    requires k < |u.src|
  {
    var pair := Pick(u, 2 * k, |u.src|);
    Slot(k, pair, if Pick(u, 2 * k + 1, 2) == 0 then Long else Short, u.src[pair].h, u.src[pair].slDist)
  }

  /** Each slot is drawn with two numbers of its own: one picks the source trade it takes holding time and stop distance from,
      the other tosses the direction. */
  lemma SlotIsDrawn(u: Setup, k: nat)
    requires k < |u.src|
    ensures
      var s, picked, tossed := SlotAt(u, k), u.rng(2 * k), u.rng(2 * k + 1);
      s.slot == k && Source(s.h, s.slDist) == u.src[picked % |u.src|] && (s.direction.Long? <==> tossed % 2 == 0)
  {}

  /** A slot stands where its own holding time is eligible and its sizing is accepted. */
  predicate Fits(u: Setup, p: Placed) {
    && p.s.slot < |u.src| && p.s == SlotAt(u, p.s.slot)
    && p.entryMs in u.eligible(p.s.h) && u.sizingOk(p.entryMs, p.s.direction, p.s.slDist)
  }

  predicate Disjoint(ps: seq<Placed>) {
    forall i, j :: 0 <= i < j < |ps| ==> Apart(ps[i].entryMs, ExitMs(ps[i]), ps[j].entryMs, ExitMs(ps[j]))
  }

  predicate AllFit(u: Setup, ps: seq<Placed>) {
    forall i :: 0 <= i < |ps| ==> Fits(u, ps[i])
  }

  /** The occupied intervals are those of the placed slots. */
  ghost predicate Mirrors(starts: seq<int>, ends: seq<int>, ps: seq<Placed>)
    requires |starts| == |ends|
  {
    && (forall i :: 0 <= i < |ps| ==> Holds(starts, ends, ps[i].entryMs, ExitMs(ps[i])))
    && (forall c, d :: Holds(starts, ends, c, d) ==> exists i :: 0 <= i < |ps| && ps[i].entryMs == c && ExitMs(ps[i]) == d)
  }

  lemma FreeMeansDisjoint(starts: seq<int>, ends: seq<int>, ps: seq<Placed>, p: Placed)
    requires |starts| == |ends| && Mirrors(starts, ends, ps) && Disjoint(ps) && FreeOf(starts, ends, p.entryMs, ExitMs(p))
    ensures Disjoint(ps + [p])
  {
    forall i | 0 <= i < |ps| ensures Apart(ps[i].entryMs, ExitMs(ps[i]), p.entryMs, ExitMs(p)) {
      assert Holds(starts, ends, ps[i].entryMs, ExitMs(ps[i]));
    }
  }

  lemma MirrorsMore(s0: seq<int>, e0: seq<int>, s1: seq<int>, e1: seq<int>, ps: seq<Placed>, p: Placed)
    requires |s0| == |e0| && |s1| == |e1| && Mirrors(s0, e0, ps)
    requires forall c, d :: Holds(s1, e1, c, d) <==> Holds(s0, e0, c, d) || (c == p.entryMs && d == ExitMs(p))
    ensures Mirrors(s1, e1, ps + [p])
  {
    var all := ps + [p];
    forall i | 0 <= i < |all| ensures Holds(s1, e1, all[i].entryMs, ExitMs(all[i])) {
      if i < |ps| { assert Holds(s0, e0, ps[i].entryMs, ExitMs(ps[i])); }
    }
    forall c, d | Holds(s1, e1, c, d) ensures exists i :: 0 <= i < |all| && all[i].entryMs == c && ExitMs(all[i]) == d {
      if Holds(s0, e0, c, d) {
        var i :| 0 <= i < |ps| && ps[i].entryMs == c && ExitMs(ps[i]) == d;
        assert all[i].entryMs == c && ExitMs(all[i]) == d;
      } else {
        assert all[|ps|] == p;
      }
    }
  }

  /** Try one slot up to `attempts` times; `next` is the next random number. */
  method PlaceSlot(u: Setup, occ: Occupancy, s: Slot, start: nat, ghost ps: seq<Placed>) returns (p: Option<Placed>, next: nat)
    requires occ.Valid() && u.Valid() && s.h >= 1 && s.slot < |u.src| && s == SlotAt(u, s.slot)
    requires Mirrors(occ.starts, occ.ends, ps) && Disjoint(ps) && AllFit(u, ps)
    modifies occ
    ensures occ.Valid()
    ensures p.None? ==> occ.starts == old(occ.starts) && occ.ends == old(occ.ends)
    ensures p.None? ==> var elig := u.eligible(s.h);
      elig == [] || (next == start + u.attempts && forall a :: start <= a < next ==> Rejected(u, occ.starts, occ.ends, s, elig[Pick(u, a, |elig|)]))
    ensures p.Some? ==> p.value.s == s && Fits(u, p.value) && Disjoint(ps + [p.value]) && Mirrors(occ.starts, occ.ends, ps + [p.value])
  {
    var elig := u.eligible(s.h);
    next, p := start, None;
    if |elig| == 0 { return; }
    for a := 0 to u.attempts
      invariant next == start + a && occ.Valid() && occ.starts == old(occ.starts) && occ.ends == old(occ.ends)
      invariant forall i :: start <= i < next ==> Rejected(u, occ.starts, occ.ends, s, elig[Pick(u, i, |elig|)])
    {
      var t := elig[Pick(u, next, |elig|)];
      next := next + 1;
      var isFree := occ.Free(t, t + s.h * MINUTE_MS);
      if isFree && u.sizingOk(t, s.direction, s.slDist) {
        FreeMeansDisjoint(occ.starts, occ.ends, ps, Placed(s, t));
        occ.Add(t, t + s.h * MINUTE_MS);
        MirrorsMore(old(occ.starts), old(occ.ends), occ.starts, occ.ends, ps, Placed(s, t));
        return Some(Placed(s, t)), next;
      }
    }
  }

  predicate Rejected(u: Setup, starts: seq<int>, ends: seq<int>, s: Slot, t: int)
    requires |starts| == |ends|
  {
    !FreeOf(starts, ends, t, t + s.h * MINUTE_MS) || !u.sizingOk(t, s.direction, s.slDist)
  }

  function Slots(u: Setup, n: nat): (ss: seq<Slot>)
    requires n <= |u.src|
    ensures |ss| == n && forall k :: 0 <= k < n ==> ss[k] == SlotAt(u, k)
  {
    if n == 0 then [] else Slots(u, n - 1) + [SlotAt(u, n - 1)]
  }

  function SlotsOf(ps: seq<Placed>): (ss: seq<Slot>)
    ensures |ss| == |ps| && forall i :: 0 <= i < |ps| ==> ss[i] == ps[i].s
  {
    if ps == [] then [] else SlotsOf(ps[..|ps| - 1]) + [ps[|ps| - 1].s]
  }

  /** Every slot of the table, each once. */
  predicate SlotOrder(u: Setup, order: seq<Slot>) {
    && |order| == |u.src|
    && (forall i :: 0 <= i < |order| ==> order[i].slot < |u.src| && order[i] == SlotAt(u, order[i].slot) && order[i].h >= 1)
    && (forall i, j :: 0 <= i < j < |order| ==> order[i].slot != order[j].slot)
  }

  /** Place the slots in the given order until one finds no place. */
  method PlaceAll(u: Setup, order: seq<Slot>) returns (ps: seq<Placed>, failed: Option<nat>)
    requires u.Valid() && SlotOrder(u, order)
    ensures AllFit(u, ps) && Disjoint(ps) && |ps| <= |order| && SlotsOf(ps) == order[..|ps|]
    ensures if failed.None? then |ps| == |order| else |ps| < |order| && failed.value == order[|ps|].slot
  {
    hide AllFit, Disjoint, Mirrors, SlotAt, Fits;
    var occ := new Occupancy();
    var next: nat := 2 * |u.src|;
    ps, failed := [], None;
    NothingPlaced(u);
    while |ps| < |order|
      invariant occ.Valid() && fresh(occ) && Mirrors(occ.starts, occ.ends, ps) && Disjoint(ps) && AllFit(u, ps)
      invariant |ps| <= |order| && SlotsOf(ps) == order[..|ps|]
      decreases |order| - |ps|
    {
      var s := order[|ps|];
      var p;
      p, next := PlaceSlot(u, occ, s, next, ps);
      if p.None? { return ps, Some(s.slot); }
      MoreFit(u, ps, p.value);
      MoreSlots(ps, p.value);
      ps := ps + [p.value];
    }
  }

  /** `p1_draw_generic`. A successful draw lists every slot once, in slot order, on disjoint intervals, each
      eligible for its own holding time and accepted by sizing. A failed one names the slot that found no place,
      and what it placed is still disjoint and fitting. */
  method P1Draw(u: Setup) returns (d: Draw)
    requires u.Valid()
    ensures AllFit(u, d.placed) && Disjoint(d.placed)
    ensures d.ok ==> |d.placed| == |u.src| && forall k :: 0 <= k < |u.src| ==> d.placed[k].s == SlotAt(u, k)
    ensures !d.ok ==> d.failed.Some? && d.failed.value < |u.src| && |d.placed| < |u.src|
    ensures !d.ok ==> forall i :: 0 <= i < |d.placed| ==>
      d.placed[i].s.slot != d.failed.value && LongestFirst(d.placed[i].s, SlotAt(u, d.failed.value))
  {
    hide AllFit, Disjoint, SlotAt, Sort, Slots;
    var slots := Slots(u, |u.src|);
    var order := Sort(slots, LongestFirst);
    OrdersAreTotal();
    SortSorts(slots, LongestFirst);
    SortedSlots(u, order);
    var ps, failed := PlaceAll(u, order);
    if failed.Some? {
      forall i | 0 <= i < |ps| ensures ps[i].s.slot != failed.value && LongestFirst(ps[i].s, SlotAt(u, failed.value)) {
        assert ps[i].s == order[..|ps|][i] && LongestFirst(order[i], order[|ps|]);
      }
      return Draw(false, ps, failed);
    }
    assert order[..|ps|] == order;
    DistinctFromOrder(ps, order);
    var sorted := Sort(ps, BySlot);
    SortSorts(ps, BySlot);
    SortedPlaced(u, ps, sorted);
    d := Draw(true, sorted, None);
  }

  lemma DistinctFromOrder(ps: seq<Placed>, order: seq<Slot>)
    requires SlotsOf(ps) == order && forall i, j :: 0 <= i < j < |order| ==> order[i].slot != order[j].slot
    ensures DistinctSlots(ps)
  {
    forall i, j | 0 <= i < j < |ps| ensures ps[i].s.slot != ps[j].s.slot {
      assert ps[i].s == order[i] && ps[j].s == order[j];
    }
  }

  lemma MoreFit(u: Setup, ps: seq<Placed>, p: Placed)
    requires AllFit(u, ps) && Fits(u, p)
    ensures AllFit(u, ps + [p])
  {}

  lemma MoreSlots(ps: seq<Placed>, p: Placed)
    ensures SlotsOf(ps + [p]) == SlotsOf(ps) + [p.s]
  {
    assert (ps + [p])[..|ps|] == ps;
  }

  lemma NothingPlaced(u: Setup)
    ensures AllFit(u, []) && Disjoint([]) && Mirrors([], [], [])
  {}

  lemma SortedSlots(u: Setup, order: seq<Slot>)
    requires u.Valid() && multiset(order) == multiset(Slots(u, |u.src|))
    ensures SlotOrder(u, order)
  {
    var slots := Slots(u, |u.src|);
    assert forall k :: 0 <= k < |slots| ==> slots[k].slot == k;
    PermutationKeeps(slots, order);
    forall i | 0 <= i < |order| ensures order[i].slot < |u.src| && order[i] == SlotAt(u, order[i].slot) && order[i].h >= 1 {
      assert order[i] in slots;
      var k :| 0 <= k < |slots| && slots[k] == order[i];
    }
  }

  predicate DistinctSlots(ps: seq<Placed>) {
    forall i, j :: 0 <= i < j < |ps| ==> ps[i].s.slot != ps[j].s.slot
  }

  /** Rising slot numbers below `n`, `n` of them, are all the slot numbers. */
  lemma {:induction false} RisingSlots(ps: seq<Placed>, k: nat)
    requires k < |ps| && forall i, j :: 0 <= i < j < |ps| ==> ps[i].s.slot < ps[j].s.slot
    ensures ps[k].s.slot >= k
  {
    if k > 0 { RisingSlots(ps, k - 1); }
  }

  lemma {:induction false} RisingBelow(ps: seq<Placed>, k: nat)
    requires k < |ps| && (forall i, j :: 0 <= i < j < |ps| ==> ps[i].s.slot < ps[j].s.slot)
    requires forall i :: 0 <= i < |ps| ==> ps[i].s.slot < |ps|
    ensures ps[k].s.slot <= k
    decreases |ps| - k
  {
    if k + 1 < |ps| { RisingBelow(ps, k + 1); }
  }

  lemma SortedPlaced(u: Setup, ps: seq<Placed>, sorted: seq<Placed>)
    requires AllFit(u, ps) && Disjoint(ps) && DistinctSlots(ps) && |ps| == |u.src|
    requires multiset(sorted) == multiset(ps) && InOrder(sorted, BySlot)
    ensures AllFit(u, sorted) && Disjoint(sorted) && |sorted| == |ps|
    ensures forall k :: 0 <= k < |sorted| ==> sorted[k].s == SlotAt(u, k)
  {
    PermutationKeeps(ps, sorted);
    forall i | 0 <= i < |sorted| ensures Fits(u, sorted[i]) {
      assert sorted[i] in ps;
    }
    forall i, j | 0 <= i < j < |sorted|
      ensures sorted[i].s.slot < sorted[j].s.slot
      ensures Apart(sorted[i].entryMs, ExitMs(sorted[i]), sorted[j].entryMs, ExitMs(sorted[j]))
    {
      assert sorted[i] in ps && sorted[j] in ps;
      var a :| 0 <= a < |ps| && ps[a] == sorted[i];
      var b :| 0 <= b < |ps| && ps[b] == sorted[j];
      assert a != b && BySlot(sorted[i], sorted[j]);
      assert DistinctSlots(ps) && (a < b || b < a);
    }
    forall k | 0 <= k < |sorted| ensures sorted[k].s == SlotAt(u, k) {
      RisingSlots(sorted, k);
      RisingBelow(sorted, k);
    }
  }
}
