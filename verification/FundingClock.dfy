/** Funding boundaries over the ticks of one process life (paper/engine.py:235-257, 389-409): which of them a tick
    settles or reports missed. What becomes of them across crashes is `FundingRuns`. */
module FundingClock {
  import opened Types
  import opened EngineTypes
  import opened EngineModel

  /** Boundaries an event disposes of. */
  function HandledBy(e: Event): seq<int> {
    match e
    case FundingSettled(ts, _, _, _, _, _) => [ts]
    case FundingMissed(_, boundaries, _) => boundaries
    case _ => []
  }

  function Handled(evs: seq<Event>): seq<int> {
    if evs == [] then [] else HandledBy(evs[0]) + Handled(evs[1..])
  }

  /** The next boundary the engine has not disposed of yet. */
  function Cursor(s: EngineState): Option<int> {
    NextFunding(s)
  }

  /** The feed's promise: the announced funding time is the first grid point after the tick. */
  predicate Announces(t: MarkTick, step: int)
    requires step > 0
  {
    t.nextFunding % step == 0 && t.ts < t.nextFunding <= t.ts + step
  }

  /** A tick whose announced funding time contradicts the interval raises before anything else; any other is remembered. */
  lemma GridIsKept(c: Config, s: EngineState, t: MarkTick, x: TickScript)
    ensures
      if c.fundingHours == 0 || exists k: int :: t.nextFunding == k * (c.fundingHours * HOUR_MS)
      then OnTick(c, s, t, x).st.lastTick == Some(t) else OnTick(c, s, t, x) == Step(s, [], true)
  {
    hide FundingOnTick, ExecuteEntry, Judge;
    var step := c.fundingHours * HOUR_MS;
    if c.fundingHours > 0 {
      if t.nextFunding % step == 0 {
        var k := t.nextFunding / step;
        assert t.nextFunding == k * step;
      } else if k: int :| t.nextFunding == k * step {
        GridPoint(0, k, t.nextFunding, step);
      }
    }
  }

  // ---------------------------------------------------------------- the grid

  /** `Boundaries` lists, in ascending order and without omission, the grid points of an interval. */
  lemma {:induction false} BoundariesAreTheGrid(first: int, upTo: int, step: int)
    requires step > 0
    ensures var bs := Boundaries(first, upTo, step);
      && (forall i :: 0 <= i < |bs| ==> bs[i] == first + i * step && first <= bs[i] <= upTo)
      && first + |bs| * step > upTo
      && (|bs| > 0 ==> first + (|bs| - 1) * step <= upTo)
    decreases upTo - first + 1
  {
    var bs := Boundaries(first, upTo, step);
    if first <= upTo {
      BoundariesAreTheGrid(first + step, upTo, step);
      var rest := Boundaries(first + step, upTo, step);
      forall i | 0 <= i < |bs| ensures bs[i] == first + i * step && first <= bs[i] <= upTo {
        if i > 0 {
          assert bs[i] == rest[i - 1];
          assert (i - 1) * step + step == i * step;
        }
      }
      assert |rest| * step + step == |bs| * step;
      assert (|rest| - 1) * step + step == |rest| * step;
    }
  }

  lemma GridPoint(first: int, i: int, g: int, step: int)
    requires step > 0 && first % step == 0 && g == first + i * step
    ensures g % step == 0
  {
    OnGrid(first, i, step);
  }

  lemma GridAscending(first: int, upTo: int, step: int, i: int, j: int)
    requires step > 0 && 0 <= i < j < |Boundaries(first, upTo, step)|
    ensures Boundaries(first, upTo, step)[i] < Boundaries(first, upTo, step)[j]
  {
    BoundariesAreTheGrid(first, upTo, step);
    Scale(i + 1, j, step);
    DistributeInt(i, 1, step);
  }

  lemma GridReached(first: int, upTo: int, step: int, k: int)
    requires step > 0 && k >= 0 && first + k * step <= upTo
    ensures k < |Boundaries(first, upTo, step)|
  {
    BoundariesAreTheGrid(first, upTo, step);
    if k >= |Boundaries(first, upTo, step)| {
      Scale(|Boundaries(first, upTo, step)|, k, step);
    }
  }

  /** A time is listed exactly when it is a grid point of the interval, and the list is strictly ascending, so
      no boundary is listed twice. */
  lemma GridMember(first: int, upTo: int, step: int, g: int)
    requires step > 0 && first % step == 0
    ensures g in Boundaries(first, upTo, step) <==> first <= g <= upTo && g % step == 0
    ensures forall i, j :: 0 <= i < j < |Boundaries(first, upTo, step)| ==>
      Boundaries(first, upTo, step)[i] < Boundaries(first, upTo, step)[j]
  {
    var bs := Boundaries(first, upTo, step);
    BoundariesAreTheGrid(first, upTo, step);
    if first <= g <= upTo && g % step == 0 {
      var k := ExactMultiple(first, g, step);
      GridReached(first, upTo, step, k);
      assert bs[k] == g;
    }
    if g in bs {
      var i :| 0 <= i < |bs| && bs[i] == g;
      GridPoint(first, i, g, step);
    }
    forall i, j | 0 <= i < j < |bs| ensures bs[i] < bs[j] {
      GridAscending(first, upTo, step, i, j);
    }
  }

  lemma Scale(a: int, b: int, step: int)
    requires step > 0 && a <= b
    ensures a * step <= b * step
  {}

  lemma OnGrid(first: int, i: int, step: int)
    requires step > 0 && first % step == 0
    ensures (first + i * step) % step == 0
  {
    var q := first / step;
    DivMod(first, step);
    DistributeInt(q, i, step);
    ModOfMultiple(first + i * step, q + i, step);
  }

  lemma DivMod(x: int, step: int)
    requires step > 0
    ensures x == x / step * step + x % step && 0 <= x % step < step
  {}

  lemma DistributeInt(a: int, b: int, s: int)
    ensures (a - b) * s == a * s - b * s && (a + b) * s == a * s + b * s
  {}

  lemma UniqueQuotient(k: int, q: int, r: int, step: int)
    requires step > 0 && k * step == q * step + r && 0 <= r < step
    ensures k == q && r == 0
  {
    DistributeInt(k, q, step);
    if k > q {
      Scale(1, k - q, step);
    } else if k < q {
      Scale(k - q, -1, step);
    }
  }

  lemma ModOfMultiple(x: int, k: int, step: int)
    requires step > 0 && x == k * step
    ensures x % step == 0 && x / step == k
  {
    DivMod(x, step);
    UniqueQuotient(k, x / step, x % step, step);
  }

  lemma ExactMultiple(first: int, g: int, step: int) returns (k: int)
    requires step > 0 && first % step == 0 && g % step == 0 && first <= g
    ensures k >= 0 && g == first + k * step
  {
    DivMod(first, step);
    DivMod(g, step);
    k := g / step - first / step;
    DistributeInt(g / step, first / step, step);
    if k < 0 {
      Scale(k, -1, step);
    }
  }

  /** Consecutive stretches of the grid join: up to `a`, then from the first grid point after `a` up to `b`. */
  lemma {:induction false} GridJoin(first: int, a: int, next: int, b: int, step: int)
    requires step > 0 && first % step == 0 && next % step == 0
    requires a < next <= a + step && a <= b && first <= next
    ensures Boundaries(first, a, step) + Boundaries(next, b, step) == Boundaries(first, b, step)
    decreases next - first
  {
    if first > a {
      SameCell(first, next, a, step);
      assert first == next;
    } else {
      NextCell(first, next, step);
      OnGrid(first, 1, step);
      assert (first + 1 * step) % step == 0;
      GridJoin(first + step, a, next, b, step);
    }
  }

  lemma SameCell(x: int, y: int, a: int, step: int)
    requires step > 0 && x % step == 0 && y % step == 0 && a < x <= y <= a + step
    ensures x == y
  {
    if x < y { NextCell(x, y, step); }
  }

  lemma NextCell(x: int, y: int, step: int)
    requires step > 0 && x % step == 0 && y % step == 0 && x < y
    ensures x + step <= y
  {
    DivMod(x, step);
    DivMod(y, step);
    var p, q := x / step, y / step;
    if q <= p { Scale(q, p, step); }
    Scale(p + 1, q, step);
    DistributeInt(p, 1, step);
  }

  // ---------------------------------------------------------------- one tick

  function Step0(c: Config): int {
    c.fundingHours * HOUR_MS
  }

  /** The engine's clock is consistent: its last tick announced a boundary, or it was restored with one. */
  predicate ClockOk(c: Config, s: EngineState)
    requires c.fundingHours > 0
  {
    && Cursor(s).Some?
    && Cursor(s).value % Step0(c) == 0
    && (s.lastTick.Some? ==> Announces(s.lastTick.value, Step0(c)))
  }

  lemma HandledAppend(a: seq<Event>, b: seq<Event>)
    ensures Handled(a + b) == Handled(a) + Handled(b)
  {
    if a == [] {
      assert a + b == b;
    } else {
      assert (a + b)[1..] == a[1..] + b;
      HandledAppend(a[1..], b);
    }
  }

  /** The funding part of a tick disposes of exactly the boundaries from the cursor up to the tick. */
  lemma TickHandles(c: Config, s: EngineState, t: MarkTick)
    requires c.fundingHours > 0 && s.position.Some? && ClockOk(c, s)
    ensures Handled(FundingOnTick(c, s, t).events) == Boundaries(Cursor(s).value, t.ts, Step0(c))
  {
    var evs := FundingOnTick(c, s, t).events;
    var g := Cursor(s).value;
    if g <= t.ts {
      var missed := Boundaries(g + Step0(c), t.ts, Step0(c));
      if s.lastTick.None? {
        HandledTwo(evs);
      } else if missed == [] {
        assert evs[1..] == [];
      } else {
        assert |evs| == 3;
        HandledThree(evs);
      }
    }
  }

  lemma HandledTwo(evs: seq<Event>)
    requires |evs| == 2
    ensures Handled(evs) == HandledBy(evs[0]) + HandledBy(evs[1])
  {
    assert evs[1..][0] == evs[1] && evs[1..][1..] == [];
    assert Handled(evs[1..]) == HandledBy(evs[1]) + [];
  }

  lemma HandledThree(evs: seq<Event>)
    requires |evs| == 3
    ensures Handled(evs) == HandledBy(evs[0]) + HandledBy(evs[1]) + HandledBy(evs[2])
  {
    assert evs[1..][1..][1..] == [];
    assert evs[1..][1..][0] == evs[2];
    assert Handled(evs[1..][1..]) == HandledBy(evs[2]) + [];
  }

  /** Only the funding part of a tick disposes of boundaries. */
  lemma OnlyFundingHandles(c: Config, s: EngineState, t: MarkTick, x: TickScript)
    requires GridOk(c, t) && s.pending.None?
    ensures Handled(OnTick(c, s, t, x).events) == Handled(FundingOnTick(c, s, t).events)
    ensures NextFunding(OnTick(c, s, t, x).st) == Some(t.nextFunding)
    ensures OnTick(c, s, t, x).st.lastTick == Some(t)
  {
    var funded := FundingOnTick(c, s, t);
    var s1 := funded.st.(lastTick := Some(t));
    var judged := Judge(c, s1, t.ts, t.mark, t.mark, t.mark, t.mark, t.mark, x.exit);
    assert EntryOnTick(c, s1, t.ts, t.mark, x.entry, x.gateExit) == Step(s1, [], false);
    assert OnTick(c, s, t, x).events == funded.events + ([] + judged.events);
    JudgeHandlesNothing(c, s1, t.ts, t.mark, t.mark, t.mark, t.mark, t.mark, x.exit);
    NothingHandled([] + judged.events);
    HandledAppend(funded.events, [] + judged.events);
  }

  predicate FundingFree(evs: seq<Event>) {
    forall e :: e in evs ==> !e.FundingSettled? && !e.FundingMissed?
  }

  predicate OpensNothing(evs: seq<Event>) {
    forall e :: e in evs ==> !e.EntryFilled?
  }

  lemma {:induction false} NothingHandled(evs: seq<Event>)
    requires FundingFree(evs)
    ensures Handled(evs) == []
  {
    if evs != [] {
      assert evs[0] in evs;
      NothingHandled(evs[1..]);
    }
  }

  lemma SendHandlesNothing(c: Config, s: EngineState, reason: ExitReason, refMark: real, ts: int, x: ExitScript)
    requires s.position.Some?
    ensures FundingFree(SendExit(c, s, reason, refMark, ts, x).events) && OpensNothing(SendExit(c, s, reason, refMark, ts, x).events)
  {}

  lemma AfterHandlesNothing(c: Config, done: Step, ts: int, x: ExitScript)
    requires FundingFree(done.events) && OpensNothing(done.events)
    ensures FundingFree(AfterExit(c, done, ts, x).events) && OpensNothing(AfterExit(c, done, ts, x).events)
  {}

  lemma ExitHandlesNothing(c: Config, s: EngineState, reason: ExitReason, refMark: real, ts: int, x: ExitScript)
    requires s.position.Some?
    ensures FundingFree(DoExit(c, s, reason, refMark, ts, x).events) && OpensNothing(DoExit(c, s, reason, refMark, ts, x).events)
  {
    hide SendExit, TakerFee, AfterExit;
    SendHandlesNothing(c, s, reason, refMark, ts, x);
    AfterHandlesNothing(c, SendExit(c, s, reason, refMark, ts, x), ts, x);
    if x.read.None? {
      var failed := Step(Block(s, ReadFailed), [EntriesBlocked(ts, ReadFailed)], false);
      SendHandlesNothing(c, failed.st, reason, refMark, ts, x);
      AfterHandlesNothing(c, Then(failed, SendExit(c, failed.st, reason, refMark, ts, x)), ts, x);
    } else if x.read.value.amt != 0.0 {
      var synced := ResyncQty(c, s, refMark, ts, x.read.value);
      SendHandlesNothing(c, synced.st, reason, refMark, ts, x);
      AfterHandlesNothing(c, Then(synced, SendExit(c, synced.st, reason, refMark, ts, x)), ts, x);
    }
  }

  lemma TrailHandlesNothing(s: EngineState, ts: int, low: real, high: real)
    ensures FundingFree(TrailStep(s, ts, low, high).events) && OpensNothing(TrailStep(s, ts, low, high).events)
  {}

  lemma JudgeHandlesNothing(c: Config, s: EngineState, ts: int, low: real, high: real, slRef: real, tpRef: real, mark: real, x: ExitScript)
    ensures FundingFree(Judge(c, s, ts, low, high, slRef, tpRef, mark, x).events)
    ensures OpensNothing(Judge(c, s, ts, low, high, slRef, tpRef, mark, x).events)
  {
    hide DoExit, TrailStep, LiquidationLoss;
    if s.position.Some? {
      TrailHandlesNothing(Evaluate(c, s, ts, low, high, slRef, tpRef, mark, x).st, ts, low, high);
      var p := s.position.value;
      var alerted := s.(position := Some(p.(liqAlerted := true)));
      var why := if p.trail.Some? && p.trail.value.moved then TrailStop else StopLoss;
      ExitHandlesNothing(c, s, why, slRef, ts, x);
      ExitHandlesNothing(c, alerted, why, slRef, ts, x);
      ExitHandlesNothing(c, s, TakeProfit, tpRef, ts, x);
      ExitHandlesNothing(c, alerted, TakeProfit, tpRef, ts, x);
    }
  }

  // ---------------------------------------------------------------- the ticks of one process life

  /** A tick, with the exchange's answers. */
  datatype TickIn = TickIn(t: MarkTick, x: TickScript)

  datatype Ticked = Ticked(st: EngineState, handled: seq<int>)

  /** Ticks in any order of times that find the position held, with nothing pending. Each may raise. */
  ghost predicate Held(c: Config, s: EngineState, ticks: seq<TickIn>)
    requires c.fundingHours > 0
    decreases |ticks|
  {
    ticks == [] ||
    (&& s.position.Some? && s.pending.None?
     && Announces(ticks[0].t, Step0(c))
     && Held(c, OnTick(c, s, ticks[0].t, ticks[0].x).st, ticks[1..]))
  }

  function RunTicks(c: Config, s: EngineState, ticks: seq<TickIn>): Ticked
    decreases |ticks|
  {
    if ticks == [] then Ticked(s, [])
    else
      var one := OnTick(c, s, ticks[0].t, ticks[0].x);
      var rest := RunTicks(c, one.st, ticks[1..]);
      Ticked(rest.st, Handled(one.events) + rest.handled)
  }

  /** Tick times never go back from `last` on. */
  predicate InOrder(last: int, ticks: seq<TickIn>)
    decreases |ticks|
  {
    ticks == [] || (last <= ticks[0].t.ts && InOrder(ticks[0].t.ts, ticks[1..]))
  }

  function LastTime(last: int, ticks: seq<TickIn>): int
    decreases |ticks|
  {
    if ticks == [] then last else LastTime(ticks[0].t.ts, ticks[1..])
  }

  lemma TickDisposes(c: Config, s: EngineState, i: TickIn)
    requires c.fundingHours > 0 && ClockOk(c, s) && Held(c, s, [i])
    ensures
      var step := OnTick(c, s, i.t, i.x);
      && Handled(step.events) == Boundaries(Cursor(s).value, i.t.ts, Step0(c))
      && ClockOk(c, step.st) && step.st.lastTick == Some(i.t) && Cursor(step.st) == Some(i.t.nextFunding)
  {
    hide FundingOnTick, OnTick;
    TickHandles(c, s, i.t);
    AnnouncedIsOnGrid(c, i.t);
    OnlyFundingHandles(c, s, i.t, i.x);
  }

  lemma AnnouncedIsOnGrid(c: Config, t: MarkTick)
    requires c.fundingHours > 0 && Announces(t, Step0(c))
    ensures GridOk(c, t)
  {}

  /** Main theorem on one process life, which may begin with a restored position: over ticks that do not go back in time
      the boundaries disposed of are exactly the grid points from the initial cursor to the last tick, ascending,
      settled or reported missed: each one once, none left out. */
  lemma {:induction false} EveryBoundaryOnce(c: Config, s: EngineState, last: int, ticks: seq<TickIn>)
    requires c.fundingHours > 0 && ClockOk(c, s) && Held(c, s, ticks) && InOrder(last, ticks)
    requires last < Cursor(s).value <= last + Step0(c)
    ensures RunTicks(c, s, ticks).handled == Boundaries(Cursor(s).value, LastTime(last, ticks), Step0(c))
    ensures last <= LastTime(last, ticks)
    decreases |ticks|
  {
    hide OnTick, FundingOnTick, Judge;
    var g := Cursor(s).value;
    if ticks == [] {
      assert Boundaries(g, last, Step0(c)) == [];
    } else {
      var t := ticks[0].t;
      var st := OnTick(c, s, t, ticks[0].x).st;
      assert [ticks[0]][1..] == [];
      TickDisposes(c, s, ticks[0]);
      EveryBoundaryOnce(c, st, t.ts, ticks[1..]);
      CursorAdvances(g, last, t, Step0(c));
      GridJoin(g, t.ts, t.nextFunding, LastTime(t.ts, ticks[1..]), Step0(c));
    }
  }

  lemma CursorAdvances(g: int, last: int, t: MarkTick, step: int)
    requires step > 0 && g % step == 0 && last < g <= last + step && last <= t.ts && Announces(t, step)
    ensures g <= t.nextFunding
  {
    if t.nextFunding < g {
      NextCell(t.nextFunding, g, step);
    }
  }

  // ---------------------------------------------------------------- times that go back

  /** Where the clock stands: at the last tick, or just before the restored boundary. */
  function Stands(s: EngineState): int
    requires Cursor(s).Some?
  {
    if s.lastTick.Some? then s.lastTick.value.ts else Cursor(s).value - 1
  }

  /** How often the times of the ticks, starting at `from`, go up past `g`. */
  function Crossings(g: int, from: int, ticks: seq<TickIn>): nat
    decreases |ticks|
  {
    if ticks == [] then 0
    else (if from < g <= ticks[0].t.ts then 1 else 0) + Crossings(g, ticks[0].t.ts, ticks[1..])
  }

  lemma CrossedIffListed(c: Config, s: EngineState, t: MarkTick, g: int)
    requires c.fundingHours > 0 && ClockOk(c, s) && g % Step0(c) == 0
    ensures multiset(Boundaries(Cursor(s).value, t.ts, Step0(c)))[g] == if Stands(s) < g <= t.ts then 1 else 0
  {
    var step := Step0(c);
    GridMember(Cursor(s).value, t.ts, step, g);
    CountOnce(Boundaries(Cursor(s).value, t.ts, step), g);
    if s.lastTick.Some? && Stands(s) < g < Cursor(s).value {
      NextCell(g, Cursor(s).value, step);
    }
  }

  lemma {:induction false} CountOnce(xs: seq<int>, g: int)
    requires forall i, j :: 0 <= i < j < |xs| ==> xs[i] < xs[j]
    ensures multiset(xs)[g] == if g in xs then 1 else 0
  {
    if xs != [] {
      assert xs == [xs[0]] + xs[1..];
      CountOnce(xs[1..], g);
      assert forall j :: 1 <= j < |xs| ==> xs[0] < xs[j];
    }
  }

  /** Main theorem on any order of times: a grid boundary is settled or reported once per upward crossing. So with times
      that go back it is disposed of twice exactly if they come up past it twice. */
  lemma {:induction false} OncePerCrossing(c: Config, s: EngineState, ticks: seq<TickIn>, g: int)
    requires c.fundingHours > 0 && ClockOk(c, s) && Held(c, s, ticks) && g % Step0(c) == 0
    ensures multiset(RunTicks(c, s, ticks).handled)[g] == Crossings(g, Stands(s), ticks)
    decreases |ticks|
  {
    hide OnTick, Boundaries;
    if ticks != [] {
      var one := OnTick(c, s, ticks[0].t, ticks[0].x);
      assert [ticks[0]][1..] == [];
      TickDisposes(c, s, ticks[0]);
      CrossedIffListed(c, s, ticks[0].t, g);
      OncePerCrossing(c, one.st, ticks[1..], g);
    }
  }
}
