module FundingRuns {
  // Funding boundaries across crashes (paper/engine.py:235-257, 329-354, db/record.py:346-355, ops/runtime.py:81-82, 355-417).
  // A tick settles or reports boundaries, its batch may wait in the queue or be lost, and a restart goes on from the
  // next boundary of the last snapshot. Every grid point while a position is open is listed by the rows of that
  // position once, and once more for every restart that went back past it, less those that raising ticks swallowed.

  import opened Types
  import Steps
  import opened EngineTypes
  import opened EngineModel
  import opened Accounting
  import opened PaperRuns
  import opened Rows
  import opened Restore
  import opened FundingClock
  import opened Runtime

  // ---------------------------------------------------------------- the boundaries the rows list

  /** Boundaries of the rows a root owns, in the order of the rows. */
  function Owned(rows: seq<FundRow>, root: nat): seq<int>
    decreases |rows|
  {
    if rows == [] then []
    else
      var n := |rows| - 1;
      Owned(rows[..n], root) + (if rows[n].owner == Some(root) then rows[n].boundaries else [])
  }

  lemma OwnedAppend(rows: seq<FundRow>, row: FundRow, root: nat)
    ensures Owned(rows + [row], root) == Owned(rows, root) + (if row.owner == Some(root) then row.boundaries else [])
  {
    assert (rows + [row])[..|rows|] == rows;
  }

  lemma {:induction false} FreshOwned(rows: seq<FundRow>, n: nat, root: nat)
    requires n <= root && forall i :: 0 <= i < |rows| && rows[i].owner.Some? ==> rows[i].owner.value < n
    ensures Owned(rows, root) == []
    decreases |rows|
  {
    if rows != [] {
      FreshOwned(rows[..|rows| - 1], n, root);
    }
  }

  /** Settled rows of the root lie before the stored snapshot's next boundary and were never rewound. */
  ghost predicate SettledSafe(rows: seq<FundRow>, root: nat, saved: int, rewound: multiset<int>) {
    forall i :: 0 <= i < |rows| && rows[i].owner == Some(root) && !rows[i].missed ==>
      rows[i].boundaries == [rows[i].ts] && rows[i].ts < saved && rows[i].ts !in rewound
  }

  /** Funding events first, and none after them. */
  predicate FundingFirst(evs: seq<Event>)
    decreases |evs|
  {
    FundingFree(evs) || ((evs[0].FundingSettled? || evs[0].FundingMissed? || evs[0].EntriesBlocked?) && FundingFirst(evs[1..]))
  }

  lemma {:induction false} FirstThenFree(a: seq<Event>, b: seq<Event>)
    requires (forall e :: e in a ==> e.FundingSettled? || e.FundingMissed? || e.EntriesBlocked?) && FundingFree(b)
    ensures FundingFirst(a + b)
    decreases |a|
  {
    if a == [] {
      assert a + b == b;
    } else {
      assert (a + b)[1..] == a[1..] + b;
      assert a[0] in a;
      FirstThenFree(a[1..], b);
    }
  }

  lemma {:induction false} FreeKeepsRows(db: Db, evs: seq<Event>, tp: Option<real>)
    requires FundingFree(evs)
    ensures WriteEvents(db, evs, tp).fundings == db.fundings
    decreases |evs|
  {
    if evs != [] {
      assert evs[0] in evs;
      FreeKeepsRows(WriteEvent(db, evs[0], tp), evs[1..], tp);
    }
  }

  lemma FundingKeepsMirror(db: Db, l: LedgerPos, root: nat, e: Event, tp: Option<real>)
    requires Mirrors(db.positions, Some(l), root) && (e.FundingSettled? || e.FundingMissed? || e.EntriesBlocked?)
    ensures
      var l1, db1 := LedgerStep(Some(l), e, tp), WriteEvent(db, e, tp);
      && l1.Some? && Mirrors(db1.positions, l1, root)
      && Owned(db1.fundings, root) == Owned(db.fundings, root) + HandledBy(e)
      && (forall other: nat | other != root :: Owned(db1.fundings, other) == Owned(db.fundings, other))
  {
    EventMirrors(db, Some(l), root, e, tp);
    MirrorFindsRoot(db.positions, Some(l), root);
    if !e.EntriesBlocked? {
      var row := WriteEvent(db, e, tp).fundings[|db.fundings|];
      forall other: nat ensures Owned(db.fundings + [row], other) == Owned(db.fundings, other) + (if other == root then row.boundaries else []) {
        OwnedAppend(db.fundings, row, other);
      }
    }
  }

  /** A batch's funding rows belong to the open root and list what its events dispose of. */
  lemma {:induction false} OwnedAfter(db: Db, l: Option<LedgerPos>, root: nat, evs: seq<Event>, tp: Option<real>)
    requires l.Some? && Mirrors(db.positions, l, root) && FundingFirst(evs)
    ensures Owned(WriteEvents(db, evs, tp).fundings, root) == Owned(db.fundings, root) + Handled(evs)
    ensures forall other: nat | other != root :: Owned(WriteEvents(db, evs, tp).fundings, other) == Owned(db.fundings, other)
    decreases |evs|
  {
    hide Mirrors, WriteEvent, LedgerStep, Owned, HandledBy, OpensNothing;
    if FundingFree(evs) {
      FreeKeepsRows(db, evs, tp);
      NothingHandled(evs);
    } else {
      FundingKeepsMirror(db, l.value, root, evs[0], tp);
      OwnedAfter(WriteEvent(db, evs[0], tp), LedgerStep(l, evs[0], tp), root, evs[1..], tp);
    }
  }

  lemma {:induction false} SettledAfter(db: Db, root: nat, evs: seq<Event>, tp: Option<real>, saved: int, rewound: multiset<int>)
    requires SettledSafe(db.fundings, root, saved, rewound)
    requires forall e :: e in evs && e.FundingSettled? ==> e.ts < saved && e.ts !in rewound
    ensures SettledSafe(WriteEvents(db, evs, tp).fundings, root, saved, rewound)
    decreases |evs|
  {
    if evs != [] {
      assert evs[0] in evs;
      SettledAfter(WriteEvent(db, evs[0], tp), root, evs[1..], tp, saved, rewound);
    }
  }

  // ---------------------------------------------------------------- the grid

  /** The first grid point after `ts`. */
  function NextGrid(ts: int, step: int): int
    requires step > 0
  {
    (ts / step + 1) * step
  }

  lemma NextGridIs(ts: int, g: int, step: int)
    requires step > 0 && g % step == 0 && ts < g <= ts + step
    ensures g == NextGrid(ts, step)
  {
    NextGridOnGrid(ts, step);
    DivMod(ts, step);
    DistributeInt(ts / step, 1, step);
    SameCell(if g < NextGrid(ts, step) then g else NextGrid(ts, step), if g < NextGrid(ts, step) then NextGrid(ts, step) else g, ts, step);
  }

  lemma NextGridOnGrid(ts: int, step: int)
    requires step > 0
    ensures NextGrid(ts, step) % step == 0
  {
    ModOfMultiple(NextGrid(ts, step), ts / step + 1, step);
  }

  /** Up to the announced boundary there is no grid point beyond the tick. */
  lemma {:induction false} UpToAnnounced(g: int, t: MarkTick, step: int)
    requires step > 0 && g % step == 0 && g <= t.ts + step && Announces(t, step)
    ensures g <= t.nextFunding
    ensures Boundaries(g, t.ts, step) == Boundaries(g, t.nextFunding - 1, step)
    decreases t.ts + step - g
  {
    if g > t.ts {
      SameCell(if g < t.nextFunding then g else t.nextFunding, if g < t.nextFunding then t.nextFunding else g, t.ts, step);
    } else {
      OnGrid(g, 1, step);
      assert (g + 1 * step) % step == 0;
      UpToAnnounced(g + step, t, step);
    }
  }

  /** Stretches of boundaries join at a grid point. */
  lemma Stretches(first: int, g: int, h: int, step: int)
    requires step > 0 && first % step == 0 && g % step == 0 && first <= g <= h
    ensures Boundaries(first, g - 1, step) + Boundaries(g, h - 1, step) == Boundaries(first, h - 1, step)
  {
    GridJoin(first, g - 1, g, h - 1, step);
  }

  // ---------------------------------------------------------------- what committed and queued batches say

  /** The stored snapshot's next boundary. */
  function Saved(db: Db): Option<int> {
    if SnapState(db).None? then None else SnapState(db).value.nextFunding
  }

  ghost predicate AllBy(times: multiset<int>, now: int) {
    forall g :: g in times ==> g <= now
  }

  lemma AllByJoin(a: seq<int>, b: seq<int>, now: int)
    requires AllBy(multiset(a), now) && forall g :: g in b ==> g <= now
    ensures AllBy(multiset(a + b), now)
  {
    forall g | g in multiset(a + b) ensures g <= now {
      assert g in a + b;
      assert g in a ==> g in multiset(a);
    }
  }

  lemma NoneLater(now: int)
    ensures AllBy(multiset([]), now) && AllBy(multiset{}, now)
  {}

  /** The rows of the open position list every boundary from the first after its entry to the next one, but for those
      swallowed, and again those a restart went back past; the ones since the stored snapshot are the unsaved. */
  ghost predicate ListedOk(db: Db, f: Funded, l: LedgerPos, root: nat, step: int, now: int)
    requires step > 0
  {
    && f.next.Some? && Saved(db).Some?
    && var first, saved, next := NextGrid(l.openedMs, step), Saved(db).value, f.next.value;
    && saved % step == 0 && next % step == 0 && first <= saved <= next <= now + step
    && f.unsaved == Boundaries(saved, next - 1, step)
    && multiset(Owned(db.fundings, root)) + f.swallowed == multiset(Boundaries(first, next - 1, step)) + f.rewound
    && AllBy(f.rewound, now) && AllBy(multiset(f.unsaved), now)
    && SettledSafe(db.fundings, root, saved, f.rewound)
  }

  /** The batch and what was untold before it dispose of exactly the boundaries from `next` to its own next one. */
  predicate HandsOn(next: Option<int>, q: Queued, step: int, now: int)
    requires step > 0
  {
    && next.Some? && q.next.Some?
    && next.value <= q.next.value <= now + step && next.value % step == 0 && q.next.value % step == 0
    && q.untold.boundaries + Handled(q.batch.events) == Boundaries(next.value, q.next.value - 1, step)
  }

  /** A batch that may follow a ledger `l` whose next boundary is `next`. */
  ghost predicate BatchFunds(l: Option<LedgerPos>, next: Option<int>, rewound: multiset<int>, q: Queued, step: int, now: int)
    requires step > 0
  {
    var b := q.batch;
    var l1 := Ledger(l, b.events, b.tp);
    && FundingFirst(b.events)
    && (forall g :: g in q.untold.boundaries + Handled(b.events) ==> g <= now)
    && (l.None? ==> FundingFree(b.events))
    && (l.None? ==> q.untold.boundaries == [])
    && (l.None? && l1.Some? ==>
          HasEntry(b.events) && b.snapshot.Some? && q.next == Some(NextGrid(l1.value.openedMs, step)) && q.next.value <= now + step)
    && (l.Some? ==> !HasEntry(b.events) && ((IsAbandon(b) && q.untold.boundaries == []) || HandsOn(next, q, step, now)))
    && (l1.Some? && b.snapshot.Some? ==> b.snapshot.value.state.Some? && b.snapshot.value.state.value.nextFunding == q.next)
    && (forall e :: e in b.events && e.FundingSettled? ==> b.snapshot.Some? && forall g :: g in rewound ==> g < e.ts)
  }

  function RewoundAfter(rewound: multiset<int>, b: Batch): multiset<int> {
    if HasEntry(b.events) then multiset{} else rewound
  }

  ghost predicate QueueFunds(l: Option<LedgerPos>, next: Option<int>, rewound: multiset<int>, queue: seq<Queued>, step: int, now: int)
    requires step > 0
    decreases |queue|
  {
    queue == [] ||
    (&& BatchFunds(l, next, rewound, queue[0], step, now)
     && QueueFunds(Ledger(l, queue[0].batch.events, queue[0].batch.tp), queue[0].next, RewoundAfter(rewound, queue[0].batch), queue[1..], step, now))
  }

  function TailNext(next: Option<int>, queue: seq<Queued>): Option<int> {
    if queue == [] then next else queue[|queue| - 1].next
  }

  function TailRewound(rewound: multiset<int>, queue: seq<Queued>): multiset<int>
    decreases |queue|
  {
    if queue == [] then rewound else TailRewound(RewoundAfter(rewound, queue[0].batch), queue[1..])
  }

  lemma {:induction false} QueueFundsAppend(l: Option<LedgerPos>, next: Option<int>, rewound: multiset<int>, queue: seq<Queued>, q: Queued,
                                            step: int, now: int)
    requires step > 0 && QueueFunds(l, next, rewound, queue, step, now)
    requires BatchFunds(Tail(l, queue), TailNext(next, queue), TailRewound(rewound, queue), q, step, now)
    ensures QueueFunds(l, next, rewound, queue + [q], step, now)
    ensures TailRewound(rewound, queue + [q]) == RewoundAfter(TailRewound(rewound, queue), q.batch)
    decreases |queue|
  {
    hide BatchFunds;
    var all := queue + [q];
    if queue == [] {
      assert all[1..] == [];
    } else {
      assert all[1..] == queue[1..] + [q];
      QueueFundsAppend(Ledger(l, queue[0].batch.events, queue[0].batch.tp), queue[0].next, RewoundAfter(rewound, queue[0].batch),
                       queue[1..], q, step, now);
    }
  }

  lemma {:induction false} QueueFundsLater(l: Option<LedgerPos>, next: Option<int>, rewound: multiset<int>, queue: seq<Queued>,
                                           step: int, now: int, later: int)
    requires step > 0 && QueueFunds(l, next, rewound, queue, step, now) && now <= later
    ensures QueueFunds(l, next, rewound, queue, step, later)
    decreases |queue|
  {
    if queue != [] {
      QueueFundsLater(Ledger(l, queue[0].batch.events, queue[0].batch.tp), queue[0].next, RewoundAfter(rewound, queue[0].batch),
                      queue[1..], step, now, later);
    }
  }

  // ---------------------------------------------------------------- one committed batch

  lemma {:induction false} NoEntryKeepsTrade(db: Db, root: nat, l: Option<LedgerPos>, evs: seq<Event>, tp: Option<real>)
    requires !HasEntry(evs)
    ensures RootAfter(db, root, evs, tp) == root
    ensures l.None? ==> Ledger(l, evs, tp).None?
    ensures l.Some? && Ledger(l, evs, tp).Some? ==> Ledger(l, evs, tp).value.openedMs == l.value.openedMs
    decreases |evs|
  {
    if evs != [] {
      assert evs[0] in evs;
      forall e | e in evs[1..] ensures e in evs {}
      NoEntryKeepsTrade(WriteEvent(db, evs[0], tp), root, LedgerStep(l, evs[0], tp), evs[1..], tp);
    }
  }

  lemma {:induction false} EntryRootIsNew(db: Db, n: nat, root: nat, evs: seq<Event>, tp: Option<real>)
    requires n <= |db.positions|
    ensures HasEntry(evs) || root >= n ==> RootAfter(db, root, evs, tp) >= n
    decreases |evs|
  {
    if evs != [] {
      EntryRootIsNew(WriteEvent(db, evs[0], tp), n, NextRoot(root, db.positions, evs[0]), evs[1..], tp);
      if HasEntry(evs) && !evs[0].EntryFilled? {
        var e :| e in evs && e.EntryFilled?;
        assert e in evs[1..];
      }
    }
  }

  /** While the position is open its boundaries are listed or swallowed without a gap, its closing batch included. */
  lemma CommitLists(bot: Bot, l: LedgerPos, root: nat, q: Queued, step: int, now: int)
    requires step > 0 && Mirrors(bot.db.positions, Some(l), root) && ListedOk(bot.db, bot.funded, l, root, step, now)
    requires BatchFunds(Some(l), bot.funded.next, bot.funded.rewound, q, step, now) && !IsAbandon(q.batch)
    ensures q.next.Some?
    ensures multiset(Owned(CommitOne(bot, q).db.fundings, root)) + bot.funded.swallowed + multiset(q.untold.boundaries)
         == multiset(Boundaries(NextGrid(l.openedMs, step), q.next.value - 1, step)) + bot.funded.rewound
  {
    hide Mirrors, FundingFirst, FundingFree, IsAbandon, SettledSafe, Boundaries, NextGrid, Saved, Ledger, WriteEvents,
         HasEntry, Handled, Owned, WindowAfter, FundedAfter;
    var first, next, next1 := NextGrid(l.openedMs, step), bot.funded.next.value, q.next.value;
    NextGridOnGrid(l.openedMs, step);
    OwnedAfter(bot.db, Some(l), root, q.batch.events, q.batch.tp);
    Stretches(first, next, next1, step);
    ListsGrow(Owned(bot.db.fundings, root), q.untold.boundaries, Handled(q.batch.events), Boundaries(first, next - 1, step),
              bot.funded.swallowed, bot.funded.rewound);
  }

  lemma ListsGrow(owned: seq<int>, untold: seq<int>, handled: seq<int>, grid: seq<int>, swallowed: multiset<int>, rewound: multiset<int>)
    requires multiset(owned) + swallowed == multiset(grid) + rewound
    ensures multiset(owned + handled) + swallowed + multiset(untold) == multiset(grid + (untold + handled)) + rewound
  {
    assert multiset(owned + handled) == multiset(owned) + multiset(handled);
    assert multiset(grid + (untold + handled)) == multiset(grid) + (multiset(untold) + multiset(handled));
    var before, after := multiset(owned + handled) + swallowed + multiset(untold), multiset(grid + (untold + handled)) + rewound;
    forall g: int ensures before[g] == after[g] {
      assert (multiset(owned) + swallowed)[g] == (multiset(grid) + rewound)[g];
    }
  }

  /** The settled rows stay safe. */
  lemma CommitSettles(bot: Bot, l: LedgerPos, root: nat, q: Queued, step: int, now: int)
    requires step > 0 && ListedOk(bot.db, bot.funded, l, root, step, now)
    requires BatchFunds(Some(l), bot.funded.next, bot.funded.rewound, q, step, now) && !IsAbandon(q.batch)
    ensures SettledSafe(CommitOne(bot, q).db.fundings, root,
                        if q.batch.snapshot.Some? then q.next.value else Saved(bot.db).value, bot.funded.rewound)
  {
    hide FundingFirst, IsAbandon, Boundaries, NextGrid, Saved, Ledger, Owned;
    var next, next1 := bot.funded.next.value, q.next.value;
    SettledInside(q.untold.boundaries, q.batch.events, next, next1, step);
    SettledAfter(bot.db, root, q.batch.events, q.batch.tp, if q.batch.snapshot.Some? then next1 else Saved(bot.db).value, bot.funded.rewound);
  }

  lemma CommitSaves(bot: Bot, q: Queued)
    ensures Saved(CommitOne(bot, q).db)
         == if q.batch.snapshot.None? then Saved(bot.db)
            else if q.batch.snapshot.value.state.None? then None else q.batch.snapshot.value.state.value.nextFunding
  {
    hide FundedAfter, WindowAfter, WriteEvents;
    WritesKeepSnaps(bot.db, q.batch.events, q.batch.tp);
  }

  lemma CommitHeld(bot: Bot, l: LedgerPos, root: nat, q: Queued, step: int, now: int)
    requires step > 0 && Mirrors(bot.db.positions, Some(l), root) && ListedOk(bot.db, bot.funded, l, root, step, now)
    requires BatchFunds(Some(l), bot.funded.next, bot.funded.rewound, q, step, now) && !IsAbandon(q.batch)
    requires Ledger(Some(l), q.batch.events, q.batch.tp).Some?
    ensures ListedOk(CommitOne(bot, q).db, CommitOne(bot, q).funded, Ledger(Some(l), q.batch.events, q.batch.tp).value, root, step, now)
  {
    hide Mirrors, FundingFirst, FundingFree, IsAbandon, SettledSafe, Boundaries, NextGrid, Saved, Ledger, Commit, Owned,
         AllBy, HasEntry, Handled, WindowAfter, WriteEvents;
    CommitLists(bot, l, root, q, step, now);
    CommitSettles(bot, l, root, q, step, now);
    CommitSaves(bot, q);
    NoEntryKeepsTrade(bot.db, root, Some(l), q.batch.events, q.batch.tp);
    Stretches(Saved(bot.db).value, bot.funded.next.value, q.next.value, step);
    NoneUpTo(q.next.value, step);
    AllByJoin(bot.funded.unsaved, q.untold.boundaries + Handled(q.batch.events), now);
    Regrouped(bot.funded.unsaved, q.untold.boundaries, Handled(q.batch.events));
    NoneLater(now);
  }

  lemma Regrouped(a: seq<int>, b: seq<int>, c: seq<int>)
    ensures a + b + c == a + (b + c)
  {}

  lemma NoneUpTo(g: int, step: int)
    requires step > 0
    ensures Boundaries(g, g - 1, step) == []
  {}

  /** What is settled is one of the boundaries handled. */
  lemma SettledInside(before: seq<int>, evs: seq<Event>, next: int, next1: int, step: int)
    requires step > 0 && before + Handled(evs) == Boundaries(next, next1 - 1, step)
    ensures forall e :: e in evs && e.FundingSettled? ==> next <= e.ts < next1
  {
    BoundariesAreTheGrid(next, next1 - 1, step);
    forall e | e in evs && e.FundingSettled? ensures next <= e.ts < next1 {
      SettledIsHandled(evs, e);
      assert e.ts in before + Handled(evs);
    }
  }

  lemma {:induction false} SettledIsHandled(evs: seq<Event>, e: Event)
    requires e in evs && e.FundingSettled?
    ensures e.ts in Handled(evs)
  {
    if evs[0] != e {
      SettledIsHandled(evs[1..], e);
    } else {
      assert e.ts in HandledBy(evs[0]);
    }
  }

  /** A fresh position starts with nothing listed. */
  lemma CommitEntry(bot: Bot, root: nat, q: Queued, step: int, now: int)
    requires step > 0 && OwnersOk(bot.db) && BatchFunds(None, bot.funded.next, bot.funded.rewound, q, step, now)
    requires Ledger(None, q.batch.events, q.batch.tp).Some?
    ensures
      var b1 := CommitOne(bot, q);
      ListedOk(b1.db, b1.funded, Ledger(None, q.batch.events, q.batch.tp).value, RootAfter(bot.db, root, q.batch.events, q.batch.tp), step, now)
  {
    hide FundingFirst;
    var b := q.batch;
    var root1 := RootAfter(bot.db, root, b.events, b.tp);
    EntryRootIsNew(bot.db, |bot.db.positions|, root, b.events, b.tp);
    FreeKeepsRows(bot.db, b.events, b.tp);
    FreshOwned(bot.db.fundings, |bot.db.positions|, root1);
    NextGridOnGrid(Ledger(None, b.events, b.tp).value.openedMs, step);
    assert Boundaries(q.next.value, q.next.value - 1, step) == [];
  }

  /** One committed batch, whatever it says. */
  lemma CommitFunds(bot: Bot, l: Option<LedgerPos>, root: nat, q: Queued, step: int, now: int)
    requires step > 0 && FullyMirrors(bot.db, l, root) && BatchOk(l, q)
    requires l.Some? ==> ListedOk(bot.db, bot.funded, l.value, root, step, now)
    requires BatchFunds(l, bot.funded.next, bot.funded.rewound, q, step, now)
    ensures
      var l1 := Ledger(l, q.batch.events, q.batch.tp);
      l1.Some? ==> ListedOk(CommitOne(bot, q).db, CommitOne(bot, q).funded, l1.value, RootAfter(bot.db, root, q.batch.events, q.batch.tp), step, now)
  {
    hide ListedOk, CommitOne, Ledger, Mirrors, AllFit;
    if Ledger(l, q.batch.events, q.batch.tp).Some? {
      if l.None? {
        CommitEntry(bot, root, q, step, now);
      } else {
        if IsAbandon(q.batch) { AbandonEnds(l, q); }
        NoEntryKeepsTrade(bot.db, root, l, q.batch.events, q.batch.tp);
        CommitHeld(bot, l.value, root, q, step, now);
      }
    }
  }

  lemma AbandonEnds(l: Option<LedgerPos>, q: Queued)
    requires BatchOk(l, q) && IsAbandon(q.batch)
    ensures Ledger(l, q.batch.events, q.batch.tp).None?
  {
    assert q.batch.events[0] in q.batch.events;
  }

  // ---------------------------------------------------------------- the bot

  /** Rows and queue. */
  ghost predicate FundsBot(bot: Bot, l: Option<LedgerPos>, root: nat, now: int)
    requires bot.c.fundingHours > 0
  {
    && (l.Some? ==> ListedOk(bot.db, bot.funded, l.value, root, Step0(bot.c), now))
    && QueueFunds(l, bot.funded.next, bot.funded.rewound, bot.queue, Step0(bot.c), now)
  }

  /** The engine's clock while it holds a position: it goes on where the last batch left off, past the boundaries that
      raising ticks have disposed of untold since. */
  ghost predicate ClockFunds(s: EngineState, next: Option<int>, untold: seq<int>, rewound: multiset<int>, step: int, now: int)
    requires step > 0
  {
    s.position.Some? ==>
      && next.Some? && NextFunding(s).Some? && next.value % step == 0 && NextFunding(s).value % step == 0
      && next.value <= NextFunding(s).value <= now + step
      && untold == Boundaries(next.value, NextFunding(s).value - 1, step)
      && (forall g :: g in untold ==> g <= now)
      && (forall g :: g in rewound ==> g <= now)
      && (s.lastTick.Some? ==>
            Announces(s.lastTick.value, step) && s.lastTick.value.ts <= now && forall g :: g in rewound ==> g <= s.lastTick.value.ts)
  }

  ghost predicate FundInv(bot: Bot, l: Option<LedgerPos>, root: nat, now: int) {
    && bot.c.fundingHours > 0 && Inv(bot, l, root) && FundsBot(bot, l, root, now)
    && ClockFunds(bot.engine, TailNext(bot.funded.next, bot.queue), bot.untold.boundaries, TailRewound(bot.funded.rewound, bot.queue),
                  Step0(bot.c), now)
  }

  /** The rows determine their ledger. */
  lemma LedgerUnique(db: Db, l: Option<LedgerPos>, root: nat, l2: Option<LedgerPos>, root2: nat)
    requires FullyMirrors(db, l, root) && FullyMirrors(db, l2, root2)
    ensures l == l2 && (l.Some? ==> root == root2)
  {
    hide LastOpen, ClosedSum, CommissionSum, FundingSum, DbOpenPosition, OwnersOk, RowsOk, Remaining;
    ReadBack(db, l, root);
    ReadBack(db, l2, root2);
  }

  lemma FundsLater(bot: Bot, l: Option<LedgerPos>, root: nat, now: int, later: int)
    requires bot.c.fundingHours > 0 && FundsBot(bot, l, root, now) && now <= later
    ensures FundsBot(bot, l, root, later)
  {
    hide BatchFunds, SettledSafe, Owned;
    QueueFundsLater(l, bot.funded.next, bot.funded.rewound, bot.queue, Step0(bot.c), now, later);
  }

  /** Commits move the same position's boundaries onward: its list grows, and a committed snapshot saves it. */
  ghost predicate Onward(b: Bot, b2: Bot) {
    b.funded.next.Some? ==>
      && b2.funded.next.Some? && Saved(b2.db).Some? && b.funded.next.value <= b2.funded.next.value
      && (if b2.db.snaps == b.db.snaps then b.funded.unsaved <= b2.funded.unsaved else b.funded.next.value <= Saved(b2.db).value)
  }

  /** What commits may do between two moments of one process life. */
  ghost predicate Moved(b: Bot, l: Option<LedgerPos>, root: nat, b2: Bot, l2: Option<LedgerPos>, root2: nat) {
    && b.db.snaps <= b2.db.snaps && |b.db.positions| <= |b2.db.positions|
    && (l2.Some? ==> if l.Some? && root2 == root then Onward(b, b2) else root2 >= |b.db.positions|)
    && (b2.db.snaps == b.db.snaps ==> (b.window ==> b2.window) && (l.Some? ==> b2.window || (l2.Some? && root2 == root)))
  }

  /** Nothing committed. */
  lemma MovedNot(b: Bot, b2: Bot, l: Option<LedgerPos>, root: nat, root2: nat)
    requires l.Some? ==> Saved(b.db).Some? && root2 == root
    requires b2.db == b.db && b2.funded == b.funded && b2.window == b.window
    ensures Moved(b, l, root, b2, l, root2)
  {}

  lemma MovedThen(b: Bot, l: Option<LedgerPos>, root: nat, b1: Bot, l1: Option<LedgerPos>, root1: nat, b2: Bot, l2: Option<LedgerPos>, root2: nat)
    requires Moved(b, l, root, b1, l1, root1) && Moved(b1, l1, root1, b2, l2, root2) && (l.Some? ==> root < |b.db.positions|)
    ensures Moved(b, l, root, b2, l2, root2)
  {
    if b2.db.snaps == b.db.snaps {
      assert |b1.db.snaps| == |b.db.snaps| && b1.db.snaps == b.db.snaps;
    }
  }

  lemma {:induction false} WritesGrow(db: Db, evs: seq<Event>, tp: Option<real>)
    ensures |db.positions| <= |WriteEvents(db, evs, tp).positions|
    decreases |evs|
  {
    if evs != [] {
      WritesGrow(WriteEvent(db, evs[0], tp), evs[1..], tp);
    }
  }

  lemma CommitMoved(bot: Bot, l: Option<LedgerPos>, root: nat, q: Queued, step: int, now: int)
    requires step > 0 && FullyMirrors(bot.db, l, root) && BatchOk(l, q)
    requires l.Some? ==> ListedOk(bot.db, bot.funded, l.value, root, step, now)
    requires BatchFunds(l, bot.funded.next, bot.funded.rewound, q, step, now)
    ensures Moved(bot, l, root, CommitOne(bot, q), Ledger(l, q.batch.events, q.batch.tp), RootAfter(bot.db, root, q.batch.events, q.batch.tp))
  {
    hide Mirrors, OwnersOk, FundingFirst, AllFit, Boundaries, Ledger, WriteEvents, SettledSafe, Owned, Shows, RowShows,
         NextGrid, Handled, AllBy, HasEntry;
    var evs, tp := q.batch.events, q.batch.tp;
    WritesGrow(bot.db, evs, tp);
    WritesKeepSnaps(bot.db, evs, tp);
    CommitSaves(bot, q);
    if HasEntry(evs) {
      EntryRootIsNew(bot.db, |bot.db.positions|, root, evs, tp);
    } else {
      NoEntryKeepsTrade(bot.db, root, l, evs, tp);
    }
    if IsAbandon(q.batch) { AbandonEnds(l, q); }
    if AllNeutral(evs) { NeutralKeepsLedger(l, evs, tp); }
  }

  /** The root of a closed ledger does not matter. */
  lemma MovedSame(b: Bot, l: Option<LedgerPos>, root: nat, b2: Bot, l2: Option<LedgerPos>, root2: nat, other: nat)
    requires Moved(b, l, root, b2, l2, root2) && (l2.Some? ==> other == root2)
    ensures Moved(b, l, root, b2, l2, other)
  {}

  lemma ListedSaved(bot: Bot, l: Option<LedgerPos>, root: nat, now: int)
    requires bot.c.fundingHours > 0 && FundsBot(bot, l, root, now)
    ensures l.Some? ==> Saved(bot.db).Some?
  {}

  lemma MovedFrom(b: Bot, other: Bot, l: Option<LedgerPos>, root: nat, b2: Bot, l2: Option<LedgerPos>, root2: nat)
    requires Moved(b, l, root, b2, l2, root2) && other.db == b.db && other.funded == b.funded && other.window == b.window
    ensures Moved(other, l, root, b2, l2, root2)
  {}

  lemma RootInRange(db: Db, l: Option<LedgerPos>, root: nat)
    requires FullyMirrors(db, l, root)
    ensures l.Some? ==> root < |db.positions|
  {}

  lemma RecordFunds(bot: Bot, l: Option<LedgerPos>, root: nat, b: Batch, ok: bool, now: int)
    returns (l': Option<LedgerPos>, root': nat)
    requires Stored(bot, l, root) && QueueOk(l, bot.queue) && EngineOk(bot.c, bot.engine)
    requires bot.engine.position.None? ==> bot.untold.paid == 0.0
    requires BatchOk(Tail(l, bot.queue), Emitted(bot, b))
    requires bot.c.fundingHours > 0 && FundsBot(bot, l, root, now)
    requires BatchFunds(Tail(l, bot.queue), TailNext(bot.funded.next, bot.queue), TailRewound(bot.funded.rewound, bot.queue),
                        Emitted(bot, b), Step0(bot.c), now)
    ensures Record(bot, b, ok).c == bot.c && Record(bot, b, ok).untold.boundaries == []
    ensures Inv(Record(bot, b, ok), l', root') && FundsBot(Record(bot, b, ok), l', root', now)
    ensures
      var after := Record(bot, b, ok);
      && TailNext(after.funded.next, after.queue) == NextFunding(bot.engine)
      && TailRewound(after.funded.rewound, after.queue) == RewoundAfter(TailRewound(bot.funded.rewound, bot.queue), b)
    ensures Moved(bot, l, root, Record(bot, b, ok), l', root')
  {
    hide FullyMirrors, SnapShows, SnapState, Shows, BatchOk, BatchFunds, ListedOk, EngineOk, Commit, Ledger, Moved, FundedAfter;
    var q := Emitted(bot, b);
    l', root' := RecordKeeps(bot, l, root, b, ok);
    if bot.queue == [] && ok {
      var b1 := bot.(untold := bot.untold.(boundaries := []));
      var r1 := CommitKeeps(b1, l, root, q);
      CommitFunds(b1, l, root, q, Step0(bot.c), now);
      CommitMoves(b1, q);
      CommitMoved(b1, l, root, q, Step0(bot.c), now);
      LedgerUnique(Record(bot, b, ok).db, l', root', Ledger(l, b.events, b.tp), r1);
      MovedSame(b1, l, root, CommitOne(b1, q), l', r1, root');
      MovedFrom(b1, bot, l, root, CommitOne(b1, q), l', root');
    } else {
      LedgerUnique(bot.db, l', root', l, root);
      ListedSaved(bot, l, root, now);
      MovedNot(bot, Record(bot, b, ok), l, root, root');
      QueueFundsAppend(l, bot.funded.next, bot.funded.rewound, bot.queue, q, Step0(bot.c), now);
    }
  }

  lemma CommitMoves(bot: Bot, q: Queued)
    ensures
      var b1 := CommitOne(bot, q);
      && b1.c == bot.c && b1.engine == bot.engine && b1.queue == bot.queue && b1.untold == bot.untold
      && b1.funded.next == q.next && b1.funded.rewound == RewoundAfter(bot.funded.rewound, q.batch)
  {}

  lemma {:induction false} FlushFunds(bot: Bot, l: Option<LedgerPos>, root: nat, n: nat, now: int) returns (l': Option<LedgerPos>, root': nat)
    requires bot.c.fundingHours > 0 && Inv(bot, l, root) && FundsBot(bot, l, root, now)
    ensures Flush(bot, n).c == bot.c && Flush(bot, n).engine == bot.engine
    ensures Inv(Flush(bot, n), l', root') && FundsBot(Flush(bot, n), l', root', now)
    ensures
      var after := Flush(bot, n);
      && TailNext(after.funded.next, after.queue) == TailNext(bot.funded.next, bot.queue)
      && TailRewound(after.funded.rewound, after.queue) == TailRewound(bot.funded.rewound, bot.queue)
      && after.untold == bot.untold
    ensures Moved(bot, l, root, Flush(bot, n), l', root')
    decreases n
  {
    hide FullyMirrors, SnapShows, SnapState, BatchFunds, BatchOk, Shows, ListedOk, EngineOk, CommitOne, Ledger, HasEntry, RewoundAfter,
         Moved, Saved;
    ListedSaved(bot, l, root, now);
    if n == 0 || bot.queue == [] {
      MovedNot(bot, bot, l, root, root);
      l', root' := l, root;
    } else {
      var q := bot.queue[0];
      var b1 := bot.(queue := bot.queue[1..]);
      var r1 := CommitKeeps(b1, l, root, q);
      CommitFunds(b1, l, root, q, Step0(bot.c), now);
      CommitMoves(b1, q);
      CommitMoved(b1, l, root, q, Step0(bot.c), now);
      l', root' := FlushFunds(CommitOne(b1, q), Ledger(l, q.batch.events, q.batch.tp), r1, n - 1, now);
      RootInRange(bot.db, l, root);
      MovedThen(b1, l, root, CommitOne(b1, q), Ledger(l, q.batch.events, q.batch.tp), r1, Flush(bot, n), l', root');
      MovedFrom(b1, bot, l, root, Flush(bot, n), l', root');
    }
  }

  // ---------------------------------------------------------------- what a tick says

  lemma FundedEventsFirst(c: Config, s: EngineState, t: MarkTick)
    ensures forall e :: e in FundingOnTick(c, s, t).events ==> e.FundingSettled? || e.FundingMissed? || e.EntriesBlocked?
    ensures forall e :: e in FundingOnTick(c, s, t).events && e.FundingSettled? ==>
      s.lastTick.Some? && s.lastTick.value.ts < e.ts
  {}

  /** A tick on a held paper position disposes of the boundaries up to the one it announces, before anything else, and
      whether it raises or not. */
  lemma HeldTickFunds(c: Config, s: EngineState, t: MarkTick)
    requires c.fundingHours > 0 && s.position.Some? && s.pending.None? && ClockOk(c, s) && Announces(t, Step0(c))
    requires Cursor(s).value <= t.ts + Step0(c)
    ensures
      var step := OnTick(c, s, t, NO_SCRIPT);
      && step.st.lastTick == Some(t)
      && Cursor(s).value <= t.nextFunding
      && Handled(step.events) == Boundaries(Cursor(s).value, t.nextFunding - 1, Step0(c))
      && (forall g :: g in Handled(step.events) ==> g <= t.ts)
      && FundingFirst(step.events) && !HasEntry(step.events)
      && (forall e :: e in step.events && e.FundingSettled? ==> s.lastTick.Some? && s.lastTick.value.ts < e.ts)
  {
    hide OnTick, FundingOnTick, Judge, Boundaries;
    AnnouncedIsOnGrid(c, t);
    TickIsFundThenJudge(c, s, t, NO_SCRIPT);
    TickHandles(c, s, t);
    OnlyFundingHandles(c, s, t, NO_SCRIPT);
    UpToAnnounced(Cursor(s).value, t, Step0(c));
    BoundariesAreTheGrid(Cursor(s).value, t.ts, Step0(c));
    FundedEventsFirst(c, s, t);
    var funded := FundingOnTick(c, s, t);
    var judged := Judge(c, funded.st.(lastTick := Some(t)), t.ts, t.mark, t.mark, t.mark, t.mark, t.mark, NO_EXIT);
    JudgeHandlesNothing(c, funded.st.(lastTick := Some(t)), t.ts, t.mark, t.mark, t.mark, t.mark, t.mark, NO_EXIT);
    FirstThenFree(funded.events, judged.events);
  }

  lemma EntryIsFree(c: Config, s: EngineState, ts: int, mark: real, x: EntryScript, gx: ExitScript)
    ensures FundingFree(EntryOnTick(c, s, ts, mark, x, gx).events)
  {
    hide OpenPosition, Quote;
    if s.pending.Some? {
      var i := s.pending.value;
      var quote := Quote(c, SideFor(i.direction, Entry), mark);
      var d := c.size(quote, EntrySl(i, quote), i.direction, if c.sizingCapital.Some? then c.sizingCapital.value else s.wallet, i.regime);
      if d.Some? && d.value.leverage.Some? {
        OpenIsFree(c, s.(pending := None), i, d.value, d.value.leverage.value, mark, ts, x, gx);
      }
    }
  }

  lemma OpenIsFree(c: Config, s: EngineState, i: EntryIntent, d: SizingDecision, lev: Leverage, refMark: real, ts: int, x: EntryScript, gx: ExitScript)
    requires Quoted(c, i, refMark)
    ensures FundingFree(OpenPosition(c, s, i, d, lev, refMark, ts, x, gx).events)
  {
    hide BookEntry, EntrySent, Vwap, CheckFill;
    var (f, fills) := Fills(c, s, i, d, refMark, ts, x);
    assert FundingFree(f.notes);
    if f.qty > 0.0 {
      var post := CheckFill(c, i, d, lev, f.entry, f.qty);
      BookIsFree(c, NewPosition(i, d, lev, f, post.liqPrice, ts), post.gateOk, f, fills, refMark, ts, x, gx);
    }
  }

  lemma OpeningIsFree(c: Config, s: EngineState, p: Position, fills: seq<Fill>, adopted: bool, ts: int)
    ensures FundingFree(OpeningEvents(c, s, p, fills, adopted, ts))
  {}

  lemma BookIsFree(c: Config, p: Position, gateOk: bool, f: Filled, fills: seq<Fill>, refMark: real, ts: int, x: EntryScript, gx: ExitScript)
    requires FundingFree(f.notes)
    ensures FundingFree(BookEntry(c, p, gateOk, f, fills, refMark, ts, x, gx).events)
  {
    hide DoExit, OpeningEvents;
    var base := if c.sizingCapital.Some? then c.sizingCapital.value else f.st.wallet;
    var s1 := f.st.(wallet := base - f.commission, position := Some(p), lastEntryTp := p.tp);
    OpeningIsFree(c, f.st, p, fills, f.adopted, ts);
    ExitHandlesNothing(c, LiveCheck(c, s1, ts, x).st, PostFillGate, refMark, ts, gx);
  }

  /** A tick that finds the engine flat disposes of nothing, even if it enters. */
  lemma FlatTickFunds(c: Config, s: EngineState, t: MarkTick)
    requires s.position.None?
    ensures
      var step := OnTick(c, s, t, NO_SCRIPT);
      && FundingFree(step.events)
      && (step.st.position.Some? ==> step.st.lastTick == Some(t))
  {
    hide EntryOnTick, Judge;
    var s1 := FundingOnTick(c, s, t).st.(lastTick := Some(t));
    var entered := EntryOnTick(c, s1, t.ts, t.mark, NO_ENTRY, NO_EXIT);
    EntryIsFree(c, s1, t.ts, t.mark, NO_ENTRY, NO_EXIT);
    EntryKeepsClock(c, s1, t.ts, t.mark, NO_ENTRY, NO_EXIT);
    JudgeHandlesNothing(c, entered.st, t.ts, t.mark, t.mark, t.mark, t.mark, t.mark, NO_EXIT);
  }

  lemma EntryKeepsClock(c: Config, s: EngineState, ts: int, mark: real, x: EntryScript, gx: ExitScript)
    ensures EntryOnTick(c, s, ts, mark, x, gx).st.lastTick == s.lastTick
  {}

  // ---------------------------------------------------------------- every input

  /** The batch of a tick on a held position hands the boundaries on, or the tick raises and leaves them untold. */
  lemma HeldBatchFunds(bot: Bot, l: Option<LedgerPos>, next: Option<int>, rewound: multiset<int>, t: MarkTick, now: int)
    requires EngineOk(bot.c, bot.engine) && bot.engine.position.Some? && l.Some?
    requires bot.c.fundingHours > 0 && Announces(t, Step0(bot.c)) && now <= t.ts
    requires ClockFunds(bot.engine, next, bot.untold.boundaries, rewound, Step0(bot.c), now)
    requires
      var step := OnTick(bot.c, bot.engine, t, NO_SCRIPT);
      && EngineOk(bot.c, step.st) && Tame(bot.engine, step)
      && Accounted(Paper, Plus(l, bot.untold.paid), bot.engine, step, step.st.lastEntryTp)
    ensures
      var step := OnTick(bot.c, bot.engine, t, NO_SCRIPT);
      var b := BatchOf(bot, step, t.ts);
      && (!step.raised ==> BatchFunds(l, next, rewound, Emitted(After(bot, step), b), Step0(bot.c), t.ts))
      && RewoundAfter(rewound, b) == rewound
      && ClockFunds(step.st, NextFunding(step.st), [], rewound, Step0(bot.c), t.ts)
      && ClockFunds(step.st, next, bot.untold.boundaries + Handled(step.events), rewound, Step0(bot.c), t.ts)
  {
    hide OnTick, Boundaries, Accounted, FundingFirst, IsAbandon, Ledger, AllFit;
    var step := OnTick(bot.c, bot.engine, t, NO_SCRIPT);
    HeldTickFunds(bot.c, bot.engine, t);
    Stretches(next.value, NextFunding(bot.engine).value, t.nextFunding, Step0(bot.c));
    NoneUpTo(t.nextFunding, Step0(bot.c));
    if !step.raised { DeliverBatchOk(bot, l, step, t.ts); }
  }

  /** The batch of a tick on a flat engine opens a position whose first boundary is the one announced, or nothing. */
  lemma FlatBatchFunds(bot: Bot, next: Option<int>, rewound: multiset<int>, t: MarkTick, now: int)
    requires EngineOk(bot.c, bot.engine) && bot.engine.position.None? && bot.untold == NOTHING_UNTOLD
    requires bot.c.fundingHours > 0 && Announces(t, Step0(bot.c)) && now <= t.ts
    requires
      var step := OnTick(bot.c, bot.engine, t, NO_SCRIPT);
      && EngineOk(bot.c, step.st) && Tame(bot.engine, step) && !step.raised
      && Accounted(Paper, None, bot.engine, step, step.st.lastEntryTp)
      && OpenedBy(bot.engine, step.st, t.ts)
    ensures
      var step := OnTick(bot.c, bot.engine, t, NO_SCRIPT);
      var b := BatchOf(bot, step, t.ts);
      && BatchFunds(None, next, rewound, Emitted(After(bot, step), b), Step0(bot.c), t.ts)
      && (step.events == [] ==> step.st.position.None?)
      && ClockFunds(step.st, NextFunding(step.st), [], RewoundAfter(rewound, b), Step0(bot.c), t.ts)
  {
    hide OnTick, Boundaries, IsAbandon;
    var step := OnTick(bot.c, bot.engine, t, NO_SCRIPT);
    var b := BatchOf(bot, step, t.ts);
    FlatTickFunds(bot.c, bot.engine, t);
    DeliverBatchOk(bot, None, step, t.ts);
    NothingHandled(step.events);
    NextGridIs(t.ts, t.nextFunding, Step0(bot.c));
    NoneUpTo(t.nextFunding, Step0(bot.c));
    if step.st.position.Some? {
      if !HasEntry(step.events) { NoEntryKeepsTrade(EMPTY_DB, 0, None, step.events, step.st.lastEntryTp); }
      var e :| e in step.events && e.EntryFilled?;
      assert SnapshotEvent(e);
    }
  }

  /** Delivering a call whose batch funds. */
  lemma DeliverFunds(bot: Bot, l: Option<LedgerPos>, root: nat, step: Step, ts: int, ok: bool, now: int)
    returns (l': Option<LedgerPos>, root': nat)
    requires FundInv(bot, l, root, now) && EngineOk(bot.c, step.st) && Tame(bot.engine, step) && !step.raised && step.events != []
    requires Accounted(Paper, Plus(Tail(l, bot.queue), bot.untold.paid), bot.engine, step, step.st.lastEntryTp)
    requires
      var rewound := TailRewound(bot.funded.rewound, bot.queue);
      var b := BatchOf(bot, step, ts);
      && BatchFunds(Tail(l, bot.queue), TailNext(bot.funded.next, bot.queue), rewound, Emitted(After(bot, step), b), Step0(bot.c), now)
      && ClockFunds(step.st, NextFunding(step.st), [], RewoundAfter(rewound, b), Step0(bot.c), now)
    ensures FundInv(Deliver(bot, step, ts, ok), l', root', now)
    ensures Moved(bot, l, root, Deliver(bot, step, ts, ok), l', root')
  {
    hide FullyMirrors, SnapShows, SnapState, BatchOk, BatchFunds, ListedOk, EngineOk, Commit, Ledger, ClockFunds, Accounted,
         HasEntry, RewoundAfter, BatchOf, AllNeutral, Moved, CommitOne;
    DeliverBatchOk(bot, Tail(l, bot.queue), step, ts);
    l', root' := RecordFunds(After(bot, step), l, root, BatchOf(bot, step, ts), ok, now);
    MovedFrom(After(bot, step), bot, l, root, Deliver(bot, step, ts, ok), l', root');
  }

  /** Nothing is handed over. */
  lemma QuietFunds(bot: Bot, l: Option<LedgerPos>, root: nat, b2: Bot, l2: Option<LedgerPos>, root2: nat, now: int)
    requires FundInv(bot, l, root, now) && Inv(b2, l2, root2)
    requires b2 == bot.(engine := b2.engine, untold := b2.untold, purse := b2.purse)
    requires ClockFunds(b2.engine, TailNext(bot.funded.next, bot.queue), b2.untold.boundaries, TailRewound(bot.funded.rewound, bot.queue),
                        Step0(bot.c), now)
    ensures FundInv(b2, l2, root2, now)
    ensures Moved(bot, l, root, b2, l2, root2)
  {
    hide FullyMirrors, SnapShows, QueueOk, QueueFunds, ListedOk, EngineOk, ClockFunds, Shows;
    LedgerUnique(bot.db, l, root, l2, root2);
    ListedSaved(bot, l, root, now);
    MovedNot(bot, b2, l, root, root2);
  }

  lemma FundsClock(bot: Bot, l: Option<LedgerPos>, root: nat, now: int, later: int)
    requires FundInv(bot, l, root, now) && now <= later
    ensures FundInv(bot, l, root, later)
  {
    hide Inv, ListedOk, QueueFunds;
    FundsLater(bot, l, root, now, later);
  }

  lemma MarkFunds(bot: Bot, l: Option<LedgerPos>, root: nat, t: MarkTick, ok: bool, now: int) returns (l': Option<LedgerPos>, root': nat)
    requires FundInv(bot, l, root, now) && Announces(t, Step0(bot.c)) && now <= t.ts
    ensures FundInv(Step1(bot, Mark(t, ok)), l', root', t.ts)
    ensures Moved(bot, l, root, Step1(bot, Mark(t, ok)), l', root')
  {
    hide FullyMirrors, SnapShows, QueueOk, QueueFunds, ListedOk, BatchFunds, ClockFunds, OnTick, Accounted, BatchOf, Tame,
         OpenedBy, RewoundAfter, Moved, FundingPaid, Handled, Record;
    var step := OnTick(bot.c, bot.engine, t, NO_SCRIPT);
    var next, rewound := TailNext(bot.funded.next, bot.queue), TailRewound(bot.funded.rewound, bot.queue);
    var tail := Tail(l, bot.queue);
    OnTickAccounted(bot.c, Plus(tail, bot.untold.paid), bot.engine, t, NO_SCRIPT);
    TickOutcome(bot.c, bot.engine, t);
    FundsClock(bot, l, root, now, t.ts);
    if step.raised || step.events == [] {
      l', root' := DeliverKeeps(bot, l, root, step, t.ts, ok);
      QuietMark(bot, tail, next, rewound, t, now);
      QuietFunds(bot, l, root, Deliver(bot, step, t.ts, ok), l', root', t.ts);
    } else {
      if bot.engine.position.Some? {
        HeldBatchFunds(bot, tail, next, rewound, t, now);
      } else {
        FlatBatchFunds(bot, next, rewound, t, now);
      }
      l', root' := DeliverFunds(bot, l, root, step, t.ts, ok, t.ts);
    }
  }

  /** A tick that hands nothing over leaves its boundaries untold. */
  lemma QuietMark(bot: Bot, tail: Option<LedgerPos>, next: Option<int>, rewound: multiset<int>, t: MarkTick, now: int)
    requires EngineOk(bot.c, bot.engine) && Shows(Paper, Plus(tail, bot.untold.paid), bot.engine.position)
    requires bot.c.fundingHours > 0 && Announces(t, Step0(bot.c)) && now <= t.ts
    requires ClockFunds(bot.engine, next, bot.untold.boundaries, rewound, Step0(bot.c), now)
    requires bot.engine.position.None? ==> bot.untold == NOTHING_UNTOLD
    requires
      var step := OnTick(bot.c, bot.engine, t, NO_SCRIPT);
      && EngineOk(bot.c, step.st) && Tame(bot.engine, step) && (step.raised || step.events == [])
      && Accounted(Paper, Plus(tail, bot.untold.paid), bot.engine, step, step.st.lastEntryTp)
      && OpenedBy(bot.engine, step.st, t.ts)
    ensures
      var step := OnTick(bot.c, bot.engine, t, NO_SCRIPT);
      ClockFunds(step.st, next, After(bot, step).untold.boundaries, rewound, Step0(bot.c), t.ts)
  {
    hide OnTick, Accounted, BatchFunds, BatchOf, RewoundAfter, Boundaries, OpenedBy, EngineOk;
    if bot.engine.position.Some? {
      HeldBatchFunds(bot, tail, next, rewound, t, now);
    } else if !OnTick(bot.c, bot.engine, t, NO_SCRIPT).raised {
      FlatBatchFunds(bot, next, rewound, t, now);
    }
  }

  /** A batch without events says where the clock stands. */
  lemma SnapBatchFunds(bot: Bot, l: Option<LedgerPos>, next: Option<int>, rewound: multiset<int>, ts: int, now: int)
    requires bot.c.fundingHours > 0 && ClockFunds(bot.engine, next, bot.untold.boundaries, rewound, Step0(bot.c), now)
    requires (l.None? <==> bot.engine.position.None?) && (l.None? ==> bot.untold == NOTHING_UNTOLD)
    ensures
      var b := Batch([], None, Some(SnapNow(bot, ts)));
      && BatchFunds(l, next, rewound, Emitted(bot, b), Step0(bot.c), now)
      && RewoundAfter(rewound, b) == rewound
      && ClockFunds(bot.engine, NextFunding(bot.engine), [], rewound, Step0(bot.c), now)
  {
    hide Boundaries;
    assert bot.untold.boundaries + Handled([]) == bot.untold.boundaries;
    if l.Some? { NoneUpTo(NextFunding(bot.engine).value, Step0(bot.c)); }
  }

  lemma BarCloseFunds(bot: Bot, l: Option<LedgerPos>, root: nat, ts: int, ok: bool, now: int) returns (l': Option<LedgerPos>, root': nat)
    requires FundInv(bot, l, root, now)
    ensures FundInv(Step1(bot, BarClose(ts, ok)), l', root', now)
    ensures Moved(bot, l, root, Step1(bot, BarClose(ts, ok)), l', root')
  {
    hide FullyMirrors, SnapShows, QueueOk, QueueFunds, ListedOk, BatchFunds, ClockFunds, RewoundAfter, Commit, FundedAfter, Moved;
    var b := Batch([], None, Some(SnapNow(bot, ts)));
    SnapBatchFunds(bot, Tail(l, bot.queue), TailNext(bot.funded.next, bot.queue), TailRewound(bot.funded.rewound, bot.queue), ts, now);
    l', root' := RecordFunds(bot, l, root, b, ok, now);
  }

  lemma ClosingBatchFunds(bot: Bot, l: Option<LedgerPos>, next: Option<int>, rewound: multiset<int>, step: Step, ts: int, now: int)
    requires bot.engine.position.Some? && l.Some? && step.st.position.None?
    requires |step.events| == 1 && step.events[0].PositionClosed? && NextFunding(step.st) == NextFunding(bot.engine)
    requires bot.c.fundingHours > 0 && ClockFunds(bot.engine, next, bot.untold.boundaries, rewound, Step0(bot.c), now)
    requires Ledger(l, step.events, BatchOf(bot, step, ts).tp).None? && !step.raised
    ensures
      var b := BatchOf(bot, step, ts);
      && BatchFunds(l, next, rewound, Emitted(After(bot, step), b), Step0(bot.c), now)
      && ClockFunds(step.st, NextFunding(step.st), [], RewoundAfter(rewound, b), Step0(bot.c), now)
  {
    hide Boundaries, Ledger;
    NothingHandled(step.events);
    assert bot.untold.boundaries + [] == bot.untold.boundaries;
  }

  lemma CloseFunds(bot: Bot, l: Option<LedgerPos>, root: nat, mark: real, ts: int, reason: ExitReason, ok: bool, now: int)
    returns (l': Option<LedgerPos>, root': nat)
    requires FundInv(bot, l, root, now)
    ensures FundInv(Step1(bot, Close(mark, ts, reason, ok)), l', root', now)
    ensures Moved(bot, l, root, Step1(bot, Close(mark, ts, reason, ok)), l', root')
  {
    hide FullyMirrors, SnapShows, QueueOk, QueueFunds, ListedOk, Accounted, DoExit, OnTick, BatchFunds, BatchOk, ClockFunds,
         HasEntry, RewoundAfter, AllFit, Moved, CloseNow, Tame, Steps.Multiple, Record, UntoldAfter, Ledger, SnapState, Stored,
         FundedAfter, WindowAfter, Tail;
    var step := CloseNow(bot.c, bot.engine, mark, ts, reason, NO_EXIT);
    var tail := Plus(Tail(l, bot.queue), bot.untold.paid);
    CloseOutcome(bot.c, tail, bot.engine, mark, ts, reason);
    ClosingCall(bot.c, bot.engine, mark, ts, reason);
    if step.events == [] {
      l', root' := DeliverKeeps(bot, l, root, step, ts, ok);
      QuietCall(bot, step);
      QuietFunds(bot, l, root, Deliver(bot, step, ts, ok), l', root', now);
    } else {
      DeliverBatchOk(bot, Tail(l, bot.queue), step, ts);
      FlatLedger(tail, bot.engine, step);
      ClosingBatchFunds(bot, Tail(l, bot.queue), TailNext(bot.funded.next, bot.queue), TailRewound(bot.funded.rewound, bot.queue), step, ts, now);
      l', root' := DeliverFunds(bot, l, root, step, ts, ok, now);
    }
  }

  lemma QuietCall(bot: Bot, step: Step)
    requires step.events == []
    ensures After(bot, step).untold.boundaries == bot.untold.boundaries
  {
    NothingHandled(step.events);
    assert bot.untold.boundaries + [] == bot.untold.boundaries;
  }

  /** A call to close either closes with one event or changes nothing. */
  lemma ClosingCall(c: Config, s: EngineState, mark: real, ts: int, reason: ExitReason)
    requires EngineOk(c, s)
    ensures
      var step := CloseNow(c, s, mark, ts, reason, NO_EXIT);
      if step.events == [] then step.st == s
      else !step.raised && s.position.Some? && |step.events| == 1 && step.events[0].PositionClosed? && NextFunding(step.st) == NextFunding(s)
  {
    hide Steps.Multiple;
    if s.position.Some? {
      PaperExitRaises(c, s, reason, mark, ts);
      if Steps.Multiple(s.position.value.qty, c.rules.marketStep) { PaperExitCloses(c, s, reason, mark, ts, NO_EXIT); }
    }
  }

  lemma FlatLedger(l: Option<LedgerPos>, s: EngineState, step: Step)
    requires Accounted(Paper, l, s, step, step.st.lastEntryTp)
    ensures step.st.position.None? <==> Ledger(l, step.events, step.st.lastEntryTp).None?
  {}

  lemma CancelFunds(bot: Bot, l: Option<LedgerPos>, root: nat, ts: int, ok: bool, now: int) returns (l': Option<LedgerPos>, root': nat)
    requires FundInv(bot, l, root, now)
    ensures FundInv(Step1(bot, Cancel(ts, ok)), l', root', now)
    ensures Moved(bot, l, root, Step1(bot, Cancel(ts, ok)), l', root')
  {
    hide FullyMirrors, SnapShows, QueueOk, QueueFunds, ListedOk, Accounted, DoExit, OnTick, Moved, BatchFunds, BatchOf, AllFit, Ledger,
         FundingFree, Record, RewoundAfter;
    var step := CancelPending(bot.engine, ts);
    OtherCallsAccounted(bot.c, Plus(Tail(l, bot.queue), bot.untold.paid), bot.engine, ts, 0.0, 0.0, Manual, NO_EXIT);
    if bot.engine.pending.None? {
      l', root' := DeliverKeeps(bot, l, root, step, ts, ok);
      QuietFunds(bot, l, root, Deliver(bot, step, ts, ok), l', root', now);
    } else {
      CancelBatchFunds(bot, TailNext(bot.funded.next, bot.queue), TailRewound(bot.funded.rewound, bot.queue), ts, now);
      l', root' := DeliverFunds(bot, l, root, step, ts, ok, now);
    }
  }

  lemma CancelBatchFunds(bot: Bot, next: Option<int>, rewound: multiset<int>, ts: int, now: int)
    requires EngineOk(bot.c, bot.engine) && bot.engine.pending.Some? && bot.untold == NOTHING_UNTOLD && bot.c.fundingHours > 0
    ensures
      var step := CancelPending(bot.engine, ts);
      var b := BatchOf(bot, step, ts);
      && step.st.position.None? && step.events != [] && !step.raised && Tame(bot.engine, step) && EngineOk(bot.c, step.st)
      && BatchFunds(None, next, rewound, Emitted(After(bot, step), b), Step0(bot.c), now)
  {
    var step := CancelPending(bot.engine, ts);
    NothingHandled(step.events);
    NoEntryKeepsTrade(EMPTY_DB, 0, None, step.events, BatchOf(bot, step, ts).tp);
  }

  // ---------------------------------------------------------------- restart

  /** What had been listed since the snapshot is rewound past. */
  lemma ListedAtRestart(db: Db, f: Funded, l: LedgerPos, root: nat, step: int, now: int)
    requires step > 0 && ListedOk(db, f, l, root, step, now)
    ensures ListedOk(db, f.(next := Saved(db), unsaved := [], rewound := f.rewound + multiset(f.unsaved)), l, root, step, now)
  {
    hide Owned, Boundaries, NextGrid, Saved, SettledSafe, AllBy;
    var first, saved, next := NextGrid(l.openedMs, step), Saved(db).value, f.next.value;
    NextGridOnGrid(l.openedMs, step);
    Stretches(first, saved, next, step);
    NoneUpTo(saved, step);
    RewoundSum(Boundaries(first, saved - 1, step), f.unsaved, f.rewound, now);
    NoneLater(now);
    assert SettledSafe(db.fundings, root, saved, f.rewound + multiset(f.unsaved)) by {
      BoundariesAreTheGrid(saved, next - 1, step);
      SettledNotRewound(db.fundings, root, saved, f.rewound, f.unsaved);
    }
  }

  lemma RewoundSum(a: seq<int>, b: seq<int>, r: multiset<int>, now: int)
    ensures multiset(a + b) + r == multiset(a) + (r + multiset(b))
    ensures AllBy(r, now) && AllBy(multiset(b), now) ==> AllBy(r + multiset(b), now)
  {}

  lemma RebootedFunds(bot: Bot, l: Option<LedgerPos>, root: nat, now: int, c: Config, arith: int, capital: real, blocked: seq<BlockReason>)
    requires bot.c.fundingHours > 0 && FundsBot(bot, l, root, now) && c.fundingHours == bot.c.fundingHours
    ensures FundsBot(Rebooted(bot, c, arith, capital, blocked), l, root, now)
  {
    hide ListedOk;
    if l.Some? { ListedAtRestart(bot.db, bot.funded, l.value, root, Step0(bot.c), now); }
  }

  lemma SettledNotRewound(rows: seq<FundRow>, root: nat, saved: int, rewound: multiset<int>, unsaved: seq<int>)
    requires SettledSafe(rows, root, saved, rewound) && forall i :: 0 <= i < |unsaved| ==> saved <= unsaved[i]
    ensures SettledSafe(rows, root, saved, rewound + multiset(unsaved))
  {
    forall ts | ts in multiset(unsaved) ensures saved <= ts {
      assert ts in unsaved;
    }
  }

  lemma RestoreFunds(b: Bot, l: Option<LedgerPos>, root: nat, st: PosState, ts: int, ok: bool, now: int)
    returns (l': Option<LedgerPos>, root': nat)
    requires Stored(b, l, root) && !b.window && b.funded.savedUnsaid == 0.0 && b.queue == []
    requires b.engine.position.None? && EngineOk(b.c, b.engine) && b.untold == NOTHING_UNTOLD
    requires l.Some? && st == SnapState(b.db).value
    requires !RestorePosition(b.c, b.engine, st, ts).raised
    requires b.c.fundingHours > 0 && FundsBot(b, l, root, now) && b.funded.next == Saved(b.db)
    ensures FundInv(Deliver(b, RestorePosition(b.c, b.engine, st, ts), ts, ok), l', root', now)
  {
    hide FullyMirrors, QueueFunds, Owned, Boundaries;
    var step := RestorePosition(b.c, b.engine, st, ts);
    var b1 := b.(engine := step.st);
    var batch := Batch(step.events, None, None);
    NeutralFits(l, step.events, None);
    NeutralKeepsLedger(l, step.events, None);
    assert !HasEntry(step.events) && !HasSnapshotEvent(step.events);
    NothingHandled(step.events);
    NoneUpTo(b.funded.next.value, Step0(b.c));
    l', root' := RecordFunds(b1, l, root, batch, ok, now);
  }

  lemma AbandonBatch(b: Bot, l: Option<LedgerPos>, gone: Event)
    requires b.engine.position.None? && b.queue == [] && b.c.fundingHours > 0 && b.untold == NOTHING_UNTOLD
    requires l.Some? && gone.PositionAbandoned? && gone.direction == l.value.direction && gone.qty == l.value.qty
    ensures
      var batch := Batch([gone], None, None);
      && BatchOk(l, Emitted(b, batch))
      && (forall next, rewound, now :: BatchFunds(l, next, rewound, Emitted(b, batch), Step0(b.c), now))
      && Ledger(l, [gone], None).None? && RewoundAfter(b.funded.rewound, batch) == b.funded.rewound
  {
    LedgerOne(l, gone, None);
    assert [gone][1..] == [];
    NothingHandled([gone]);
  }

  lemma AbandonFunds(b: Bot, l: Option<LedgerPos>, root: nat, ts: int, ok1: bool, ok2: bool, now: int)
    returns (l': Option<LedgerPos>, root': nat)
    requires Stored(b, l, root) && b.queue == [] && b.engine.position.None? && EngineOk(b.c, b.engine) && b.untold == NOTHING_UNTOLD
    requires b.c.fundingHours > 0 && FundsBot(b, l, root, now)
    ensures FundInv(Abandon(b, DbOpenPosition(b.db), ts, ok1, ok2), l', root', now)
  {
    hide SnapShows, SnapState, QueueFunds, Owned, Boundaries, ListedOk;
    var d := DbOpenPosition(b.db);
    ReadBack(b.db, l, root);
    if d.None? {
      l', root' := RecordFunds(b, l, root, Batch([], None, Some(SnapNow(b, ts))), ok2, now);
    } else {
      var gone := PositionAbandoned(ts, d.value.direction, d.value.qty, d.value.entryPrice);
      var batch := Batch([gone], None, None);
      AbandonBatch(b, l, gone);
      var l1, r1 := RecordFunds(b, l, root, batch, ok1, now);
      var b1 := Record(b, batch, ok1);
      l', root' := RecordFunds(b1, l1, r1, Batch([], None, Some(SnapNow(b1, ts))), ok2, now);
    }
  }

  /** A restart with the same funding interval. */
  predicate SameTerms(bot: Bot, i: Input)
    requires i.Restart?
  {
    i.rules.fundingHours == bot.c.fundingHours
  }

  lemma RestartFunds(bot: Bot, l: Option<LedgerPos>, root: nat, i: Input, now: int) returns (l': Option<LedgerPos>, root': nat)
    requires FundInv(bot, l, root, now) && i.Restart? && InputOk(i) && SameTerms(bot, i)
    ensures FundInv(Step1(bot, i), l', root', now)
  {
    hide FullyMirrors, SnapShows, QueueFunds, ListedOk, RestorePosition, Decide, Abandon, Deliver;
    var b := Rebooted(bot, i.rules, i.arith, i.capital, i.blocked);
    RebootCases(bot, i.rules, i.arith, i.capital, i.blocked, i.ts, i.ok1, i.ok2);
    ReadBack(bot.db, l, root);
    RebootedFunds(bot, l, root, now, i.rules, i.arith, i.capital, i.blocked);
    if MustAbandon(bot, i.rules, i.arith, i.capital, i.blocked, i.ts) {
      l', root' := AbandonFunds(b, l, root, i.ts, i.ok1, i.ok2, now);
    } else {
      NoWindow(bot, l, root, i);
      DecisionIff(bot.db, l, root, i.arith, bot.funded.savedUnsaid);
      if l.None? {
        l', root' := l, root;
      } else {
        l', root' := RestoreFunds(b, l, root, Decide(bot.db, i.arith).state, i.ts, i.ok1, now);
      }
    }
  }

  lemma NoWindow(bot: Bot, l: Option<LedgerPos>, root: nat, i: Input)
    requires Inv(bot, l, root) && i.Restart? && i.rules.Valid() && !MustAbandon(bot, i.rules, i.arith, i.capital, i.blocked, i.ts)
    ensures !bot.window
  {
    ReadBack(bot.db, l, root);
  }

  /** The feed announces the next grid point and does not go back in time. */
  ghost predicate InFeed(bot: Bot, i: Input, now: int) {
    && bot.c.fundingHours > 0
    && (i.Mark? ==> Announces(i.t, Step0(bot.c)) && now <= i.t.ts)
    && (i.Restart? ==> SameTerms(bot, i))
  }

  function NowAfter(i: Input, now: int): int {
    if i.Mark? then i.t.ts else now
  }

  /** A new intent or lifted blocks leave position and clock alone. */
  lemma AskFunds(bot: Bot, l: Option<LedgerPos>, root: nat, i: Input, now: int) returns (l': Option<LedgerPos>, root': nat)
    requires FundInv(bot, l, root, now) && (i.Submit? || i.Unblock?)
    ensures FundInv(Step1(bot, i), l', root', now)
    ensures Moved(bot, l, root, Step1(bot, i), l', root')
  {
    hide FullyMirrors, SnapShows, QueueOk, QueueFunds, ListedOk, Moved, Boundaries;
    l', root' := l, root;
    QuietFunds(bot, l, root, Step1(bot, i), l, root, now);
  }

  lemma RetryFunds(bot: Bot, l: Option<LedgerPos>, root: nat, n: nat, now: int) returns (l': Option<LedgerPos>, root': nat)
    requires FundInv(bot, l, root, now)
    ensures FundInv(Step1(bot, Retry(n)), l', root', now)
    ensures Moved(bot, l, root, Step1(bot, Retry(n)), l', root')
  {
    hide Inv, FundsBot, ClockFunds, Flush, Moved;
    l', root' := FlushFunds(bot, l, root, n, now);
  }

  lemma StepFunds(bot: Bot, l: Option<LedgerPos>, root: nat, i: Input, now: int) returns (l': Option<LedgerPos>, root': nat)
    requires FundInv(bot, l, root, now) && InputOk(i) && InFeed(bot, i, now)
    ensures FundInv(Step1(bot, i), l', root', NowAfter(i, now))
    ensures !i.Restart? ==> Moved(bot, l, root, Step1(bot, i), l', root')
  {
    hide Inv, QueueFunds, ListedOk, OnTick, Deliver, CloseNow, Moved, FundInv, Record, Flush, Reboot, RequestEntry, CancelPending, ClearBlocks;
    match i
    case Mark(t, ok) => l', root' := MarkFunds(bot, l, root, t, ok, now);
    case BarClose(ts, ok) => l', root' := BarCloseFunds(bot, l, root, ts, ok, now);
    case Close(mark, ts, reason, ok) => l', root' := CloseFunds(bot, l, root, mark, ts, reason, ok, now);
    case Submit(intent) => l', root' := AskFunds(bot, l, root, i, now);
    case Cancel(ts, ok) => l', root' := CancelFunds(bot, l, root, ts, ok, now);
    case Unblock => l', root' := AskFunds(bot, l, root, i, now);
    case Retry(n) => l', root' := RetryFunds(bot, l, root, n, now);
    case Restart(_, _, _, _, _, _, _) => l', root' := RestartFunds(bot, l, root, i, now);
  }

  ghost predicate FeedOk(bot: Bot, inputs: seq<Input>, now: int)
    requires RunOk(inputs)
    decreases |inputs|
  {
    inputs == [] || (InFeed(bot, inputs[0], now) && FeedOk(Step1(bot, inputs[0]), inputs[1..], NowAfter(inputs[0], now)))
  }

  function LastNow(inputs: seq<Input>, now: int): int
    decreases |inputs|
  {
    if inputs == [] then now else LastNow(inputs[1..], NowAfter(inputs[0], now))
  }

  predicate NoRestart(inputs: seq<Input>) {
    forall i :: 0 <= i < |inputs| ==> !inputs[i].Restart?
  }

  lemma {:induction false} RunFunds(bot: Bot, l: Option<LedgerPos>, root: nat, inputs: seq<Input>, now: int)
    returns (l': Option<LedgerPos>, root': nat)
    requires FundInv(bot, l, root, now) && RunOk(inputs) && FeedOk(bot, inputs, now)
    ensures FundInv(Run(bot, inputs), l', root', LastNow(inputs, now)) && now <= LastNow(inputs, now)
    ensures NoRestart(inputs) ==> Moved(bot, l, root, Run(bot, inputs), l', root')
    decreases |inputs|
  {
    hide Inv, ListedOk, QueueFunds, ClockFunds, Step1, Moved, Saved;
    if inputs == [] {
      l', root' := l, root;
      ListedSaved(bot, l, root, now);
      MovedNot(bot, bot, l, root, root);
    } else {
      var l1, r1 := StepFunds(bot, l, root, inputs[0], now);
      l', root' := RunFunds(Step1(bot, inputs[0]), l1, r1, inputs[1..], NowAfter(inputs[0], now));
      if NoRestart(inputs) {
        assert NoRestart(inputs[1..]);
        InvRoot(bot, l, root);
        MovedThen(bot, l, root, Step1(bot, inputs[0]), l1, r1, Run(bot, inputs), l', root');
      }
    }
  }

  lemma InvRoot(bot: Bot, l: Option<LedgerPos>, root: nat)
    requires Inv(bot, l, root)
    ensures l.Some? ==> root < |bot.db.positions|
  {}

  // ---------------------------------------------------------------- theorems

  lemma {:induction false} OwnedHas(rows: seq<FundRow>, root: nat, i: nat, g: int)
    requires i < |rows| && rows[i].owner == Some(root) && g in rows[i].boundaries
    ensures g in Owned(rows, root)
    decreases |rows|
  {
    if i < |rows| - 1 {
      OwnedHas(rows[..|rows| - 1], root, i, g);
    }
  }

  /** The rows of the open position list every grid point from the first after its entry to the next boundary once, and
      once more for every restart that rewound past it, less what raising ticks swallowed; those still unsaved are the
      ones the next restart would rewind past. What is settled is listed once for ever. */
  ghost predicate EachBoundaryListed(b: Bot, d: DbPosition)
    requires b.c.fundingHours > 0
  {
    && b.funded.next.Some? && Saved(b.db).Some?
    && var step, listed := Step0(b.c), multiset(Owned(b.db.fundings, d.root));
    && listed + b.funded.swallowed == multiset(Boundaries(NextGrid(d.openedMs, step), b.funded.next.value - 1, step)) + b.funded.rewound
    && b.funded.unsaved == Boundaries(Saved(b.db).value, b.funded.next.value - 1, step)
    && (forall i :: 0 <= i < |b.db.fundings| && b.db.fundings[i].owner == Some(d.root) && !b.db.fundings[i].missed ==>
          listed[b.db.fundings[i].ts] == 1)
    && (b.queue == [] && b.engine.position.Some? ==>
          && NextFunding(b.engine).Some?
          && b.untold.boundaries == Boundaries(b.funded.next.value, NextFunding(b.engine).value - 1, step))
  }

  /** Main theorem. After any run with any failing transactions and any crashes, the open position's boundaries stand
      in the rows exactly that often. */
  lemma FundingAccounted(bot: Bot, inputs: seq<Input>, now: int)
    requires Fresh(bot) && bot.c.fundingHours > 0 && RunOk(inputs) && FeedOk(bot, inputs, now)
    ensures var b := Run(bot, inputs);
      && b.c.fundingHours > 0
      && (DbOpenPosition(b.db).Some? ==> EachBoundaryListed(b, DbOpenPosition(b.db).value))
  {
    hide Inv, FundsBot, ClockFunds, Run, RunOk, FeedOk, DbOpenPosition, EachBoundaryListed;
    FreshFunds(bot, now);
    var l, root := RunFunds(bot, None, 0, inputs, now);
    InvListed(Run(bot, inputs), l, root, LastNow(inputs, now));
  }

  lemma InvListed(b: Bot, l: Option<LedgerPos>, root: nat, now: int)
    requires FundInv(b, l, root, now)
    ensures DbOpenPosition(b.db).Some? ==> EachBoundaryListed(b, DbOpenPosition(b.db).value)
  {
    hide FullyMirrors, QueueFunds, QueueOk, Owned, Boundaries, DbOpenPosition, SnapShows, EngineOk, Saved, AllBy, NextGrid;
    ReadBack(b.db, l, root);
    ListedSaved(b, l, root, now);
    if l.Some? {
      var step := Step0(b.c);
      var first := NextGrid(l.value.openedMs, step);
      NextGridOnGrid(l.value.openedMs, step);
      forall i | 0 <= i < |b.db.fundings| && b.db.fundings[i].owner == Some(root) && !b.db.fundings[i].missed
        ensures multiset(Owned(b.db.fundings, root))[b.db.fundings[i].ts] == 1
      {
        SettledOnce(b.db.fundings, root, i, first, b.funded.next.value, step, b.funded.rewound, b.funded.swallowed);
      }
    }
  }

  lemma FreshFunds(bot: Bot, now: int)
    requires Fresh(bot) && bot.c.fundingHours > 0
    ensures FundInv(bot, None, 0, now)
  {}

  lemma SettledOnce(rows: seq<FundRow>, root: nat, i: nat, first: int, next: int, step: int, rewound: multiset<int>, swallowed: multiset<int>)
    requires step > 0 && first % step == 0 && i < |rows| && rows[i].owner == Some(root)
    requires rows[i].boundaries == [rows[i].ts] && rows[i].ts !in rewound
    requires multiset(Owned(rows, root)) + swallowed == multiset(Boundaries(first, next - 1, step)) + rewound
    ensures multiset(Owned(rows, root))[rows[i].ts] == 1
  {
    hide Owned, Boundaries;
    var g := rows[i].ts;
    var grid := Boundaries(first, next - 1, step);
    OwnedHas(rows, root, i, g);
    assert g in multiset(Owned(rows, root));
    assert g in grid by {
      assert (multiset(Owned(rows, root)) + swallowed)[g] == (multiset(grid) + rewound)[g];
      assert g in multiset(grid);
    }
    GridMember(first, next - 1, step, g);
    CountOnce(grid, g);
  }

  // ---------------------------------------------------------------- when nothing is swallowed

  /** No tick of the run raises after disposing of a boundary. */
  ghost predicate AllTold(bot: Bot, inputs: seq<Input>)
    requires RunOk(inputs)
    decreases |inputs|
  {
    inputs == [] || ((inputs[0].Mark? ==> Tells(bot, inputs[0].t)) && AllTold(Step1(bot, inputs[0]), inputs[1..]))
  }

  predicate Tells(bot: Bot, t: MarkTick) {
    var step := OnTick(bot.c, bot.engine, t, NO_SCRIPT);
    step.raised ==> Handled(step.events) == []
  }

  ghost predicate NoneSwallowed(bot: Bot) {
    && bot.untold.boundaries == [] && bot.funded.swallowed == multiset{}
    && forall i :: 0 <= i < |bot.queue| ==> bot.queue[i].untold.boundaries == []
  }

  lemma {:induction false} FlushTells(bot: Bot, n: nat)
    requires NoneSwallowed(bot)
    ensures NoneSwallowed(Flush(bot, n))
    decreases n
  {
    if n != 0 && bot.queue != [] {
      FlushTells(CommitOne(bot.(queue := bot.queue[1..]), bot.queue[0]), n - 1);
    }
  }

  lemma RecordTells(bot: Bot, b: Batch, ok: bool)
    requires NoneSwallowed(bot)
    ensures NoneSwallowed(Record(bot, b, ok))
  {}

  lemma DeliverTells(bot: Bot, step: Step, ts: int, ok: bool)
    requires NoneSwallowed(bot) && (step.raised ==> Handled(step.events) == [])
    ensures NoneSwallowed(Deliver(bot, step, ts, ok))
  {
    hide Record, BatchOf, FundingPaid;
    if !step.raised && step.events != [] { RecordTells(After(bot, step), BatchOf(bot, step, ts), ok); }
  }

  lemma SameTells(a: Bot, b: Bot)
    requires NoneSwallowed(a) && b.untold == a.untold && b.funded == a.funded && b.queue == a.queue
    ensures NoneSwallowed(b)
  {}

  lemma StepTells(bot: Bot, i: Input)
    requires EngineOk(bot.c, bot.engine) && InputOk(i) && NoneSwallowed(bot) && (i.Mark? ==> Tells(bot, i.t))
    ensures NoneSwallowed(Step1(bot, i))
  {
    hide OnTick, CloseNow, Deliver, Record, NoneSwallowed, Reboot, RequestEntry, CancelPending, ClearBlocks, Flush, EngineOk;
    match i
    case Mark(t, ok) => DeliverTells(bot, OnTick(bot.c, bot.engine, t, NO_SCRIPT), t.ts, ok);
    case BarClose(ts, ok) => RecordTells(bot, Batch([], None, Some(SnapNow(bot, ts))), ok);
    case Close(mark, ts, reason, ok) =>
      ClosingCall(bot.c, bot.engine, mark, ts, reason);
      DeliverTells(bot, CloseNow(bot.c, bot.engine, mark, ts, reason, NO_EXIT), ts, ok);
    case Submit(intent) => SameTells(bot, Step1(bot, i));
    case Cancel(ts, ok) =>
      CancelAnswers(bot.engine, ts);
      DeliverTells(bot, CancelPending(bot.engine, ts), ts, ok);
    case Unblock => SameTells(bot, Step1(bot, i));
    case Retry(n) => FlushTells(bot, n);
    case Restart(ts, rules, arith, capital, blocked, ok1, ok2) => RebootTells(bot, i);
  }

  lemma CancelAnswers(s: EngineState, ts: int)
    ensures !CancelPending(s, ts).raised
  {}

  lemma RebootTells(bot: Bot, i: Input)
    requires NoneSwallowed(bot) && i.Restart? && InputOk(i)
    ensures NoneSwallowed(Step1(bot, i))
  {
    hide RestorePosition, Decide, Deliver, Record, DbOpenPosition;
    RebootCases(bot, i.rules, i.arith, i.capital, i.blocked, i.ts, i.ok1, i.ok2);
    var b := Rebooted(bot, i.rules, i.arith, i.capital, i.blocked);
    if MustAbandon(bot, i.rules, i.arith, i.capital, i.blocked, i.ts) {
      var d := DbOpenPosition(b.db);
      if d.None? {
        RecordTells(b, Batch([], None, Some(SnapNow(b, i.ts))), i.ok2);
      } else {
        var gone := Batch([PositionAbandoned(i.ts, d.value.direction, d.value.qty, d.value.entryPrice)], None, None);
        RecordTells(b, gone, i.ok1);
        RecordTells(Record(b, gone, i.ok1), Batch([], None, Some(SnapNow(Record(b, gone, i.ok1), i.ts))), i.ok2);
      }
    } else if !Decide(bot.db, i.arith).NoPosition? {
      DeliverTells(b, RestorePosition(b.c, b.engine, Decide(bot.db, i.arith).state, i.ts), i.ts, i.ok1);
    }
  }

  /** Over a run without such a tick nothing is swallowed: every boundary up to the next one stands in the rows. */
  lemma {:induction false} NothingSwallowed(bot: Bot, l: Option<LedgerPos>, root: nat, inputs: seq<Input>)
    requires Inv(bot, l, root) && NoneSwallowed(bot) && RunOk(inputs) && AllTold(bot, inputs)
    ensures NoneSwallowed(Run(bot, inputs))
    decreases |inputs|
  {
    hide Stored, QueueOk, Shows, EngineOk, NoneSwallowed, Step1, Tells;
    if inputs != [] {
      var l1, r1 := StepKeeps(bot, l, root, inputs[0]);
      StepTells(bot, inputs[0]);
      NothingSwallowed(Step1(bot, inputs[0]), l1, r1, inputs[1..]);
    }
  }

  // ---------------------------------------------------------------- what a restart repeats

  /** A restart that restores the position: nothing written, the queue gone, the clock at the snapshot's next boundary. */
  lemma Restored1(bot: Bot, l: LedgerPos, root: nat, i: Input)
    requires Inv(bot, Some(l), root) && i.Restart? && InputOk(i) && i.ok1
    requires !MustAbandon(bot, i.rules, i.arith, i.capital, i.blocked, i.ts)
    ensures
      var r := Step1(bot, i);
      && r.db == bot.db && r.queue == [] && r.c == i.rules
      && r.engine.position.Some? && r.engine.pending.None? && r.engine.lastTick.None? && r.engine.restoredFunding == Saved(bot.db)
  {
    hide FullyMirrors, Decide, WindowAfter, FundedAfter, QueueOk, Shows, EngineOk;
    RebootCases(bot, i.rules, i.arith, i.capital, i.blocked, i.ts, i.ok1, i.ok2);
    NoWindow(bot, Some(l), root, i);
    DecisionIff(bot.db, Some(l), root, i.arith, bot.funded.savedUnsaid);
    var b := Rebooted(bot, i.rules, i.arith, i.capital, i.blocked);
    var step := RestorePosition(b.c, b.engine, Decide(bot.db, i.arith).state, i.ts);
    var batch := BatchOf(b, step, i.ts);
    assert !HasSnapshotEvent(step.events);
    assert WriteEvents(bot.db, batch.events, batch.tp) == bot.db by {
      assert batch.events[1..] == [];
    }
    assert Deliver(b, step, i.ts, i.ok1) == CommitOne(b.(engine := step.st), Emitted(b.(engine := step.st), batch)) by {
      assert After(b, step) == b.(engine := step.st);
    }
  }

  /** The first tick after it lists the boundaries from there on, in rows of that position, as missed, unless it raises. */
  lemma FirstTick(r: Bot, l: LedgerPos, root: nat, t: MarkTick, now: int)
    requires FundInv(r, Some(l), root, now) && r.queue == [] && r.engine.position.Some? && r.engine.lastTick.None?
    requires r.engine.pending.None? && r.engine.restoredFunding.Some?
    requires Announces(t, Step0(r.c)) && now <= t.ts
    ensures
      var g, after := r.engine.restoredFunding.value, Step1(r, Mark(t, true));
      && g % Step0(r.c) == 0
      && Owned(after.db.fundings, root) == Owned(r.db.fundings, root) + ListedBy(r, t, Boundaries(g, t.nextFunding - 1, Step0(r.c)))
      && (forall other: nat | other != root :: Owned(after.db.fundings, other) == Owned(r.db.fundings, other))
  {
    hide OnTick, Boundaries, FundingFirst, BatchOf, Ledger, Mirrors, OwnersOk, HasSnapshotEvent, WriteEvents, Handled;
    var step := OnTick(r.c, r.engine, t, NO_SCRIPT);
    HeldTickFunds(r.c, r.engine, t);
    if !step.raised { TickRows(r, l, root, step, t.ts); }
  }

  /** A tick lists what it disposes of, unless it raises. */
  function ListedBy(r: Bot, t: MarkTick, boundaries: seq<int>): seq<int> {
    if OnTick(r.c, r.engine, t, NO_SCRIPT).raised then [] else boundaries
  }

  lemma TickRows(r: Bot, l: LedgerPos, root: nat, step: Step, ts: int)
    requires r.queue == [] && Mirrors(r.db.positions, Some(l), root) && FundingFirst(step.events) && !step.raised
    ensures
      var after := Deliver(r, step, ts, true);
      && Owned(after.db.fundings, root) == Owned(r.db.fundings, root) + Handled(step.events)
      && (forall other: nat | other != root :: Owned(after.db.fundings, other) == Owned(r.db.fundings, other))
  {
    hide Mirrors, FundingFirst, WriteEvents, Owned, HasSnapshotEvent, HasEntry, SnapNow, WindowAfter, FundedAfter;
    if step.events != [] {
      OwnedAfter(r.db, Some(l), root, step.events, BatchOf(r, step, ts).tp);
    }
  }

  /** A restart that restores what the database holds and can write. */
  ghost predicate CleanStart(bot: Bot, i: Input) {
    && i.Restart? && i.ok1 && InputOk(i) && SameTerms(bot, i)
    && !MustAbandon(bot, i.rules, i.arith, i.capital, i.blocked, i.ts)
  }

  /** What the first tick after the restart adds to the rows of a root. */
  lemma RestartThenTick(bot: Bot, l: Option<LedgerPos>, root: nat, now: int, i: Input, t: MarkTick)
    requires FundInv(bot, l, root, now) && CleanStart(bot, i)
    requires Announces(t, Step0(bot.c)) && now <= t.ts
    ensures
      var step, before, after := Step0(bot.c), bot.db.fundings, Step1(Step1(bot, i), Mark(t, true)).db.fundings;
      && (l.Some? ==>
            && Saved(bot.db).Some? && Saved(bot.db).value % step == 0
            && Owned(after, root)
            == Owned(before, root) + ListedBy(Step1(bot, i), t, Boundaries(Saved(bot.db).value, t.nextFunding - 1, step)))
      && (forall other: nat | l.None? || other != root :: Owned(after, other) == Owned(before, other))
  {
    hide FullyMirrors, QueueFunds, Owned, Boundaries, Step1, OnTick, MustAbandon, ListedOk, Saved, ClockFunds;
    if l.Some? {
      ListedSaved(bot, l, root, now);
      Restored1(bot, l.value, root, i);
      var r := Step1(bot, i);
      var l1, r1 := RestartFunds(bot, l, root, i, now);
      RowsSame(bot, l, root, r, l1, r1);
      FirstTick(r, l.value, root, t, now);
    } else {
      FlatRestart(bot, root, i, t);
    }
  }

  lemma RowsSame(bot: Bot, l: Option<LedgerPos>, root: nat, r: Bot, l1: Option<LedgerPos>, r1: nat)
    requires Inv(bot, l, root) && Inv(r, l1, r1) && r.db == bot.db
    ensures l1 == l && (l.Some? ==> r1 == root)
  {
    LedgerUnique(bot.db, l, root, l1, r1);
  }

  lemma FlatRestart(bot: Bot, root: nat, i: Input, t: MarkTick)
    requires Inv(bot, None, root) && i.Restart? && InputOk(i) && !MustAbandon(bot, i.rules, i.arith, i.capital, i.blocked, i.ts)
    ensures Step1(Step1(bot, i), Mark(t, true)).db.fundings == bot.db.fundings
  {
    hide OnTick, WindowAfter, FundedAfter;
    RebootCases(bot, i.rules, i.arith, i.capital, i.blocked, i.ts, i.ok1, i.ok2);
    NoWindow(bot, None, root, i);
    DecisionIff(bot.db, None, root, i.arith, bot.funded.savedUnsaid);
    var b := Rebooted(bot, i.rules, i.arith, i.capital, i.blocked);
    var step := OnTick(b.c, b.engine, t, NO_SCRIPT);
    FlatTickFunds(b.c, b.engine, t);
    FreeKeepsRows(b.db, step.events, BatchOf(b, step, t.ts).tp);
  }

  /** Main theorem on repeated reports. A committed batch has listed `g` of the open position and no snapshot followed. The
      bot goes on in any way, crashes, and restores; the first tick then lists `g` again if and only if no batch with a
      snapshot was committed in between and the tick does not raise. */
  lemma ReportedAgainIff(bot: Bot, l: LedgerPos, root: nat, now: int, g: int, inputs: seq<Input>, i: Input, t: MarkTick)
    requires FundInv(bot, Some(l), root, now) && g in bot.funded.unsaved
    requires RunOk(inputs) && NoRestart(inputs) && FeedOk(bot, inputs, now)
    requires CleanStart(Run(bot, inputs), i)
    requires Announces(t, Step0(bot.c)) && LastNow(inputs, now) <= t.ts
    ensures
      var end := Run(bot, inputs);
      var after := Step1(Step1(end, i), Mark(t, true));
      && (multiset(Owned(after.db.fundings, root))[g] > multiset(Owned(end.db.fundings, root))[g] <==>
            end.db.snaps == bot.db.snaps && !OnTick(Step1(end, i).c, Step1(end, i).engine, t, NO_SCRIPT).raised)
  {
    hide Inv, QueueFunds, Owned, Boundaries, Step1, Run, MustAbandon, ClockFunds, NextGrid, SettledSafe, Saved, FeedOk;
    var end := Run(bot, inputs);
    var l1, r1 := RunFunds(bot, Some(l), root, inputs, now);
    UnsavedIs(bot, l, root, now, g);
    InvRoot(bot, Some(l), root);
    NoWindow(end, l1, r1, i);
    StepKept(bot, inputs, now);
    RestartThenTick(end, l1, r1, LastNow(inputs, now), i, t);
    if l1.Some? && r1 == root {
      var saved, step := Saved(end.db).value, Step0(end.c);
      SameSaved(bot, end);
      GridMember(saved, t.nextFunding - 1, step, g);
      var added := ListedBy(Step1(end, i), t, Boundaries(saved, t.nextFunding - 1, step));
      assert multiset(added)[g] > 0 <==> g in added;
    }
  }

  lemma SameSaved(a: Bot, b: Bot)
    ensures a.db.snaps == b.db.snaps ==> Saved(a.db) == Saved(b.db)
  {}

  /** The interval does not change over such a run. */
  lemma {:induction false} StepKept(bot: Bot, inputs: seq<Input>, now: int)
    requires RunOk(inputs) && FeedOk(bot, inputs, now)
    ensures Run(bot, inputs).c.fundingHours == bot.c.fundingHours
    decreases |inputs|
  {
    if inputs != [] {
      Step1Keeps(bot, inputs[0]);
      StepKept(Step1(bot, inputs[0]), inputs[1..], NowAfter(inputs[0], now));
    }
  }

  lemma Step1Keeps(bot: Bot, i: Input)
    requires i.Restart? ==> i.rules.Valid() && i.rules.fundingHours == bot.c.fundingHours
    ensures Step1(bot, i).c.fundingHours == bot.c.fundingHours
  {
    hide OnTick, DoExit, RequestEntry, RestorePosition, Decide, Deliver, Record, Flush, Abandon, CloseNow, CancelPending,
         ClearBlocks, Blank, FundedAtRestart;
  }

  lemma UnsavedIs(bot: Bot, l: LedgerPos, root: nat, now: int, g: int)
    requires FundInv(bot, Some(l), root, now) && g in bot.funded.unsaved
    ensures bot.funded.next.Some? && Saved(bot.db).Some?
    ensures g % Step0(bot.c) == 0 && g <= now && Saved(bot.db).value <= g < bot.funded.next.value
  {
    hide Inv, QueueFunds, Owned, Boundaries, ClockFunds, NextGrid, SettledSafe, Saved;
    assert g in multiset(bot.funded.unsaved);
    GridMember(Saved(bot.db).value, bot.funded.next.value - 1, Step0(bot.c), g);
  }

  // ---------------------------------------------------------------- what waits in the queue at a crash

  /** Whatever the queue disposes of while the position stays open lies at or beyond its first next boundary. */
  lemma {:induction false} QueuedIsBeyond(l: Option<LedgerPos>, next: Option<int>, rewound: multiset<int>, queue: seq<Queued>, step: int, now: int,
                                          k: nat, g: int)
    requires step > 0 && QueueOk(l, queue) && QueueFunds(l, next, rewound, queue, step, now)
    requires k < |queue| && g in Handled(queue[k].batch.events)
    requires forall j :: 0 <= j <= k ==> !HasEntry(queue[j].batch.events)
    ensures next.Some? && next.value <= g <= now && g % step == 0 && l.Some?
    decreases k
  {
    hide Boundaries, FundingFirst, HasEntry, Handled;
    var b := queue[0].batch;
    NoEntryKeepsTrade(EMPTY_DB, 0, l, b.events, b.tp);
    if l.None? { NothingHandled(b.events); }
    if IsAbandon(b) {
      HandledNone(b);
      AbandonEnds(l, queue[0]);
    }
    if k > 0 {
      QueuedIsBeyond(Ledger(l, b.events, b.tp), queue[0].next, RewoundAfter(rewound, b), queue[1..], step, now, k - 1, g);
    } else {
      GridMember(next.value, queue[0].next.value - 1, step, g);
    }
  }

  lemma HandledNone(b: Batch)
    requires IsAbandon(b)
    ensures Handled(b.events) == []
  {
    assert b.events[1..] == [];
  }

  lemma RestoredTickMisses(c: Config, s: EngineState, t: MarkTick)
    requires s.position.Some? && s.lastTick.None?
    ensures forall e :: e in FundingOnTick(c, s, t).events ==> !e.FundingSettled?
  {}

  /** The first tick of a restored position settles nothing: the boundaries from the snapshot's next one are missed. */
  lemma FirstTickMisses(c: Config, s: EngineState, t: MarkTick, g: int)
    requires c.fundingHours > 0 && s.position.Some? && s.pending.None? && s.lastTick.None? && s.restoredFunding.Some?
    requires s.restoredFunding.value % Step0(c) == 0 && Announces(t, Step0(c)) && s.restoredFunding.value <= t.ts + Step0(c)
    requires s.restoredFunding.value <= g <= t.ts && g % Step0(c) == 0
    ensures
      var evs := OnTick(c, s, t, NO_SCRIPT).events;
      && (forall e :: e in evs ==> !e.FundingSettled?)
      && exists e :: e in evs && e.FundingMissed? && g in e.boundaries
  {
    hide OnTick, Judge, Boundaries, FundingOnTick;
    AnnouncedIsOnGrid(c, t);
    TickIsFundThenJudge(c, s, t, NO_SCRIPT);
    TickHandles(c, s, t);
    RestoredTickMisses(c, s, t);
    GridMember(s.restoredFunding.value, t.ts, Step0(c), g);
    var funded := FundingOnTick(c, s, t);
    JudgeHandlesNothing(c, funded.st.(lastTick := Some(t)), t.ts, t.mark, t.mark, t.mark, t.mark, t.mark, NO_EXIT);
    var e := MissedInHandled(funded.events, g);
    assert e in OnTick(c, s, t, NO_SCRIPT).events;
  }

  lemma {:induction false} MissedInHandled(evs: seq<Event>, g: int) returns (e: Event)
    requires g in Handled(evs) && forall e :: e in evs ==> !e.FundingSettled?
    ensures e in evs && e.FundingMissed? && g in e.boundaries
  {
    assert evs[0] in evs;
    if g in HandledBy(evs[0]) {
      e := evs[0];
    } else {
      e := MissedInHandled(evs[1..], g);
    }
  }

  /** Main theorem on the queue. A boundary that a batch still queued at the crash had settled or reported is written by
      nobody: the restart writes no funding row, and the first tick after it finds that boundary missed and, unless it
      raises, lists it so. */
  lemma QueuedIsMissed(bot: Bot, l: LedgerPos, root: nat, now: int, k: nat, g: int, i: Input, t: MarkTick)
    requires FundInv(bot, Some(l), root, now) && CleanStart(bot, i)
    requires k < |bot.queue| && g in Handled(bot.queue[k].batch.events)
    requires forall j :: 0 <= j <= k ==> !HasEntry(bot.queue[j].batch.events)
    requires Announces(t, Step0(bot.c)) && now <= t.ts
    ensures
      var r := Step1(bot, i);
      var evs := OnTick(r.c, r.engine, t, NO_SCRIPT).events;
      && r.db.fundings == bot.db.fundings && r.queue == []
      && (forall e :: e in evs ==> !e.FundingSettled?)
      && (exists e :: e in evs && e.FundingMissed? && g in e.boundaries)
      && (OnTick(r.c, r.engine, t, NO_SCRIPT).raised || g in Owned(Step1(r, Mark(t, true)).db.fundings, root))
  {
    hide FullyMirrors, Owned, Boundaries, Step1, OnTick, MustAbandon, BatchFunds, BatchOk, HasEntry, Handled, SettledSafe,
         NextGrid, Steps.Multiple;
    QueuedIsBeyond(Some(l), bot.funded.next, bot.funded.rewound, bot.queue, Step0(bot.c), now, k, g);
    Restored1(bot, l, root, i);
    var r := Step1(bot, i);
    var l1, r1 := RestartFunds(bot, Some(l), root, i, now);
    FirstTickMisses(r.c, r.engine, t, g);
    RestartThenTick(bot, Some(l), root, now, i, t);
    GridMember(Saved(bot.db).value, t.nextFunding - 1, Step0(bot.c), g);
  }
}
