module RuntimeObject {
  // The runtime as the program runs it (ops/runtime.py:355-417, 468-483): an engine object, a first-in first-out
  // queue of unwritten batches, and the database. Each callback is proved to do exactly what `Runtime.Step1` says, so
  // that the crash theorems are about this object. The `bool` and `nat` arguments say which transactions succeed.

  import opened Types
  import opened EngineTypes
  import opened EngineModel
  import opened Accounting
  import opened Rows
  import opened Restore
  import opened Runtime
  import opened EntryGate
  import EngineObject

  /** Write the event rows one by one, then the snapshot row; the caller commits all of it or nothing. */
  method RecordEvents(db: Db, b: Batch) returns (out: Db)
    ensures out == Commit(db, b)
  {
    out := db;
    var i := 0;
    while i < |b.events|
      invariant i <= |b.events| && WriteEvents(out, b.events[i..], b.tp) == WriteEvents(db, b.events, b.tp)
    {
      out := WriteEvent(out, b.events[i], b.tp);
      assert b.events[i..][1..] == b.events[i + 1..];
      i := i + 1;
    }
    if b.snapshot.Some? {
      out := out.(snaps := out.snaps + [b.snapshot.value]);
    }
  }

  class BotRuntime {
    const eng: EngineObject.Engine
    const arith: int
    var unrecorded: seq<Batch>
    var db: Db
    ghost var queue: seq<Queued>
    ghost var durable: Option<Position>
    ghost var window: bool
    ghost var funded: Funded
    ghost var untold: Untold
    ghost var purse: Purse

    /** The queue of the model is the batches kept, each with its history. */
    ghost predicate Valid()
      reads this, eng, eng.position
    {
      eng.Valid() && |queue| == |unrecorded| && forall i :: 0 <= i < |queue| ==> queue[i].batch == unrecorded[i]
    }

    ghost function State(): Bot
      requires Valid()
      reads this, eng, eng.position
    {
      Bot(eng.c, arith, eng.State(), queue, db, durable, window, funded, untold, purse)
    }

    constructor (eng: EngineObject.Engine, arith: int, db: Db)
      requires eng.Valid()
      ensures Valid() && this.eng == eng
      ensures State() == Bot(eng.c, arith, eng.State(), [], db, None, false, NOTHING_FUNDED, NOTHING_UNTOLD, NewPurse(eng.wallet))
    {
      this.eng, this.arith, this.db := eng, arith, db;
      unrecorded, queue, durable, window, funded, untold := [], [], None, false, NOTHING_FUNDED, NOTHING_UNTOLD;
      purse := NewPurse(eng.wallet);
    }

    /** A start on a database that an earlier life may have left: the engine begins with the wallet of the last snapshot, or with
        the configured capital if there is none or that wallet is zero. `before` is history. */
    constructor Start(c: Config, arith: int, db: Db, capital: real, blocked: seq<BlockReason>, ghost before: Bot)
      requires before.db == db
      ensures Valid() && fresh(eng)
      ensures State() == Rebooted(before, c, arith, capital, blocked)
    {
      var wallet := capital;
      if db.snaps != [] {
        var last := db.snaps[|db.snaps| - 1];
        if last.wallet != 0.0 { wallet := last.wallet; }
      }
      var engine := new EngineObject.Engine(c, wallet);
      engine.blocked := blocked;
      this.eng, this.arith, this.db := engine, arith, db;
      unrecorded, queue, durable, window := [], [], before.durable, before.window;
      funded, untold, purse := FundedAtRestart(before), NOTHING_UNTOLD, PurseAtRestart(before.purse, capital);
    }

    /** Behind an unwritten batch nothing is written directly. */
    method RecordBatch(b: Batch, ok: bool)
      requires Valid()
      modifies this
      ensures Valid() && State() == Record(old(State()), b, ok)
    {
      hide Commit, WindowAfter, FundedAfter, NextFunding;
      ghost var q := Emitted(State(), b);
      untold := untold.(boundaries := []);
      if unrecorded != [] || !ok {
        unrecorded, queue := unrecorded + [b], queue + [q];
        return;
      }
      db := RecordEvents(db, b);
      durable, window, funded, purse := q.held, WindowAfter(window, b), FundedAfter(funded, q), PurseAfter(purse, q);
    }

    /** The oldest batch, written in one transaction. */
    method WriteOldest()
      requires Valid() && unrecorded != []
      modifies this
      ensures Valid() && |unrecorded| < |old(unrecorded)|
      ensures State() == CommitOne(old(State()).(queue := old(queue)[1..]), old(queue)[0])
    {
      hide Commit, WindowAfter, FundedAfter;
      ghost var q := queue[0];
      db := RecordEvents(db, unrecorded[0]);
      durable, window, funded, purse := q.held, WindowAfter(window, q.batch), FundedAfter(funded, q), PurseAfter(purse, q);
      unrecorded, queue := unrecorded[1..], queue[1..];
    }

    /** The transaction after `n` successful ones fails. */
    method RetryUnrecorded(n: nat)
      requires Valid()
      modifies this
      ensures Valid() && State() == Step1(old(State()), Retry(n))
    {
      hide CommitOne, NextFunding, Flush;
      var left := n;
      while unrecorded != []
        invariant Valid() && Flush(State(), left) == Flush(old(State()), n)
        decreases |unrecorded|
      {
        FlushOne(State(), left);
        if left == 0 { break; }
        WriteOldest();
        left := left - 1;
      }
      FlushOne(State(), left);
    }

    method SnapshotRow(ts: int) returns (row: SnapRow)
      requires Valid()
      ensures row == SnapNow(State(), ts)
    {
      row := SnapRow(ts, arith, eng.wallet, PositionState(eng.State()));
    }

    /** One batch for one engine call: its events, the target of a fresh entry, and a snapshot if the state changed. */
    method HandleEvents(ev: seq<Event>, ts: int, ok: bool)
      requires Valid()
      modifies this
      ensures Valid() && State() == Deliver(old(State()), Step(old(State()).engine, ev, false), ts, ok)
    {
      untold := UntoldAfter(untold, Step(State().engine, ev, false));
      if ev == [] { return; }
      var tp := if HasEntry(ev) then eng.lastEntryTp else None;
      var snap := None;
      if HasSnapshotEvent(ev) {
        var row := SnapshotRow(ts);
        snap := Some(row);
      }
      RecordBatch(Batch(ev, tp, snap), ok);
    }

    /** `entry_blockers`, as far as the bot itself blocks; `other` is every other reason. */
    method GateClosed(other: bool) returns (closed: bool)
      requires Valid()
      ensures closed == Closed(State(), other)
    {
      closed := other || eng.blocked != [] || unrecorded != [];
    }

    /** A pending entry is dropped while the gate is closed. */
    method CancelPendingIfBlocked(ts: int, other: bool, ok: bool)
      requires Valid()
      modifies this, eng
      ensures eng.position == old(eng.position)
      ensures Valid() && State() == DropIfClosed(old(State()), ts, other, ok)
    {
      if eng.pending.None? { return; }
      var closed := GateClosed(other);
      if closed { CancelPendingEntry(ts, ok); }
    }

    /** A mark: what is pending is dropped while the gate is closed, then the engine ticks. */
    method OnMark(t: MarkTick, other: bool, okCancel: bool, ok: bool)
      requires Valid()
      modifies this, eng, eng.position
      ensures Valid() && State() == Take(old(State()), Marked(t, other, okCancel, ok))
    {
      CancelPendingIfBlocked(t.ts, other, okCancel);
      TickEngine(t, ok);
    }

    /** The tick of the wall clock: write what waits, close a position whose streams are silent, drop what is pending. */
    method SafetyTick(ts: int, retries: nat, stale: Option<real>, okClose: bool, other: bool, okCancel: bool)
      requires Valid()
      modifies this, eng, eng.position
      ensures Valid() && State() == Take(old(State()), Second(ts, retries, stale, okClose, other, okCancel))
    {
      RetryUnrecorded(retries);
      if stale.Some? { ClosePosition(stale.value, ts, StaleData, okClose); }
      CancelPendingIfBlocked(ts, other, okCancel);
    }

    method TickEngine(t: MarkTick, ok: bool)
      requires Valid()
      modifies this, eng, eng.position
      ensures Valid() && State() == Step1(old(State()), Mark(t, ok))
    {
      var ev, raised := eng.OnTick(t, NO_SCRIPT);
      if raised { LeaveUntold(ev); } else { HandleEvents(ev, t.ts, ok); }
    }

    /** The events of a call that raised are told to nobody. */
    ghost method LeaveUntold(ev: seq<Event>)
      requires Valid()
      modifies this`untold, this`purse
      ensures Valid()
      ensures
        var step := Step(State().engine, ev, true);
        State() == old(State()).(untold := UntoldAfter(old(untold), step), purse := Lost(old(purse), step))
    {
      purse := Lost(purse, Step(State().engine, ev, true));
      untold := UntoldAfter(untold, Step(State().engine, ev, true));
    }

    method BarSnapshot(ts: int, ok: bool)
      requires Valid()
      modifies this
      ensures Valid() && State() == Step1(old(State()), BarClose(ts, ok))
    {
      var row := SnapshotRow(ts);
      RecordBatch(Batch([], None, Some(row)), ok);
    }

    method ClosePosition(mark: real, ts: int, reason: ExitReason, ok: bool)
      requires Valid()
      modifies this, eng, eng.position
      ensures Valid() && State() == Step1(old(State()), Close(mark, ts, reason, ok))
    {
      var ev, raised := eng.CloseNow(mark, ts, reason, NO_EXIT);
      if raised { LeaveUntold(ev); } else { HandleEvents(ev, ts, ok); }
    }

    /** Refused while anything blocks. */
    method SubmitEntry(intent: EntryIntent, other: bool) returns (refused: bool)
      requires Valid()
      modifies eng
      ensures Valid() && State() == Take(old(State()), Submitted(intent, other))
      ensures refused == Closed(old(State()), other)
    {
      refused := GateClosed(other);
      if !refused { var ev, raised := eng.RequestEntry(intent); }
    }

    method CancelPendingEntry(ts: int, ok: bool)
      requires Valid()
      modifies this, eng
      ensures eng.position == old(eng.position)
      ensures Valid() && State() == Step1(old(State()), Cancel(ts, ok))
    {
      var ev := eng.CancelPending(ts);
      HandleEvents(ev, ts, ok);
    }

    /** Not restored: close the database's position without a result, then write a flat snapshot. */
    method AbandonPosition(d: Option<DbPosition>, ts: int, ok1: bool, ok2: bool)
      requires Valid()
      modifies this
      ensures Valid() && State() == Abandon(old(State()), d, ts, ok1, ok2)
    {
      if d.Some? {
        RecordBatch(Batch([PositionAbandoned(ts, d.value.direction, d.value.qty, d.value.entryPrice)], None, None), ok1);
      }
      var row := SnapshotRow(ts);
      RecordBatch(Batch([], None, Some(row)), ok2);
    }

    /** `apply_restore` on a freshly started runtime. */
    method ApplyRestore(decision: Decision, ts: int, ok1: bool, ok2: bool)
      requires Valid()
      modifies this, eng
      ensures Valid()
      ensures State() == Restored(old(State()), decision, ts, ok1, ok2)
    {
      match decision {
        case NoPosition =>
        case DoRestore(st) =>
          var d := DbOpenPosition(db);
          var ev, raised := eng.RestorePosition(st, ts);
          if raised {
            AbandonPosition(d, ts, ok1, ok2);
          } else {
            HandleEvents(ev, ts, ok1);
          }
        case Mismatch(d, _) => AbandonPosition(d, ts, ok1, ok2);
      }
    }
  }

  lemma FlushOne(bot: Bot, n: nat)
    ensures Flush(bot, n) == if n == 0 || bot.queue == [] then bot else Flush(CommitOne(bot.(queue := bot.queue[1..]), bot.queue[0]), n - 1)
  {}
}
