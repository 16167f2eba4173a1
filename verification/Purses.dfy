/** The wallet across crashes and restarts (ops/runtime.py:355-417, ops/run_bot.py:268-271, 349, 382): what a restarted bot has
    in it, and that it is what the committed events tell. */
module Purses {
  import opened Types
  import opened EngineTypes
  import opened EngineModel
  import opened Accounting
  import opened PaperRuns
  import opened WalletRuns
  import opened Rows
  import opened Restore
  import opened Runtime

  /** The events of the queued batches, oldest first. */
  function Waiting(queue: seq<Queued>): seq<Event> {
    if queue == [] then [] else queue[0].batch.events + Waiting(queue[1..])
  }

  /** The wallet that capital, events and unseen funding come to. */
  function Balance(o: Outside, evs: seq<Event>): real {
    o.put - o.taken + Net(evs)
  }

  /** What one batch says of the wallet, `told` being told before it: a snapshot has it, and without one nothing moves it. */
  ghost predicate BatchRight(told: seq<Event>, q: Queued) {
    if q.batch.snapshot.Some? then q.batch.snapshot.value.wallet == q.wallet == Balance(q.outside, told + q.batch.events)
    else Net(q.batch.events) == 0.0
  }

  ghost predicate QueueRight(told: seq<Event>, queue: seq<Queued>)
    decreases |queue|
  {
    queue == [] || (BatchRight(told, queue[0]) && QueueRight(told + queue[0].batch.events, queue[1..]))
  }

  /** The durable half: the last snapshot has the wallet saved, and it is what the committed events come to. */
  ghost predicate SavedRight(p: Purse, db: Db) {
    match p.saved
    case None => LastSnap(db).None? && Net(p.told) == 0.0
    case Some(w) => LastSnap(db).Some? && LastSnap(db).value.wallet == w && w == Balance(p.savedOutside, p.told)
  }

  ghost predicate PurseRight(bot: Bot) {
    && SavedRight(bot.purse, bot.db)
    && QueueRight(bot.purse.told, bot.queue)
    && bot.engine.wallet == Balance(bot.purse.outside, bot.purse.told + Waiting(bot.queue))
  }

  lemma CommitRight(bot: Bot, q: Queued)
    requires SavedRight(bot.purse, bot.db) && BatchRight(bot.purse.told, q)
    ensures SavedRight(CommitOne(bot, q).purse, CommitOne(bot, q).db)
  {
    hide WriteEvents, FundedAfter, WindowAfter, Net;
    WritesKeepSnaps(bot.db, q.batch.events, q.batch.tp);
    NetAppend(bot.purse.told, q.batch.events);
  }

  lemma {:induction false} QueueAppendRight(told: seq<Event>, queue: seq<Queued>, q: Queued)
    requires QueueRight(told, queue) && BatchRight(told + Waiting(queue), q)
    ensures QueueRight(told, queue + [q]) && Waiting(queue + [q]) == Waiting(queue) + q.batch.events
    decreases |queue|
  {
    hide BatchRight;
    var all := queue + [q];
    if queue == [] {
      assert told + [] == told && all[1..] == [];
    } else {
      assert all[1..] == queue[1..] + [q];
      assert told + Waiting(queue) == told + queue[0].batch.events + Waiting(queue[1..]);
      QueueAppendRight(told + queue[0].batch.events, queue[1..], q);
    }
  }

  lemma RecordRight(bot: Bot, b: Batch, ok: bool)
    requires SavedRight(bot.purse, bot.db) && QueueRight(bot.purse.told, bot.queue)
    requires BatchRight(bot.purse.told + Waiting(bot.queue), Emitted(bot, b))
    requires bot.engine.wallet == Balance(bot.purse.outside, bot.purse.told + Waiting(bot.queue) + b.events)
    ensures PurseRight(Record(bot, b, ok))
  {
    hide SavedRight, BatchRight, Balance, FundedAfter, WindowAfter, Commit;
    var q := Emitted(bot, b);
    if bot.queue == [] && ok {
      assert bot.purse.told + Waiting(bot.queue) == bot.purse.told;
      CommitRight(bot.(untold := bot.untold.(boundaries := [])), q);
      assert bot.purse.told + b.events + [] == bot.purse.told + b.events;
    } else {
      QueueAppendRight(bot.purse.told, bot.queue, q);
      assert bot.purse.told + (Waiting(bot.queue) + b.events) == bot.purse.told + Waiting(bot.queue) + b.events;
    }
  }

  lemma {:induction false} FlushRight(bot: Bot, n: nat)
    requires PurseRight(bot)
    ensures PurseRight(Flush(bot, n))
    decreases n
  {
    hide SavedRight, BatchRight, Balance, FundedAfter, WindowAfter, Commit;
    if n != 0 && bot.queue != [] {
      var q, b1 := bot.queue[0], bot.(queue := bot.queue[1..]);
      CommitRight(b1, q);
      assert bot.purse.told + (q.batch.events + Waiting(bot.queue[1..])) == bot.purse.told + q.batch.events + Waiting(bot.queue[1..]);
      FlushRight(CommitOne(b1, q), n - 1);
    }
  }

  // ---------------------------------------------------------------- engine calls

  /** Events that take no snapshot move no money. */
  lemma {:induction false} QuietNet(evs: seq<Event>)
    requires !HasSnapshotEvent(evs) && AllNeutral(evs)
    ensures Net(evs) == 0.0
    decreases |evs|
  {
    if evs != [] {
      assert evs[0] in evs && !SnapshotEvent(evs[0]);
      forall e | e in evs[1..] ensures e in evs {}
      QuietNet(evs[1..]);
      NetAppend([evs[0]], evs[1..]);
      assert [evs[0]][1..] == [];
      assert evs == [evs[0]] + evs[1..];
    }
  }

  lemma {:induction false} FundingNet(evs: seq<Event>)
    requires OnlyFunding(evs)
    ensures Net(evs) == -FundingPaid(evs)
    decreases |evs|
  {
    if evs != [] {
      assert evs[0] in evs;
      forall e | e in evs[1..] ensures e in evs {}
      FundingNet(evs[1..]);
    }
  }

  lemma DeliverRight(bot: Bot, l: Option<LedgerPos>, step: Step, ts: int, ok: bool)
    requires PurseRight(bot) && Accounted(Paper, l, bot.engine, step, step.st.lastEntryTp) && Tame(bot.engine, step)
    ensures PurseRight(Deliver(bot, step, ts, ok))
  {
    hide QueueRight, Ledger, AllFit, Record, Net, LastSnap;
    var before := bot.purse.told + Waiting(bot.queue);
    WalletByKind(bot.engine.wallet, step.events);
    if step.raised {
      FundingNet(step.events);
    } else if step.events == [] {
      NetNothing();
    } else {
      NetAppend(before, step.events);
      if !HasSnapshotEvent(step.events) { QuietNet(step.events); }
      RecordRight(After(bot, step), BatchOf(bot, step, ts), ok);
    }
  }

  lemma SnapRight(bot: Bot, ts: int, ok: bool)
    requires PurseRight(bot)
    ensures PurseRight(Record(bot, Batch([], None, Some(SnapNow(bot, ts))), ok))
  {
    hide SavedRight, QueueRight, Record, Net;
    var before := bot.purse.told + Waiting(bot.queue);
    assert before + [] == before;
    RecordRight(bot, Batch([], None, Some(SnapNow(bot, ts))), ok);
  }

  lemma MarkRight(bot: Bot, t: MarkTick, ok: bool)
    requires PurseRight(bot) && EngineOk(bot.c, bot.engine)
    ensures PurseRight(Step1(bot, Mark(t, ok)))
  {
    hide OnTick, PurseRight, Accounted, Tame, Deliver;
    OnTickAccounted(bot.c, LedgerOf(bot.engine.position), bot.engine, t, NO_SCRIPT);
    TickOutcome(bot.c, bot.engine, t);
    DeliverRight(bot, LedgerOf(bot.engine.position), OnTick(bot.c, bot.engine, t, NO_SCRIPT), t.ts, ok);
  }

  lemma CloseRight(bot: Bot, mark: real, ts: int, reason: ExitReason, ok: bool)
    requires PurseRight(bot) && EngineOk(bot.c, bot.engine)
    ensures PurseRight(Step1(bot, Close(mark, ts, reason, ok)))
  {
    hide CloseNow, PurseRight, Accounted, Tame, Deliver;
    CloseOutcome(bot.c, LedgerOf(bot.engine.position), bot.engine, mark, ts, reason);
    DeliverRight(bot, LedgerOf(bot.engine.position), CloseNow(bot.c, bot.engine, mark, ts, reason, NO_EXIT), ts, ok);
  }

  lemma CancelRight(bot: Bot, ts: int, ok: bool)
    requires PurseRight(bot) && EngineOk(bot.c, bot.engine)
    ensures PurseRight(Step1(bot, Cancel(ts, ok)))
  {
    hide PurseRight, Deliver;
    OtherCallsAccounted(bot.c, LedgerOf(bot.engine.position), bot.engine, ts, 0.0, 0.0, Manual, NO_EXIT);
    DeliverRight(bot, LedgerOf(bot.engine.position), CancelPending(bot.engine, ts), ts, ok);
  }

  // ---------------------------------------------------------------- restart

  /** The blank bot has the wallet saved, or the capital if none is saved or the one saved is zero. */
  lemma RebootedPurse(bot: Bot, c: Config, arith: int, capital: real, blocked: seq<BlockReason>)
    requires PurseRight(bot)
    ensures
      var b := Rebooted(bot, c, arith, capital, blocked);
      && PurseRight(b)
      && b.engine.wallet == StartsWith(bot.purse, capital)
  {
    hide Net;
    assert bot.purse.told + [] == bot.purse.told;
  }

  function StartsWith(p: Purse, capital: real): real {
    match p.saved
    case None => capital
    case Some(w) => if w == 0.0 then capital else w
  }

  lemma RestoreAccounted(c: Config, s: EngineState, st: PosState, ts: int)
    requires c.mode.Paper? && s.position.None? && !RestorePosition(c, s, st, ts).raised
    ensures
      var step := RestorePosition(c, s, st, ts);
      && step.st.wallet == s.wallet && AllNeutral(step.events) && !HasSnapshotEvent(step.events) && step.events != []
  {}

  lemma AbandonRight(b: Bot, d: Option<DbPosition>, ts: int, ok1: bool, ok2: bool)
    requires PurseRight(b)
    ensures PurseRight(Abandon(b, d, ts, ok1, ok2)) && Abandon(b, d, ts, ok1, ok2).engine == b.engine
  {
    hide PurseRight, Record;
    if d.None? {
      SnapRight(b, ts, ok2);
    } else {
      var gone := PositionAbandoned(ts, d.value.direction, d.value.qty, d.value.entryPrice);
      GoneRight(b, gone, ok1);
      SnapRight(Record(b, Batch([gone], None, None), ok1), ts, ok2);
    }
  }

  lemma GoneRight(b: Bot, gone: Event, ok: bool)
    requires PurseRight(b) && gone.PositionAbandoned?
    ensures PurseRight(Record(b, Batch([gone], None, None), ok))
  {
    hide SavedRight, QueueRight, Record;
    assert [gone][1..] == [];
    WalletByKind(0.0, [gone]);
    WalletOne(0.0, gone);
    NetAppend(b.purse.told + Waiting(b.queue), [gone]);
    RecordRight(b, Batch([gone], None, None), ok);
  }

  lemma RestoredRight(b: Bot, st: PosState, ts: int, ok: bool)
    requires PurseRight(b) && b.c.mode.Paper? && b.engine.position.None? && !RestorePosition(b.c, b.engine, st, ts).raised
    ensures
      var after := Deliver(b, RestorePosition(b.c, b.engine, st, ts), ts, ok);
      PurseRight(after) && after.engine.wallet == b.engine.wallet
  {
    hide SavedRight, QueueRight, Record, Net, RestorePosition;
    var step := RestorePosition(b.c, b.engine, st, ts);
    RestoreAccounted(b.c, b.engine, st, ts);
    QuietNet(step.events);
    NetAppend(b.purse.told + Waiting(b.queue), step.events);
    RecordRight(After(b, step), BatchOf(b, step, ts), ok);
  }

  lemma RebootRight(bot: Bot, i: Input)
    requires PurseRight(bot) && i.Restart? && InputOk(i)
    ensures PurseRight(Step1(bot, i)) && Step1(bot, i).engine.wallet == StartsWith(bot.purse, i.capital)
  {
    hide PurseRight, Decide, RestorePosition, Deliver, Abandon, DbOpenPosition;
    RebootCases(bot, i.rules, i.arith, i.capital, i.blocked, i.ts, i.ok1, i.ok2);
    RebootedPurse(bot, i.rules, i.arith, i.capital, i.blocked);
    var b := Rebooted(bot, i.rules, i.arith, i.capital, i.blocked);
    if MustAbandon(bot, i.rules, i.arith, i.capital, i.blocked, i.ts) {
      AbandonRight(b, DbOpenPosition(b.db), i.ts, i.ok1, i.ok2);
    } else if !Decide(bot.db, i.arith).NoPosition? {
      RestoredRight(b, Decide(bot.db, i.arith).state, i.ts, i.ok1);
    }
  }

  // ---------------------------------------------------------------- every run

  lemma StepRight(bot: Bot, i: Input)
    requires PurseRight(bot) && EngineOk(bot.c, bot.engine) && InputOk(i)
    ensures PurseRight(Step1(bot, i))
  {
    hide PurseRight, EngineOk, Deliver, Record, Flush, Reboot, OnTick, CloseNow, CancelPending;
    match i
    case Mark(t, ok) => MarkRight(bot, t, ok);
    case BarClose(ts, ok) => SnapRight(bot, ts, ok);
    case Close(mark, ts, reason, ok) => CloseRight(bot, mark, ts, reason, ok);
    case Submit(intent) => SameRight(bot, Step1(bot, i));
    case Cancel(ts, ok) => CancelRight(bot, ts, ok);
    case Unblock => SameRight(bot, Step1(bot, i));
    case Retry(n) => FlushRight(bot, n);
    case Restart(_, _, _, _, _, _, _) => RebootRight(bot, i);
  }

  lemma SameRight(a: Bot, b: Bot)
    requires PurseRight(a) && b == a.(engine := b.engine) && b.engine.wallet == a.engine.wallet
    ensures PurseRight(b)
  {
    hide Net;
  }

  lemma {:induction false} RunRight(bot: Bot, l: Option<LedgerPos>, root: nat, inputs: seq<Input>)
    requires Inv(bot, l, root) && PurseRight(bot) && RunOk(inputs)
    ensures PurseRight(Run(bot, inputs))
    decreases |inputs|
  {
    hide Stored, QueueOk, Shows, EngineOk, PurseRight, Step1;
    if inputs != [] {
      var l1, r1 := StepKeeps(bot, l, root, inputs[0]);
      StepRight(bot, inputs[0]);
      RunRight(Step1(bot, inputs[0]), l1, r1, inputs[1..]);
    }
  }

  lemma FreshRight(bot: Bot)
    requires Fresh(bot)
    ensures PurseRight(bot)
  {
    NetNothing();
    assert bot.purse.told + Waiting(bot.queue) == [];
  }

  /** Main theorem on restarts. After any run, any failing transactions and a crash anywhere, the restarted bot has the wallet the
      engine held when the last committed batch with a snapshot was emitted, or the configured capital if there is none; or
      if that wallet was zero, which the code takes for none. */
  lemma RestartWallet(bot: Bot, inputs: seq<Input>, i: Input)
    requires Fresh(bot) && RunOk(inputs) && i.Restart? && InputOk(i)
    ensures Step1(Run(bot, inputs), i).engine.wallet == StartsWith(Run(bot, inputs).purse, i.capital)
  {
    hide Run, Step1, PurseRight, Fresh;
    FreshKeeps(bot);
    FreshRight(bot);
    RunRight(bot, None, 0, inputs);
    RebootRight(Run(bot, inputs), i);
  }

  /** Main theorem on the books, across every crash. The wallet saved is the capital put in, less the funding raising ticks took
      unseen, plus what every committed event tells; so is the engine's own, with the events still waiting. */
  lemma WalletAcrossRestarts(bot: Bot, inputs: seq<Input>)
    requires Fresh(bot) && RunOk(inputs)
    ensures
      var b := Run(bot, inputs);
      && (b.purse.saved.Some? ==> b.purse.saved.value == b.purse.savedOutside.put - b.purse.savedOutside.taken + Net(b.purse.told))
      && (b.purse.saved.None? ==> Net(b.purse.told) == 0.0)
      && b.engine.wallet == b.purse.outside.put - b.purse.outside.taken + Net(b.purse.told + Waiting(b.queue))
  {
    hide Run, Fresh, Net;
    FreshKeeps(bot);
    FreshRight(bot);
    RunRight(bot, None, 0, inputs);
  }

  // ---------------------------------------------------------------- nothing is left out on the way

  /** What the batches tell, committed or waiting. */
  function Told(bot: Bot): seq<Event> {
    bot.purse.told + Waiting(bot.queue)
  }

  /** The events a call hands over. */
  function Said(step: Step): seq<Event> {
    if step.raised then [] else step.events
  }

  function SaidBy(bot: Bot, i: Input): seq<Event> {
    match i
    case Mark(t, _) => Said(OnTick(bot.c, bot.engine, t, NO_SCRIPT))
    case Close(mark, ts, reason, _) => Said(CloseNow(bot.c, bot.engine, mark, ts, reason, NO_EXIT))
    case Cancel(ts, _) => Said(CancelPending(bot.engine, ts))
    case _ => []
  }

  lemma {:induction false} WaitingMore(queue: seq<Queued>, q: Queued)
    ensures Waiting(queue + [q]) == Waiting(queue) + q.batch.events
    decreases |queue|
  {
    var all := queue + [q];
    if queue == [] {
      assert all[1..] == [];
    } else {
      assert all[1..] == queue[1..] + [q];
      WaitingMore(queue[1..], q);
    }
  }

  lemma RecordTells(bot: Bot, b: Batch, ok: bool)
    ensures Told(Record(bot, b, ok)) == Told(bot) + b.events
  {
    hide Commit, WindowAfter, FundedAfter, NextFunding;
    WaitingMore(bot.queue, Emitted(bot, b));
  }

  lemma {:induction false} FlushTells(bot: Bot, n: nat)
    ensures Told(Flush(bot, n)) == Told(bot)
    decreases n
  {
    hide Commit, WindowAfter, FundedAfter;
    if n != 0 && bot.queue != [] {
      FlushTells(CommitOne(bot.(queue := bot.queue[1..]), bot.queue[0]), n - 1);
    }
  }

  lemma DeliverTells(bot: Bot, step: Step, ts: int, ok: bool)
    ensures Told(Deliver(bot, step, ts, ok)) == Told(bot) + Said(step)
  {
    hide Record;
    if !step.raised && step.events != [] { RecordTells(After(bot, step), BatchOf(bot, step, ts), ok); }
  }

  lemma StepTells(bot: Bot, i: Input)
    requires !i.Restart?
    ensures Told(Step1(bot, i)) == Told(bot) + SaidBy(bot, i)
  {
    hide Told, OnTick, CloseNow, CancelPending, Deliver, Record, Flush;
    match i
    case Mark(t, ok) => DeliverTells(bot, OnTick(bot.c, bot.engine, t, NO_SCRIPT), t.ts, ok);
    case BarClose(ts, ok) => RecordTells(bot, Batch([], None, Some(SnapNow(bot, ts))), ok);
    case Close(mark, ts, reason, ok) => DeliverTells(bot, CloseNow(bot.c, bot.engine, mark, ts, reason, NO_EXIT), ts, ok);
    case Cancel(ts, ok) => DeliverTells(bot, CancelPending(bot.engine, ts), ts, ok);
    case Retry(n) => FlushTells(bot, n);
    case Submit(intent) => SameTold(bot, Step1(bot, i));
    case Unblock => SameTold(bot, Step1(bot, i));
    case Restart(_, _, _, _, _, _, _) =>
  }

  lemma SameTold(a: Bot, b: Bot)
    requires a.purse == b.purse && a.queue == b.queue
    ensures Told(a) == Told(b)
  {}

  /** Everything the calls of a run hand over. */
  ghost function SaidOver(bot: Bot, inputs: seq<Input>): seq<Event>
    requires RunOk(inputs)
    decreases |inputs|
  {
    if inputs == [] then [] else SaidBy(bot, inputs[0]) + SaidOver(Step1(bot, inputs[0]), inputs[1..])
  }

  /** Main theorem on the queue. Over one process life, whatever the database refused: what is committed, and then what waits,
      is every event the calls handed over, each once and in order. */
  lemma {:induction false} EverythingTold(bot: Bot, inputs: seq<Input>)
    requires RunOk(inputs) && forall k :: 0 <= k < |inputs| ==> !inputs[k].Restart?
    ensures Told(Run(bot, inputs)) == Told(bot) + SaidOver(bot, inputs)
    decreases |inputs|
  {
    hide Told, SaidBy, Step1;
    if inputs != [] {
      StepTells(bot, inputs[0]);
      EverythingTold(Step1(bot, inputs[0]), inputs[1..]);
    }
  }
}
