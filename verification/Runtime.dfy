module Runtime {
  // The PAPER bot around the engine: write-behind queue, crashes and restarts (ops/runtime.py:355-417, 468-483,
  // ops/restore.py:199-238). A callback runs the engine, then hands one batch to the queue; a batch reaches the
  // database as one transaction or not at all; a crash keeps only the database.

  import opened Types
  import opened Steps
  import opened Normalize
  import opened EngineTypes
  import opened EngineModel
  import opened Accounting
  import opened PaperRuns
  import opened Rows
  import opened Restore
  import FC = FundingClock

  /** History of what raising ticks have done and told nobody: funding settled on the position held, and boundaries
      disposed of since the last batch was emitted. */
  datatype Untold = Untold(paid: real, boundaries: seq<int>)

  const NOTHING_UNTOLD := Untold(0.0, [])

  /** What has moved the wallet beside the events: the capital put in, and the funding raising ticks took unseen. */
  datatype Outside = Outside(put: real, taken: real)

  /** A queued batch. The rest is history: the engine's position, its next funding boundary, what was untold, the wallet, and
      what had moved it beside the events when the batch was emitted. */
  datatype Queued = Queued(batch: Batch, held: Option<Position>, next: Option<int>, untold: Untold, wallet: real, outside: Outside)

  /** History of the wallet: what has moved it beside the events, the same and the wallet itself at the last committed batch
      with a snapshot, and the events of every batch committed. */
  datatype Purse = Purse(outside: Outside, saved: Option<real>, savedOutside: Outside, told: seq<Event>)

  /** History of the committed batches' funding: the next boundary they leave, those they disposed of since the last
      snapshot, those they had disposed of when a restart went back to the snapshot before them, and those no row
      lists; and the funding the rows lack against the position held, and against the one in the last snapshot. */
  datatype Funded = Funded(next: Option<int>, unsaved: seq<int>, rewound: multiset<int>, swallowed: multiset<int>,
                           unsaid: real, savedUnsaid: real)

  const NOTHING_FUNDED := Funded(None, [], multiset{}, multiset{}, 0.0, 0.0)

  /** `durable`, `window`, `funded` and `untold` are history: the engine's position at the last committed batch, whether
      that commit left an abandoned position without its flat snapshot, and the funding above. */
  datatype Bot = Bot(c: Config, arith: int, engine: EngineState, queue: seq<Queued>, db: Db, durable: Option<Position>, window: bool,
                     funded: Funded, untold: Untold, purse: Purse)

  predicate IsAbandon(b: Batch) {
    |b.events| == 1 && b.events[0].PositionAbandoned? && b.snapshot.None?
  }

  function WindowAfter(window: bool, b: Batch): bool {
    if IsAbandon(b) then true else if b.snapshot.Some? then false else window
  }

  function FundedAfter(f: Funded, q: Queued): Funded {
    var entered, saves := HasEntry(q.batch.events), q.batch.snapshot.Some?;
    Funded(q.next, if saves then [] else f.unsaved + q.untold.boundaries + FC.Handled(q.batch.events),
           if entered then multiset{} else f.rewound,
           if entered then multiset{} else f.swallowed + multiset(q.untold.boundaries),
           q.untold.paid, if saves then q.untold.paid else f.savedUnsaid)
  }

  function PurseAfter(p: Purse, q: Queued): Purse {
    var saves := q.batch.snapshot.Some?;
    Purse(p.outside, if saves then Some(q.wallet) else p.saved, if saves then q.outside else p.savedOutside, p.told + q.batch.events)
  }

  function CommitOne(bot: Bot, q: Queued): Bot {
    bot.(db := Commit(bot.db, q.batch), durable := q.held, window := WindowAfter(bot.window, q.batch),
         funded := FundedAfter(bot.funded, q), purse := PurseAfter(bot.purse, q))
  }

  /** The batch with the engine as it stands. */
  function Emitted(bot: Bot, b: Batch): Queued {
    Queued(b, bot.engine.position, NextFunding(bot.engine), bot.untold, bot.engine.wallet, bot.purse.outside)
  }

  /** `_record`: behind an unwritten batch a new one only queues; otherwise one transaction, which may fail. */
  function Record(bot: Bot, b: Batch, ok: bool): (r: Bot)
    ensures r.c == bot.c && r.engine == bot.engine
  {
    var q := Emitted(bot, b);
    var b1 := bot.(untold := bot.untold.(boundaries := []));
    if bot.queue == [] && ok then CommitOne(b1, q) else b1.(queue := bot.queue + [q])
  }

  /** `_retry_unrecorded`: the first `n` transactions succeed, then one fails or the queue is empty. */
  function Flush(bot: Bot, n: nat): (r: Bot)
    ensures r.c == bot.c && r.engine == bot.engine
    decreases n
  {
    if n == 0 || bot.queue == [] then bot
    else Flush(CommitOne(bot.(queue := bot.queue[1..]), bot.queue[0]), n - 1)
  }

  function Batches(queue: seq<Queued>): seq<Batch> {
    seq(|queue|, i requires 0 <= i < |queue| => queue[i].batch)
  }

  /** A database that answers is written up to date: the oldest `n` batches, or all there are, each once and in order. */
  lemma {:induction false} FlushWrites(bot: Bot, n: nat)
    ensures
      var k := if n < |bot.queue| then n else |bot.queue|;
      Flush(bot, n).queue == bot.queue[k..] && Flush(bot, n).db == CommitAll(bot.db, Batches(bot.queue[..k]))
    decreases n
  {
    hide Commit, WindowAfter, FundedAfter, PurseAfter;
    if n != 0 && bot.queue != [] {
      var k := if n < |bot.queue| then n else |bot.queue|;
      FlushWrites(CommitOne(bot.(queue := bot.queue[1..]), bot.queue[0]), n - 1);
      assert bot.queue[1..][k - 1..] == bot.queue[k..];
      assert bot.queue[..k][1..] == bot.queue[1..][..k - 1];
      assert Batches(bot.queue[..k])[1..] == Batches(bot.queue[1..][..k - 1]);
    }
  }

  function SnapNow(bot: Bot, ts: int): SnapRow {
    SnapRow(ts, bot.arith, bot.engine.wallet, PositionState(bot.engine))
  }

  /** After an engine call, before anything is handed over. */
  function After(bot: Bot, step: Step): Bot {
    bot.(engine := step.st, untold := UntoldAfter(bot.untold, step), purse := Lost(bot.purse, step))
  }

  /** A raising tick has paid its funding unseen. */
  function Lost(p: Purse, step: Step): Purse {
    if step.raised then p.(outside := p.outside.(taken := p.outside.taken + FundingPaid(step.events))) else p
  }

  /** A call that raises leaves its events untold; a position that is gone takes its own with it. */
  function UntoldAfter(u: Untold, step: Step): Untold {
    if step.raised then Untold(u.paid + FundingPaid(step.events), u.boundaries + FC.Handled(step.events))
    else Untold(if step.st.position.None? then 0.0 else u.paid, u.boundaries)
  }

  /** The one batch of an engine call: its events, the target of a fresh entry, and a snapshot if the state changed. */
  function BatchOf(bot: Bot, step: Step, ts: int): Batch {
    Batch(step.events, if HasEntry(step.events) then step.st.lastEntryTp else None,
          if HasSnapshotEvent(step.events) then Some(SnapNow(bot.(engine := step.st), ts)) else None)
  }

  /** `handle_events` after an engine call. A raised call delivers nothing. */
  function Deliver(bot: Bot, step: Step, ts: int, ok: bool): (r: Bot)
    ensures r.c == bot.c && r.engine == step.st
  {
    var b1 := After(bot, step);
    if step.raised || step.events == [] then b1 else Record(b1, BatchOf(bot, step, ts), ok)
  }

  /** `last_engine_wallet(...) or capital`: a snapshot whose wallet is zero counts for none. */
  function WalletAtStart(db: Db, capital: real): real {
    if LastSnap(db).Some? && LastSnap(db).value.wallet != 0.0 then LastSnap(db).value.wallet else capital
  }

  function Blank(db: Db, capital: real, blocked: seq<BlockReason>): EngineState {
    EngineState(WalletAtStart(db, capital), None, None, blocked, None, None, None)
  }

  /** Mismatch: close the database's position without a result, then write a flat snapshot. */
  function Abandon(bot: Bot, d: Option<DbPosition>, ts: int, ok1: bool, ok2: bool): (r: Bot)
    ensures r.c == bot.c && r.engine == bot.engine
  {
    var b1 := if d.None? then bot
              else Record(bot, Batch([PositionAbandoned(ts, d.value.direction, d.value.qty, d.value.entryPrice)], None, None), ok1);
    Record(b1, Batch([], None, Some(SnapNow(b1, ts))), ok2)
  }

  datatype Input =
    | Mark(t: MarkTick, ok: bool)
    | BarClose(ts: int, ok: bool)
    | Close(mark: real, ts: int, reason: ExitReason, ok: bool)
    | Submit(intent: EntryIntent)
    | Cancel(ts: int, ok: bool)
    | Unblock
    | Retry(n: nat)
    | Restart(ts: int, rules: ConfigData, arith: int, capital: real, blocked: seq<BlockReason>, ok1: bool, ok2: bool)

  /** Crash at this point, then start again from the database under the given rules. */
  function Reboot(bot: Bot, c: Config, arith: int, capital: real, blocked: seq<BlockReason>, ts: int, ok1: bool, ok2: bool): Bot {
    Restored(Rebooted(bot, c, arith, capital, blocked), Decide(bot.db, arith), ts, ok1, ok2)
  }

  /** What a restart does once it has decided. */
  function Restored(b: Bot, decision: Decision, ts: int, ok1: bool, ok2: bool): Bot {
    match decision
    case NoPosition => b
    case DoRestore(st) =>
      var step := RestorePosition(b.c, b.engine, st, ts);
      if step.raised then Abandon(b, DbOpenPosition(b.db), ts, ok1, ok2) else Deliver(b, step, ts, ok1)
    case Mismatch(d, _) => Abandon(b, d, ts, ok1, ok2)
  }

  /** The blank bot after a crash: nothing in memory, the database as it was. */
  function Rebooted(bot: Bot, c: Config, arith: int, capital: real, blocked: seq<BlockReason>): Bot {
    bot.(c := c, arith := arith, engine := Blank(bot.db, capital, blocked), queue := [], funded := FundedAtRestart(bot),
         untold := NOTHING_UNTOLD, purse := PurseAtRestart(bot.purse, capital))
  }

  /** The wallet goes back to the one saved; without one, or with one of zero, the capital is put in. */
  function PurseAtRestart(p: Purse, capital: real): Purse {
    p.(outside := if p.saved.None? then Outside(capital, 0.0)
                  else if p.saved.value == 0.0 then p.savedOutside.(put := p.savedOutside.put + capital)
                  else p.savedOutside)
  }

  /** The restored engine starts from the snapshot's next boundary. */
  function FundedAtRestart(bot: Bot): Funded {
    bot.funded.(next := if SnapState(bot.db).None? then None else SnapState(bot.db).value.nextFunding, unsaved := [],
                rewound := bot.funded.rewound + multiset(bot.funded.unsaved))
  }

  function Step1(bot: Bot, i: Input): Bot
    requires i.Restart? ==> i.rules.Valid()
  {
    match i
    case Mark(t, ok) => Deliver(bot, OnTick(bot.c, bot.engine, t, NO_SCRIPT), t.ts, ok)
    case BarClose(ts, ok) => Record(bot, Batch([], None, Some(SnapNow(bot, ts))), ok)
    case Close(mark, ts, reason, ok) => Deliver(bot, CloseNow(bot.c, bot.engine, mark, ts, reason, NO_EXIT), ts, ok)
    case Submit(intent) => bot.(engine := RequestEntry(bot.c, bot.engine, intent).st)
    case Cancel(ts, ok) => Deliver(bot, CancelPending(bot.engine, ts), ts, ok)
    case Unblock => bot.(engine := ClearBlocks(bot.engine).st)
    case Retry(n) => Flush(bot, n)
    case Restart(ts, rules, arith, capital, blocked, ok1, ok2) => Reboot(bot, rules, arith, capital, blocked, ts, ok1, ok2)
  }

  // ---------------------------------------------------------------- invariant

  /** Engine side: PAPER, one-way, and a known next funding time while holding. */
  predicate EngineOk(c: Config, s: EngineState) {
    && c.mode.Paper?
    && (s.pending.None? || s.position.None?)
    && (s.position.Some? ==> NextFunding(s).Some?)
  }

  ghost predicate RowShows(r: SnapRow, l: Option<LedgerPos>) {
    && (r.state.None? <==> l.None?)
    && (l.Some? ==> Shows(Paper, l, Some(r.state.value.position)) && r.state.value.nextFunding.Some?)
  }

  /** A batch that may follow a ledger `l`. */
  ghost predicate BatchOk(l: Option<LedgerPos>, q: Queued) {
    var b := q.batch;
    var l1 := Ledger(l, b.events, b.tp);
    && AllFit(l, b.events, b.tp)
    && (forall e :: e in b.events ==> !e.PositionSynced?)
    && Shows(Paper, Plus(l1, q.untold.paid), q.held)
    && (b.snapshot.Some? ==> RowShows(b.snapshot.value, Plus(l1, q.untold.paid)))
    && (b.snapshot.None? ==> AllNeutral(b.events) || (IsAbandon(b) && l.Some? && l1.None?))
  }

  ghost predicate QueueOk(l: Option<LedgerPos>, queue: seq<Queued>)
    decreases |queue|
  {
    queue == [] || (BatchOk(l, queue[0]) && QueueOk(Ledger(l, queue[0].batch.events, queue[0].batch.tp), queue[1..]))
  }

  /** The ledger after every queued batch. */
  function Tail(l: Option<LedgerPos>, queue: seq<Queued>): Option<LedgerPos>
    decreases |queue|
  {
    if queue == [] then l else Tail(Ledger(l, queue[0].batch.events, queue[0].batch.tp), queue[1..])
  }

  /** The durable half: rows, last snapshot and history agree. */
  ghost predicate Stored(bot: Bot, l: Option<LedgerPos>, root: nat) {
    && FullyMirrors(bot.db, l, root)
    && Shows(Paper, Plus(l, bot.funded.unsaid), bot.durable)
    && (if bot.window then l.None? && SnapState(bot.db).Some? else SnapShows(bot.db, Plus(l, bot.funded.savedUnsaid)))
  }

  /** `l` is the ledger of the durable rows and `root` its open root row. */
  ghost predicate Inv(bot: Bot, l: Option<LedgerPos>, root: nat) {
    && Stored(bot, l, root)
    && QueueOk(l, bot.queue)
    && Shows(Paper, Plus(Tail(l, bot.queue), bot.untold.paid), bot.engine.position)
    && (bot.engine.position.None? ==> bot.untold == NOTHING_UNTOLD)
    && EngineOk(bot.c, bot.engine)
  }

  /** A queued batch whose snapshot, if any, is stamped between the entry it shows and `now`. */
  ghost predicate TimelyBatch(l1: Option<LedgerPos>, q: Queued, arith: int, now: int) {
    var b := q.batch;
    && (b.snapshot.None? ==> AllNeutral(b.events))
    && (b.snapshot.Some? ==>
          b.snapshot.value.arith == arith && b.snapshot.value.ts <= now && (l1.Some? ==> l1.value.openedMs <= b.snapshot.value.ts))
  }

  ghost predicate TimelyQueue(l: Option<LedgerPos>, queue: seq<Queued>, arith: int, now: int)
    decreases |queue|
  {
    queue == [] ||
    var l1 := Ledger(l, queue[0].batch.events, queue[0].batch.tp);
    TimelyBatch(l1, queue[0], arith, now) && TimelyQueue(l1, queue[1..], arith, now)
  }

  /** One clock, one arithmetic: every snapshot, written or queued, is stamped between its entry and `now`. */
  ghost predicate Timely(bot: Bot, l: Option<LedgerPos>, now: int) {
    TimelyStored(bot, l, now) && TimelyQueue(l, bot.queue, bot.arith, now)
  }

  /** The stored half of `Timely`. */
  ghost predicate TimelyStored(bot: Bot, l: Option<LedgerPos>, now: int) {
    && !bot.window
    && (l.Some? ==>
          LastSnap(bot.db).Some? && l.value.openedMs <= LastSnap(bot.db).value.ts <= now && LastSnap(bot.db).value.arith == bot.arith)
  }

  predicate OpenedInThePast(s: EngineState, now: int) {
    s.position.Some? ==> s.position.value.openedMs <= now
  }

  lemma {:induction false} TimelyAppend(l: Option<LedgerPos>, queue: seq<Queued>, q: Queued, arith: int, now: int)
    requires TimelyQueue(l, queue, arith, now)
    requires TimelyBatch(Ledger(Tail(l, queue), q.batch.events, q.batch.tp), q, arith, now)
    ensures TimelyQueue(l, queue + [q], arith, now)
    decreases |queue|
  {
    var all := queue + [q];
    if queue == [] {
      assert all[1..] == [];
    } else {
      assert all[1..] == queue[1..] + [q];
      TimelyAppend(Ledger(l, queue[0].batch.events, queue[0].batch.tp), queue[1..], q, arith, now);
    }
  }

  lemma {:induction false} TimelyLater(l: Option<LedgerPos>, queue: seq<Queued>, arith: int, now: int, later: int)
    requires TimelyQueue(l, queue, arith, now) && now <= later
    ensures TimelyQueue(l, queue, arith, later)
    decreases |queue|
  {
    if queue != [] {
      TimelyLater(Ledger(l, queue[0].batch.events, queue[0].batch.tp), queue[1..], arith, now, later);
    }
  }

  lemma {:induction false} QueueAppend(l: Option<LedgerPos>, queue: seq<Queued>, q: Queued)
    requires QueueOk(l, queue) && BatchOk(Tail(l, queue), q)
    ensures QueueOk(l, queue + [q])
    ensures Tail(l, queue + [q]) == Ledger(Tail(l, queue), q.batch.events, q.batch.tp)
    decreases |queue|
  {
    var all := queue + [q];
    if queue == [] {
      assert all[1..] == [];
    } else {
      assert all[1..] == queue[1..] + [q];
      QueueAppend(Ledger(l, queue[0].batch.events, queue[0].batch.tp), queue[1..], q);
    }
  }

  /** Committing the oldest batch moves the durable ledger by exactly that batch. */
  lemma CommitKeeps(bot: Bot, l: Option<LedgerPos>, root: nat, q: Queued) returns (root': nat)
    requires Stored(bot, l, root) && BatchOk(l, q)
    ensures root' == RootAfter(bot.db, root, q.batch.events, q.batch.tp)
    ensures
      var l1 := Ledger(l, q.batch.events, q.batch.tp);
      var b1 := CommitOne(bot, q);
      && Stored(b1, l1, root')
      && (forall now | TimelyStored(bot, l, now) && TimelyBatch(l1, q, bot.arith, now) :: TimelyStored(b1, l1, now))
  {
    var b := q.batch;
    EventsFullyMirror(bot.db, l, root, b.events, b.tp);
    root' := RootAfter(bot.db, root, b.events, b.tp);
    WritesKeepSnaps(bot.db, b.events, b.tp);
    if b.snapshot.None? && AllNeutral(b.events) {
      NeutralKeepsLedger(l, b.events, b.tp);
      if b.events != [] { assert b.events[0] in b.events; }
    }
  }

  lemma {:induction false} WritesKeepSnaps(db: Db, evs: seq<Event>, tp: Option<real>)
    ensures WriteEvents(db, evs, tp).snaps == db.snaps
    decreases |evs|
  {
    if evs != [] {
      WritesKeepSnaps(WriteEvent(db, evs[0], tp), evs[1..], tp);
    }
  }

  lemma RecordKeeps(bot: Bot, l: Option<LedgerPos>, root: nat, b: Batch, ok: bool)
    returns (l': Option<LedgerPos>, root': nat)
    requires Stored(bot, l, root) && QueueOk(l, bot.queue) && EngineOk(bot.c, bot.engine)
    requires bot.engine.position.None? ==> bot.untold.paid == 0.0
    requires BatchOk(Tail(l, bot.queue), Emitted(bot, b))
    ensures Inv(Record(bot, b, ok), l', root')
    ensures forall now |
      Timely(bot, l, now) && TimelyBatch(Ledger(Tail(l, bot.queue), b.events, b.tp), Emitted(bot, b), bot.arith, now) ::
      Timely(Record(bot, b, ok), l', now)
  {
    var q := Emitted(bot, b);
    if bot.queue == [] && ok {
      root' := CommitKeeps(bot.(untold := bot.untold.(boundaries := [])), l, root, q);
      l' := Ledger(l, b.events, b.tp);
    } else {
      QueueAppend(l, bot.queue, q);
      l', root' := l, root;
      forall now | Timely(bot, l, now) && TimelyBatch(Ledger(Tail(l, bot.queue), b.events, b.tp), q, bot.arith, now)
        ensures Timely(Record(bot, b, ok), l', now)
      {
        TimelyAppend(l, bot.queue, q, bot.arith, now);
      }
    }
  }

  lemma {:induction false} FlushKeeps(bot: Bot, l: Option<LedgerPos>, root: nat, n: nat) returns (l': Option<LedgerPos>, root': nat)
    requires Inv(bot, l, root)
    ensures Inv(Flush(bot, n), l', root')
    ensures forall now | Timely(bot, l, now) :: Timely(Flush(bot, n), l', now)
    decreases n
  {
    hide FullyMirrors, SnapShows, SnapState, Ledger, Multiple, FundedAfter, WindowAfter, BatchOk, Shows, EngineOk;
    if n == 0 || bot.queue == [] {
      l', root' := l, root;
    } else {
      var q := bot.queue[0];
      var b1 := bot.(queue := bot.queue[1..]);
      var r1 := CommitKeeps(b1, l, root, q);
      l', root' := FlushKeeps(CommitOne(b1, q), Ledger(l, q.batch.events, q.batch.tp), r1, n - 1);
    }
  }

  // ---------------------------------------------------------------- engine calls

  lemma IgnoresTp(l: Option<LedgerPos>, evs: seq<Event>, tp: Option<real>, tp': Option<real>)
    requires !HasEntry(evs) && AllFit(l, evs, tp)
    ensures Ledger(l, evs, tp) == Ledger(l, evs, tp') && AllFit(l, evs, tp')
    decreases |evs|
  {
    if evs != [] {
      assert evs[0] in evs;
      forall e | e in evs[1..] ensures e in evs {}
      IgnoresTp(LedgerStep(l, evs[0], tp), evs[1..], tp, tp');
    }
  }

  /** Without an entry the ledger carries what is unsaid along. */
  lemma {:induction false} CarriesUnsaid(l: Option<LedgerPos>, evs: seq<Event>, tp: Option<real>, unsaid: real)
    requires !HasEntry(evs) && AllFit(Plus(l, unsaid), evs, tp)
    ensures Ledger(Plus(l, unsaid), evs, tp) == Plus(Ledger(l, evs, tp), unsaid) && AllFit(l, evs, tp)
    decreases |evs|
  {
    if evs != [] {
      assert evs[0] in evs;
      forall e | e in evs[1..] ensures e in evs {}
      CarriesUnsaid(LedgerStep(l, evs[0], tp), evs[1..], tp, unsaid);
    }
  }

  /** Events of the funding part of a tick. */
  predicate OnlyFunding(evs: seq<Event>) {
    forall e :: e in evs ==> e.FundingSettled? || e.FundingMissed? || e.EntriesBlocked?
  }

  lemma {:induction false} FundingAdds(l: Option<LedgerPos>, evs: seq<Event>, tp: Option<real>)
    requires OnlyFunding(evs) && (l.None? ==> evs == [])
    ensures Ledger(l, evs, tp) == Plus(l, FundingPaid(evs))
    decreases |evs|
  {
    if evs != [] {
      assert evs[0] in evs;
      forall e | e in evs[1..] ensures e in evs {}
      FundingAdds(LedgerStep(l, evs[0], tp), evs[1..], tp);
    }
  }

  /** What a PAPER call may do beside being accounted for: it enters only when flat, and if it raises it has settled funding
      at most. */
  predicate Tame(s: EngineState, step: Step) {
    && (s.position.Some? ==> !HasEntry(step.events))
    && (step.raised ==> OnlyFunding(step.events) && (s.position.None? ==> step.events == [] && step.st.position.None?))
  }

  /** The batch of an accounted-for engine call fits behind the queued ones. */
  lemma DeliverBatchOk(bot: Bot, l: Option<LedgerPos>, step: Step, ts: int)
    requires EngineOk(bot.c, step.st) && Tame(bot.engine, step) && !step.raised
    requires Accounted(Paper, Plus(l, bot.untold.paid), bot.engine, step, step.st.lastEntryTp)
    requires bot.engine.position.None? ==> l.None? && bot.untold.paid == 0.0
    ensures
      var b := BatchOf(bot, step, ts);
      && BatchOk(l, Emitted(After(bot, step), b))
      && Plus(Ledger(l, b.events, b.tp), bot.untold.paid) == Ledger(Plus(l, bot.untold.paid), step.events, step.st.lastEntryTp)
  {
    hide Multiple;
    if !HasEntry(step.events) {
      CarriesUnsaid(l, step.events, step.st.lastEntryTp, bot.untold.paid);
      IgnoresTp(l, step.events, step.st.lastEntryTp, None);
    }
  }

  /** A raising call moves the engine's position by what it leaves untold. */
  lemma RaisedShows(bot: Bot, l: Option<LedgerPos>, step: Step)
    requires step.raised && Tame(bot.engine, step)
    requires Shows(Paper, Plus(l, bot.untold.paid), bot.engine.position)
    requires Accounted(Paper, Plus(l, bot.untold.paid), bot.engine, step, step.st.lastEntryTp)
    ensures Shows(Paper, Plus(l, After(bot, step).untold.paid), step.st.position)
  {
    FundingAdds(Plus(l, bot.untold.paid), step.events, step.st.lastEntryTp);
  }

  /** Delivering an accounted-for engine call keeps the invariant, whether it raises or not. */
  lemma DeliverKeeps(bot: Bot, l: Option<LedgerPos>, root: nat, step: Step, ts: int, ok: bool)
    returns (l': Option<LedgerPos>, root': nat)
    requires Inv(bot, l, root) && EngineOk(bot.c, step.st) && Tame(bot.engine, step)
    requires Accounted(Paper, Plus(Tail(l, bot.queue), bot.untold.paid), bot.engine, step, step.st.lastEntryTp)
    ensures Inv(Deliver(bot, step, ts, ok), l', root')
    ensures Timely(bot, l, ts) && OpenedInThePast(step.st, ts) ==> Timely(Deliver(bot, step, ts, ok), l', ts)
  {
    hide FullyMirrors, SnapShows, SnapState, Multiple;
    l', root' := l, root;
    if step.raised {
      RaisedShows(bot, Tail(l, bot.queue), step);
    } else if step.events != [] {
      DeliverBatchOk(bot, Tail(l, bot.queue), step, ts);
      l', root' := RecordKeeps(After(bot, step), l, root, BatchOf(bot, step, ts), ok);
    }
  }

  /** The position after a call is the old one or was opened at `ts`. */
  predicate OpenedBy(s: EngineState, st: EngineState, ts: int) {
    st.position.Some? ==>
      st.position.value.openedMs == ts || (s.position.Some? && st.position.value.openedMs == s.position.value.openedMs)
  }

  /** The tick raises after it has settled a funding, and nobody is told. Only a position whose quantity is off the
      step can come to that: `PaperRuns.OffStepTick` says when. */
  predicate Unsaid(c: Config, s: EngineState, t: MarkTick) {
    s.position.Some? && GridOk(c, t) && DueOnTick(s, t) != 0.0 && OnTick(c, s, t, NO_SCRIPT).raised
  }

  /** What the rows record of a position. */
  predicate SameRecord(p: Option<Position>, q: Option<Position>) {
    && (p.None? <==> q.None?)
    && (p.Some? ==> q.value == p.value.(liqPrice := q.value.liqPrice))
  }

  /** A tick never loses a position silently. If it raises, every recorded field stays, unless funding was due on a
      position off the step; and on its step the position is untouched. */
  lemma TickOutcome(c: Config, s: EngineState, t: MarkTick)
    requires EngineOk(c, s)
    ensures
      var step := OnTick(c, s, t, NO_SCRIPT);
      && EngineOk(c, step.st)
      && (step.raised ==> (SameRecord(s.position, step.st.position) <==> !Unsaid(c, s, t)))
      && (step.raised && OnStep(c, s) ==> step.st.position == s.position)
      && OpenedBy(s, step.st, t.ts)
      && Tame(s, step)
  {
    hide Multiple, OnTick;
    if !GridOk(c, t) {
      OffGridTick(c, s, t, NO_SCRIPT);
    } else if s.position.None? {
      FlatTick(c, s, t);
    } else if Multiple(s.position.value.qty, c.rules.marketStep) {
      HeldOpensNothing(c, s, t);
      OnStepTick(c, s, t);
    } else {
      HeldOpensNothing(c, s, t);
      OffStepOutcome(c, s, t);
    }
  }

  lemma HeldOpensNothing(c: Config, s: EngineState, t: MarkTick)
    requires s.position.Some? && s.pending.None? && GridOk(c, t)
    ensures OnlyFunding(FundingOnTick(c, s, t).events) && !HasEntry(OnTick(c, s, t, NO_SCRIPT).events)
  {
    hide Judge, OnTick;
    TickIsFundThenJudge(c, s, t, NO_SCRIPT);
    var s1 := FundingOnTick(c, s, t).st.(lastTick := Some(t));
    FC.JudgeHandlesNothing(c, s1, t.ts, t.mark, t.mark, t.mark, t.mark, t.mark, NO_EXIT);
  }

  lemma OnStepTick(c: Config, s: EngineState, t: MarkTick)
    requires EngineOk(c, s) && s.position.Some? && Multiple(s.position.value.qty, c.rules.marketStep) && GridOk(c, t)
    ensures var step := OnTick(c, s, t, NO_SCRIPT); !step.raised && EngineOk(c, step.st) && OpenedBy(s, step.st, t.ts)
  {
    TickHeld(c, s, t);
    FundingKeepsStake(c, s, t);
    TickIsFundThenJudge(c, s, t, NO_SCRIPT);
    JudgeHeld(c, FundingOnTick(c, s, t).st.(lastTick := Some(t)), t.ts, t.mark, t.mark, t.mark, t.mark, t.mark);
  }

  lemma OffStepOutcome(c: Config, s: EngineState, t: MarkTick)
    requires EngineOk(c, s) && s.position.Some? && !Multiple(s.position.value.qty, c.rules.marketStep) && GridOk(c, t)
    ensures
      var step := OnTick(c, s, t, NO_SCRIPT);
      && EngineOk(c, step.st) && OpenedBy(s, step.st, t.ts)
      && (step.raised ==> step.events == FundingOnTick(c, s, t).events)
      && (step.raised ==> (SameRecord(s.position, step.st.position) <==> DueOnTick(s, t) == 0.0))
  {
    hide Multiple, OnTick, FundingOnTick, TrailStep, DueOnTick, LiquidationLoss;
    OffStepTick(c, s, t);
    FundingKeepsPending(c, s, t);
    var funded := FundingOnTick(c, s, t).st.(lastTick := Some(t));
    TrailFrame(funded, t.ts, t.mark, t.mark);
    TrailKeepsTrade(funded, t.ts, t.mark, t.mark);
  }

  lemma FlatTick(c: Config, s: EngineState, t: MarkTick)
    requires EngineOk(c, s) && s.position.None? && GridOk(c, t)
    ensures
      var step := OnTick(c, s, t, NO_SCRIPT);
      && EngineOk(c, step.st)
      && (step.raised ==> step.st.position == s.position && step.events == [])
      && OpenedBy(s, step.st, t.ts)
  {
    var funded := FundingOnTick(c, s, t);
    var s1 := funded.st.(lastTick := Some(t));
    var entered := EntryOnTick(c, s1, t.ts, t.mark, NO_ENTRY, NO_EXIT);
    if s1.pending.Some? && t.ts > s1.pending.value.decidedMs {
      RaisedEntryIsFlat(c, s1, t.mark, t.ts);
      if entered.st.position.Some? {
        StakeAtEntry(c, s1, t.mark, t.ts);
        JudgeHeld(c, entered.st, t.ts, t.mark, t.mark, t.mark, t.mark, t.mark);
        var judged := Judge(c, entered.st, t.ts, t.mark, t.mark, t.mark, t.mark, t.mark, NO_EXIT);
        if judged.st.position.Some? {
          TrailKeepsTrade(entered.st, t.ts, t.mark, t.mark);
        }
      }
    }
  }

  // ---------------------------------------------------------------- restart

  /** A restart keeps to PAPER rules. */
  ghost predicate InputOk(i: Input) {
    i.Restart? ==> i.rules.Valid() && i.rules.mode.Paper?
  }

  lemma AbandonKeeps(bot: Bot, l: Option<LedgerPos>, root: nat, ts: int, ok1: bool, ok2: bool)
    returns (l': Option<LedgerPos>, root': nat)
    requires Stored(bot, l, root)
    requires bot.queue == [] && bot.engine.position.None? && EngineOk(bot.c, bot.engine) && bot.untold == NOTHING_UNTOLD
    ensures Inv(Abandon(bot, DbOpenPosition(bot.db), ts, ok1, ok2), l', root')
  {
    var d := DbOpenPosition(bot.db);
    ReadBack(bot.db, l, root);
    if d.None? {
      l', root' := RecordKeeps(bot, l, root, Batch([], None, Some(SnapNow(bot, ts))), ok2);
    } else {
      var gone := PositionAbandoned(ts, d.value.direction, d.value.qty, d.value.entryPrice);
      var b := Batch([gone], None, None);
      LedgerOne(l, gone, None);
      assert [gone][1..] == [];
      var l1, r1 := RecordKeeps(bot, l, root, b, ok1);
      var b1 := Record(bot, b, ok1);
      l', root' := RecordKeeps(b1, l1, r1, Batch([], None, Some(SnapNow(b1, ts))), ok2);
    }
  }

  lemma RestoreKeeps(b: Bot, l: Option<LedgerPos>, root: nat, st: PosState, ts: int, ok: bool)
    returns (l': Option<LedgerPos>, root': nat)
    requires Stored(b, l, root) && !b.window && b.funded.savedUnsaid == 0.0 && b.queue == []
    requires b.engine.position.None? && EngineOk(b.c, b.engine) && b.untold == NOTHING_UNTOLD
    requires l.Some? && st == SnapState(b.db).value
    requires !RestorePosition(b.c, b.engine, st, ts).raised
    ensures
      var b' := Deliver(b, RestorePosition(b.c, b.engine, st, ts), ts, ok);
      && Inv(b', l', root')
      && (forall now | TimelyStored(b, l, now) && now <= ts :: Timely(b', l', ts) && OpenedInThePast(b'.engine, ts))
  {
    var step := RestorePosition(b.c, b.engine, st, ts);
    var b1 := b.(engine := step.st);
    var batch := Batch(step.events, None, None);
    NeutralFits(l, step.events, None);
    NeutralKeepsLedger(l, step.events, None);
    assert !HasEntry(step.events) && !HasSnapshotEvent(step.events);
    l', root' := RecordKeeps(b1, l, root, batch, ok);
    assert Deliver(b, step, ts, ok) == Record(b1, batch, ok);
    forall now | TimelyStored(b, l, now) && now <= ts
      ensures Timely(Record(b1, batch, ok), l', ts) && OpenedInThePast(b1.engine, ts)
    {
      assert Timely(b1, l, ts);
    }
  }

  /** A restart with one clock, the same arithmetic and a computable liquidation price. */
  ghost predicate CleanRestart(bot: Bot, l: Option<LedgerPos>, c: Config, arith: int, capital: real, blocked: seq<BlockReason>, ts: int, now: int) {
    && TimelyStored(bot, l, now) && now <= ts && arith == bot.arith && bot.funded.savedUnsaid == 0.0
    && (Decide(bot.db, arith).DoRestore? ==>
          !RestorePosition(c, Blank(bot.db, capital, blocked), Decide(bot.db, arith).state, ts).raised)
  }

  ghost predicate TimelyBot(bot: Bot, l: Option<LedgerPos>, ts: int) {
    Timely(bot, l, ts) && OpenedInThePast(bot.engine, ts)
  }

  predicate MustAbandon(bot: Bot, c: Config, arith: int, capital: real, blocked: seq<BlockReason>, ts: int) {
    var d := Decide(bot.db, arith);
    d.Mismatch? || (d.DoRestore? && RestorePosition(c, Blank(bot.db, capital, blocked), d.state, ts).raised)
  }

  lemma RebootCases(bot: Bot, c: Config, arith: int, capital: real, blocked: seq<BlockReason>, ts: int, ok1: bool, ok2: bool)
    ensures
      var b := Rebooted(bot, c, arith, capital, blocked);
      var d := Decide(bot.db, arith);
      Reboot(bot, c, arith, capital, blocked, ts, ok1, ok2) ==
        if MustAbandon(bot, c, arith, capital, blocked, ts) then Abandon(b, DbOpenPosition(b.db), ts, ok1, ok2)
        else if d.NoPosition? then b
        else Deliver(b, RestorePosition(c, b.engine, d.state, ts), ts, ok1)
  {}

  /** A clean restart never abandons. */
  lemma CleanNeverAbandons(bot: Bot, l: Option<LedgerPos>, root: nat, c: Config, arith: int, capital: real, blocked: seq<BlockReason>, ts: int, now: int)
    requires Inv(bot, l, root) && CleanRestart(bot, l, c, arith, capital, blocked, ts, now)
    ensures !MustAbandon(bot, c, arith, capital, blocked, ts)
  {
    DecisionIff(bot.db, l, root, arith, bot.funded.savedUnsaid);
  }

  lemma RebootKeeps(bot: Bot, l: Option<LedgerPos>, root: nat, c: Config, arith: int, capital: real, blocked: seq<BlockReason>,
                    ts: int, ok1: bool, ok2: bool) returns (l': Option<LedgerPos>, root': nat)
    requires Inv(bot, l, root) && c.mode.Paper?
    ensures Inv(Reboot(bot, c, arith, capital, blocked, ts, ok1, ok2), l', root')
    ensures forall now | CleanRestart(bot, l, c, arith, capital, blocked, ts, now) ::
              TimelyBot(Reboot(bot, c, arith, capital, blocked, ts, ok1, ok2), l', ts)
  {
    var b := Rebooted(bot, c, arith, capital, blocked);
    RebootCases(bot, c, arith, capital, blocked, ts, ok1, ok2);
    ReadBack(bot.db, l, root);
    if MustAbandon(bot, c, arith, capital, blocked, ts) {
      l', root' := AbandonKeeps(b, l, root, ts, ok1, ok2);
      forall now | CleanRestart(bot, l, c, arith, capital, blocked, ts, now) ensures false {
        CleanNeverAbandons(bot, l, root, c, arith, capital, blocked, ts, now);
      }
    } else {
      l', root' := KeepAtReboot(bot, l, root, c, arith, capital, blocked, ts, ok1);
    }
  }

  lemma KeepAtReboot(bot: Bot, l: Option<LedgerPos>, root: nat, c: Config, arith: int, capital: real, blocked: seq<BlockReason>,
                     ts: int, ok: bool) returns (l': Option<LedgerPos>, root': nat)
    requires Inv(bot, l, root) && c.mode.Paper? && !MustAbandon(bot, c, arith, capital, blocked, ts)
    ensures
      var b := Rebooted(bot, c, arith, capital, blocked);
      var d := Decide(bot.db, arith);
      var b' := if d.NoPosition? then b else Deliver(b, RestorePosition(c, b.engine, d.state, ts), ts, ok);
      && Inv(b', l', root')
      && (forall now | TimelyStored(bot, l, now) && now <= ts && arith == bot.arith :: TimelyBot(b', l', ts))
  {
    var b := Rebooted(bot, c, arith, capital, blocked);
    ReadBack(bot.db, l, root);
    DecisionIff(bot.db, l, root, arith, bot.funded.savedUnsaid);
    if l.None? {
      l', root' := l, root;
    } else {
      l', root' := RestoreKeeps(b, l, root, Decide(bot.db, arith).state, ts, ok);
      forall now | TimelyStored(bot, l, now) && now <= ts && arith == bot.arith
        ensures TimelyBot(Deliver(b, RestorePosition(c, b.engine, Decide(bot.db, arith).state, ts), ts, ok), l', ts)
      {
        assert TimelyStored(b, l, now);
      }
    }
  }

  // ---------------------------------------------------------------- every run

  function TimeOf(i: Input, now: int): int {
    match i
    case Mark(t, _) => t.ts
    case BarClose(ts, _) => ts
    case Close(_, ts, _, _) => ts
    case Cancel(ts, _) => ts
    case Restart(ts, _, _, _, _, _, _) => ts
    case _ => now
  }

  /** Times do not go back, the arithmetic does not change, and a restart finds no unsaid funding in the last snapshot and
      can still estimate the liquidation price of a position it is about to restore. */
  ghost predicate TimelyInput(bot: Bot, i: Input, now: int) {
    && now <= TimeOf(i, now)
    && (i.Restart? ==>
          && i.arith == bot.arith && bot.funded.savedUnsaid == 0.0
          && (i.rules.Valid() && Decide(bot.db, i.arith).DoRestore? ==>
                !RestorePosition(i.rules, Blank(bot.db, i.capital, i.blocked), Decide(bot.db, i.arith).state, i.ts).raised))
  }

  /** One step keeps the invariant; with one clock it also keeps every snapshot timely. */
  ghost predicate Kept(bot: Bot, l: Option<LedgerPos>, i: Input, l': Option<LedgerPos>, root': nat)
    requires i.Restart? ==> i.rules.Valid()
  {
    && Inv(Step1(bot, i), l', root')
    && (forall now | Timely(bot, l, now) && OpenedInThePast(bot.engine, now) && TimelyInput(bot, i, now) ::
          Timely(Step1(bot, i), l', TimeOf(i, now)) && OpenedInThePast(Step1(bot, i).engine, TimeOf(i, now)))
  }

  lemma MarkKeeps(bot: Bot, l: Option<LedgerPos>, root: nat, t: MarkTick, ok: bool) returns (l': Option<LedgerPos>, root': nat)
    requires Inv(bot, l, root)
    ensures Kept(bot, l, Mark(t, ok), l', root')
  {
    hide OnTick, CloseNow, FullyMirrors, SnapShows, QueueOk, SnapState, Ledger, Multiple;
    var step := OnTick(bot.c, bot.engine, t, NO_SCRIPT);
    OnTickAccounted(bot.c, Plus(Tail(l, bot.queue), bot.untold.paid), bot.engine, t, NO_SCRIPT);
    TickOutcome(bot.c, bot.engine, t);
    l', root' := DeliverKeeps(bot, l, root, step, t.ts, ok);
    forall now | Timely(bot, l, now) && now <= t.ts ensures Timely(bot, l, t.ts) {
      TimelyLater(l, bot.queue, bot.arith, now, t.ts);
    }
  }

  lemma BarCloseKeeps(bot: Bot, l: Option<LedgerPos>, root: nat, ts: int, ok: bool) returns (l': Option<LedgerPos>, root': nat)
    requires Inv(bot, l, root)
    ensures Kept(bot, l, BarClose(ts, ok), l', root')
  {
    hide OnTick, CloseNow, FullyMirrors, SnapShows, SnapState, Multiple;
    l', root' := RecordKeeps(bot, l, root, Batch([], None, Some(SnapNow(bot, ts))), ok);
    forall now | Timely(bot, l, now) && now <= ts ensures Timely(bot, l, ts) {
      TimelyLater(l, bot.queue, bot.arith, now, ts);
    }
  }

  lemma CloseOutcome(c: Config, l: Option<LedgerPos>, s: EngineState, mark: real, ts: int, reason: ExitReason)
    requires EngineOk(c, s) && Shows(Paper, l, s.position)
    ensures
      var step := CloseNow(c, s, mark, ts, reason, NO_EXIT);
      && (if step.raised then step.st == s && s.position.Some? else step.st.position.None?)
      && EngineOk(c, step.st) && Tame(s, step)
      && Accounted(Paper, l, s, step, step.st.lastEntryTp)
  {
    OtherCallsAccounted(c, l, s, ts, 0.0, mark, reason, NO_EXIT);
    if s.position.Some? {
      PaperExitRaises(c, s, reason, mark, ts);
      if Multiple(s.position.value.qty, c.rules.marketStep) { PaperExitCloses(c, s, reason, mark, ts, NO_EXIT); }
    }
  }

  lemma CloseKeeps(bot: Bot, l: Option<LedgerPos>, root: nat, mark: real, ts: int, reason: ExitReason, ok: bool)
    returns (l': Option<LedgerPos>, root': nat)
    requires Inv(bot, l, root)
    ensures Kept(bot, l, Close(mark, ts, reason, ok), l', root')
  {
    hide OnTick, CloseNow, FullyMirrors, SnapShows, QueueOk, SnapState, Ledger, Multiple;
    var step := CloseNow(bot.c, bot.engine, mark, ts, reason, NO_EXIT);
    CloseOutcome(bot.c, Plus(Tail(l, bot.queue), bot.untold.paid), bot.engine, mark, ts, reason);
    l', root' := DeliverKeeps(bot, l, root, step, ts, ok);
    forall now | Timely(bot, l, now) && now <= ts ensures Timely(bot, l, ts) {
      TimelyLater(l, bot.queue, bot.arith, now, ts);
    }
  }

  lemma CancelKeeps(bot: Bot, l: Option<LedgerPos>, root: nat, ts: int, ok: bool) returns (l': Option<LedgerPos>, root': nat)
    requires Inv(bot, l, root)
    ensures Kept(bot, l, Cancel(ts, ok), l', root')
  {
    hide OnTick, CloseNow, FullyMirrors, SnapShows, QueueOk, SnapState, Ledger, Multiple;
    var step := CancelPending(bot.engine, ts);
    OtherCallsAccounted(bot.c, Plus(Tail(l, bot.queue), bot.untold.paid), bot.engine, ts, 0.0, 0.0, Manual, NO_EXIT);
    l', root' := DeliverKeeps(bot, l, root, step, ts, ok);
    forall now | Timely(bot, l, now) && now <= ts ensures Timely(bot, l, ts) {
      TimelyLater(l, bot.queue, bot.arith, now, ts);
    }
  }

  lemma StepKeeps(bot: Bot, l: Option<LedgerPos>, root: nat, i: Input) returns (l': Option<LedgerPos>, root': nat)
    requires Inv(bot, l, root) && InputOk(i)
    ensures Kept(bot, l, i, l', root')
  {
    hide OnTick, CloseNow, FullyMirrors, SnapShows, QueueOk, SnapState, Ledger, Multiple;
    match i
    case Mark(t, ok) => l', root' := MarkKeeps(bot, l, root, t, ok);
    case BarClose(ts, ok) => l', root' := BarCloseKeeps(bot, l, root, ts, ok);
    case Close(mark, ts, reason, ok) => l', root' := CloseKeeps(bot, l, root, mark, ts, reason, ok);
    case Submit(intent) => l', root' := l, root;
    case Cancel(ts, ok) => l', root' := CancelKeeps(bot, l, root, ts, ok);
    case Unblock => l', root' := l, root;
    case Retry(n) =>
      l', root' := FlushKeeps(bot, l, root, n);
    case Restart(_, _, _, _, _, _, _) => l', root' := RestartKeeps(bot, l, root, i);
  }

  lemma RestartKeeps(bot: Bot, l: Option<LedgerPos>, root: nat, i: Input) returns (l': Option<LedgerPos>, root': nat)
    requires Inv(bot, l, root) && InputOk(i) && i.Restart?
    ensures Kept(bot, l, i, l', root')
  {
    hide FullyMirrors, SnapShows, QueueOk, SnapState, Ledger, Multiple;
    l', root' := RebootKeeps(bot, l, root, i.rules, i.arith, i.capital, i.blocked, i.ts, i.ok1, i.ok2);
    var after := Reboot(bot, i.rules, i.arith, i.capital, i.blocked, i.ts, i.ok1, i.ok2);
    assert Step1(bot, i) == after;
    forall now | Timely(bot, l, now) && OpenedInThePast(bot.engine, now) && TimelyInput(bot, i, now)
      ensures Timely(Step1(bot, i), l', TimeOf(i, now)) && OpenedInThePast(Step1(bot, i).engine, TimeOf(i, now))
    {
      assert CleanRestart(bot, l, i.rules, i.arith, i.capital, i.blocked, i.ts, now);
      assert TimelyBot(after, l', i.ts);
    }
  }

  function NewPurse(capital: real): Purse {
    Purse(Outside(capital, 0.0), None, Outside(capital, 0.0), [])
  }

  /** A first start on an empty database. */
  predicate Fresh(bot: Bot) {
    && bot.db == EMPTY_DB && bot.queue == [] && bot.durable.None? && !bot.window && bot.funded == NOTHING_FUNDED
    && bot.untold == NOTHING_UNTOLD && bot.purse == NewPurse(bot.engine.wallet) && bot.engine.position.None? && bot.c.mode.Paper?
  }

  ghost predicate RunOk(inputs: seq<Input>) {
    forall i :: 0 <= i < |inputs| ==> InputOk(inputs[i])
  }

  ghost function Run(bot: Bot, inputs: seq<Input>): Bot
    requires RunOk(inputs)
    decreases |inputs|
  {
    if inputs == [] then bot else Run(Step1(bot, inputs[0]), inputs[1..])
  }

  lemma {:induction false} RunThen(bot: Bot, inputs: seq<Input>, i: Input)
    requires RunOk(inputs + [i])
    ensures RunOk(inputs) && InputOk(i)
    ensures Run(bot, inputs + [i]) == Step1(Run(bot, inputs), i)
    decreases |inputs|
  {
    hide Step1;
    var all := inputs + [i];
    assert all[|inputs|] == i;
    assert forall k :: 0 <= k < |inputs| ==> all[k] == inputs[k];
    if inputs == [] {
      assert all[1..] == [];
    } else {
      assert all[1..] == inputs[1..] + [i];
      RunThen(Step1(bot, inputs[0]), inputs[1..], i);
    }
  }

  /** Every input of the run respects the one clock that starts at `now`. */
  ghost predicate OneClock(bot: Bot, inputs: seq<Input>, now: int)
    requires RunOk(inputs)
    decreases |inputs|
  {
    inputs == [] || (TimelyInput(bot, inputs[0], now) && OneClock(Step1(bot, inputs[0]), inputs[1..], TimeOf(inputs[0], now)))
  }

  lemma {:induction false} RunKeeps(bot: Bot, l: Option<LedgerPos>, root: nat, inputs: seq<Input>, now: int)
    returns (l': Option<LedgerPos>, root': nat, last: int)
    requires Inv(bot, l, root) && RunOk(inputs)
    ensures Inv(Run(bot, inputs), l', root')
    ensures Timely(bot, l, now) && OpenedInThePast(bot.engine, now) && OneClock(bot, inputs, now) ==> Timely(Run(bot, inputs), l', last)
    decreases |inputs|
  {
    if inputs == [] {
      l', root', last := l, root, now;
    } else {
      var l1, r1 := StepKeeps(bot, l, root, inputs[0]);
      l', root', last := RunKeeps(Step1(bot, inputs[0]), l1, r1, inputs[1..], TimeOf(inputs[0], now));
    }
  }

  /** What the rows say about the open position is what the engine held, field by field, but for the funding that is
      unsaid. */
  ghost predicate RowsAre(d: Option<DbPosition>, p: Option<Position>, unsaid: real) {
    && (d.None? <==> p.None?)
    && (d.Some? ==>
          && d.value.direction == p.value.direction && d.value.qty == p.value.qty && d.value.entryPrice == p.value.entryPrice
          && d.value.leverage == Some(p.value.leverage as int) && d.value.sl == Some(p.value.sl) && d.value.tp == p.value.tp
          && d.value.fundingPaid + unsaid == p.value.fundingPaid && d.value.entryCommission == p.value.entryCommission
          && d.value.openedMs == p.value.openedMs && d.value.trail == p.value.trail)
  }

  lemma FreshKeeps(bot: Bot)
    requires Fresh(bot)
    ensures Inv(bot, None, 0) && forall now :: Timely(bot, None, now) && OpenedInThePast(bot.engine, now)
  {}

  /** Main theorem, any clocks and any rules. Whatever the run, whatever transactions failed, and wherever it is cut by
      a crash: the position rebuilt from the rows is the one the engine held at the last committed batch, less the funding
      raising ticks had settled untold; and the restart decision is a mismatch exactly when an abandoned position still
      lacks its flat snapshot, or the last snapshot holds such a funding, or is stamped before the entry, or was computed
      with another arithmetic. */
  lemma CrashConsistency(bot: Bot, inputs: seq<Input>, arith: int)
    requires Fresh(bot) && RunOk(inputs)
    ensures
      var b := Run(bot, inputs);
      && RowsAre(DbOpenPosition(b.db), b.durable, b.funded.unsaid)
      && (b.durable.Some? ==> LastSnap(b.db).Some?)
      && (Decide(b.db, arith).Mismatch? <==>
            || b.window
            || (b.durable.Some? && (b.funded.savedUnsaid != 0.0 || LastSnap(b.db).value.ts < b.durable.value.openedMs
                                    || LastSnap(b.db).value.arith != arith)))
      && (Decide(b.db, arith).NoPosition? <==> !b.window && b.durable.None?)
      && (Decide(b.db, arith).DoRestore? ==> RowsAre(DbOpenPosition(b.db), Some(Decide(b.db, arith).state.position), 0.0))
      && (b.queue == [] ==> RowsAre(DbOpenPosition(b.db), b.engine.position, b.untold.paid))
  {
    hide Run, QueueOk, EngineOk, Fresh, RunOk;
    FreshKeeps(bot);
    var l, root, _ := RunKeeps(bot, None, 0, inputs, 0);
    var b := Run(bot, inputs);
    ReadBack(b.db, l, root);
    if !b.window {
      DecisionIff(b.db, l, root, arith, b.funded.savedUnsaid);
    }
  }

  /** With one clock, one arithmetic and liquidation estimates that do not fail on restart, the restart decision is
      a mismatch only for an unsaid funding in the last snapshot; otherwise a bot that held a position gets it back, and a
      flat one starts flat. */
  lemma NeverMismatch(bot: Bot, inputs: seq<Input>, now: int)
    requires Fresh(bot) && RunOk(inputs) && OneClock(bot, inputs, now)
    ensures
      var b := Run(bot, inputs);
      && !b.window
      && (Decide(b.db, b.arith).Mismatch? <==> b.durable.Some? && b.funded.savedUnsaid != 0.0)
      && (b.durable.Some? && b.funded.savedUnsaid == 0.0 ==>
            Decide(b.db, b.arith).DoRestore? && RowsAre(DbOpenPosition(b.db), b.durable, b.funded.unsaid))
      && (b.durable.None? ==> Decide(b.db, b.arith).NoPosition?)
  {
    hide Run, Decide, DbOpenPosition, QueueOk, EngineOk, Fresh, RunOk;
    FreshKeeps(bot);
    var l, root, last := RunKeeps(bot, None, 0, inputs, now);
    var b := Run(bot, inputs);
    ReadBack(b.db, l, root);
    DecisionIff(b.db, l, root, b.arith, b.funded.savedUnsaid);
  }

  // ---------------------------------------------------------------- an abandoned position is gone

  /** The batch that will be committed last has a snapshot, or the last one committed had. */
  predicate EndsFlat(bot: Bot) {
    if bot.queue == [] then !bot.window else bot.queue[|bot.queue| - 1].batch.snapshot.Some?
  }

  lemma {:induction false} FlushEndsFlat(bot: Bot, n: nat)
    requires EndsFlat(bot)
    ensures EndsFlat(Flush(bot, n))
    decreases n
  {
    hide Commit, FundedAfter, PurseAfter;
    if n != 0 && bot.queue != [] {
      var b1 := CommitOne(bot.(queue := bot.queue[1..]), bot.queue[0]);
      assert b1.queue != [] ==> b1.queue[|b1.queue| - 1] == bot.queue[|bot.queue| - 1];
      FlushEndsFlat(b1, n - 1);
    }
  }

  lemma AbandonEndsFlat(b: Bot, d: Option<DbPosition>, ts: int, ok1: bool, ok2: bool)
    ensures EndsFlat(Abandon(b, d, ts, ok1, ok2))
  {
    hide Commit, FundedAfter, PurseAfter, NextFunding;
  }

  lemma FlatIsDecided(bot: Bot, l: Option<LedgerPos>, root: nat, arith: int)
    requires Inv(bot, l, root) && bot.queue == [] && !bot.window && bot.engine.position.None?
    ensures Decide(bot.db, arith).NoPosition?
  {
    ReadBack(bot.db, l, root);
  }

  /** Main theorem on giving a position up. After any run, a restart that cannot restore the position is flat; and once its
      batches are written, at once or by later retries, the database has no position either, and no restart whatever finds
      a mismatch again. */
  lemma AbandonedIsGone(bot: Bot, inputs: seq<Input>, i: Input, n: nat, arith: int)
    requires Fresh(bot) && RunOk(inputs) && i.Restart? && InputOk(i)
    requires MustAbandon(Run(bot, inputs), i.rules, i.arith, i.capital, i.blocked, i.ts)
    requires n >= |Step1(Run(bot, inputs), i).queue|
    ensures
      var b := Step1(Step1(Run(bot, inputs), i), Retry(n));
      b.engine.position.None? && b.queue == [] && Decide(b.db, arith).NoPosition?
  {
    hide Run, Inv, Fresh, Decide, DbOpenPosition, Abandon, RestorePosition, Flush, MustAbandon, EndsFlat, Rebooted;
    FreshKeeps(bot);
    var l, root, _ := RunKeeps(bot, None, 0, inputs, 0);
    var before := Run(bot, inputs);
    var l1, r1 := RebootKeeps(before, l, root, i.rules, i.arith, i.capital, i.blocked, i.ts, i.ok1, i.ok2);
    var b := Step1(before, i);
    RebootCases(before, i.rules, i.arith, i.capital, i.blocked, i.ts, i.ok1, i.ok2);
    AbandonEndsFlat(Rebooted(before, i.rules, i.arith, i.capital, i.blocked), DbOpenPosition(before.db), i.ts, i.ok1, i.ok2);
    RebootedIsFlat(before, i.rules, i.arith, i.capital, i.blocked);
    var l2, r2 := FlushKeeps(b, l1, r1, n);
    FlushWrites(b, n);
    FlushEndsFlat(b, n);
    FlatAtEnd(Flush(b, n));
    FlatIsDecided(Flush(b, n), l2, r2, arith);
  }

  lemma RebootedIsFlat(bot: Bot, c: Config, arith: int, capital: real, blocked: seq<BlockReason>)
    ensures var b := Rebooted(bot, c, arith, capital, blocked); b.engine.position.None? && b.db == bot.db
  {}

  lemma FlatAtEnd(bot: Bot)
    requires EndsFlat(bot) && bot.queue == []
    ensures !bot.window
  {}

  // ---------------------------------------------------------------- when nothing is unsaid

  /** No tick of the run raises after settling a funding. */
  ghost predicate AllSaid(bot: Bot, inputs: seq<Input>)
    requires RunOk(inputs)
    decreases |inputs|
  {
    inputs == [] || ((inputs[0].Mark? ==> !Unsaid(bot.c, bot.engine, inputs[0].t)) && AllSaid(Step1(bot, inputs[0]), inputs[1..]))
  }

  ghost predicate NoGap(bot: Bot) {
    && bot.untold.paid == 0.0 && bot.funded.unsaid == 0.0 && bot.funded.savedUnsaid == 0.0
    && bot.purse.outside.taken == 0.0 && bot.purse.savedOutside.taken == 0.0
    && forall i :: 0 <= i < |bot.queue| ==> bot.queue[i].untold.paid == 0.0 && bot.queue[i].outside.taken == 0.0
  }

  /** A raising tick leaves exactly the funding due unsaid. */
  lemma UntoldIsDue(c: Config, s: EngineState, t: MarkTick)
    requires EngineOk(c, s) && OnTick(c, s, t, NO_SCRIPT).raised
    ensures FundingPaid(OnTick(c, s, t, NO_SCRIPT).events) == if s.position.Some? && GridOk(c, t) then DueOnTick(s, t) else 0.0
  {
    hide OnTick, Multiple;
    if !GridOk(c, t) {
      OffGridTick(c, s, t, NO_SCRIPT);
    } else if s.position.None? {
      FlatTick(c, s, t);
    } else {
      if Multiple(s.position.value.qty, c.rules.marketStep) { OnStepTick(c, s, t); }
      OffStepTick(c, s, t);
      PaidOnTick(c, s, t);
    }
  }

  lemma PaidOnTick(c: Config, s: EngineState, t: MarkTick)
    ensures FundingPaid(FundingOnTick(c, s, t).events) == DueOnTick(s, t)
  {
    var evs := FundingOnTick(c, s, t).events;
    if evs != [] { NothingPaid(evs[1..]); }
  }

  lemma {:induction false} NothingPaid(evs: seq<Event>)
    requires forall e :: e in evs ==> !e.FundingSettled?
    ensures FundingPaid(evs) == 0.0
  {
    if evs != [] {
      assert evs[0] in evs;
      NothingPaid(evs[1..]);
    }
  }

  lemma FlushNoGap(bot: Bot, n: nat)
    requires NoGap(bot)
    ensures NoGap(Flush(bot, n))
    decreases n
  {
    if n != 0 && bot.queue != [] {
      FlushNoGap(CommitOne(bot.(queue := bot.queue[1..]), bot.queue[0]), n - 1);
    }
  }

  lemma RecordNoGap(bot: Bot, b: Batch, ok: bool)
    requires NoGap(bot)
    ensures NoGap(Record(bot, b, ok))
  {}

  lemma DeliverNoGap(bot: Bot, step: Step, ts: int, ok: bool)
    requires NoGap(bot) && (step.raised ==> FundingPaid(step.events) == 0.0)
    ensures NoGap(Deliver(bot, step, ts, ok))
  {
    if !step.raised && step.events != [] { RecordNoGap(After(bot, step), BatchOf(bot, step, ts), ok); }
  }

  lemma StepNoGap(bot: Bot, l: Option<LedgerPos>, root: nat, i: Input)
    requires Inv(bot, l, root) && InputOk(i) && NoGap(bot) && (i.Mark? ==> !Unsaid(bot.c, bot.engine, i.t))
    ensures NoGap(Step1(bot, i))
  {
    hide OnTick, CloseNow, Deliver, Record, NoGap, RestorePosition, Decide, FullyMirrors, DueOnTick;
    match i
    case Mark(t, ok) =>
      var step := OnTick(bot.c, bot.engine, t, NO_SCRIPT);
      if step.raised { UntoldIsDue(bot.c, bot.engine, t); }
      DeliverNoGap(bot, step, t.ts, ok);
    case BarClose(ts, ok) => RecordNoGap(bot, Batch([], None, Some(SnapNow(bot, ts))), ok);
    case Close(mark, ts, reason, ok) =>
      var step := CloseNow(bot.c, bot.engine, mark, ts, reason, NO_EXIT);
      CloseSaysAll(bot.c, bot.engine, mark, ts, reason);
      DeliverNoGap(bot, step, ts, ok);
    case Submit(intent) => SameNoGap(bot, Step1(bot, i));
    case Cancel(ts, ok) => DeliverNoGap(bot, CancelPending(bot.engine, ts), ts, ok);
    case Unblock => SameNoGap(bot, Step1(bot, i));
    case Retry(n) => FlushNoGap(bot, n);
    case Restart(ts, rules, arith, capital, blocked, ok1, ok2) => RebootNoGap(bot, i);
  }

  lemma SameNoGap(a: Bot, b: Bot)
    requires NoGap(a) && b.untold == a.untold && b.funded == a.funded && b.queue == a.queue && b.purse == a.purse
    ensures NoGap(b)
  {}

  lemma CloseSaysAll(c: Config, s: EngineState, mark: real, ts: int, reason: ExitReason)
    requires EngineOk(c, s)
    ensures var step := CloseNow(c, s, mark, ts, reason, NO_EXIT); step.raised ==> FundingPaid(step.events) == 0.0
  {
    if s.position.Some? { PaperExitRaises(c, s, reason, mark, ts); }
  }

  lemma RebootNoGap(bot: Bot, i: Input)
    requires NoGap(bot) && i.Restart? && InputOk(i)
    ensures NoGap(Step1(bot, i))
  {
    hide RestorePosition, Decide, Deliver, Record, DbOpenPosition;
    RebootCases(bot, i.rules, i.arith, i.capital, i.blocked, i.ts, i.ok1, i.ok2);
    var b := Rebooted(bot, i.rules, i.arith, i.capital, i.blocked);
    if MustAbandon(bot, i.rules, i.arith, i.capital, i.blocked, i.ts) {
      var d := DbOpenPosition(b.db);
      if d.None? {
        RecordNoGap(b, Batch([], None, Some(SnapNow(b, i.ts))), i.ok2);
      } else {
        var gone := Batch([PositionAbandoned(i.ts, d.value.direction, d.value.qty, d.value.entryPrice)], None, None);
        RecordNoGap(b, gone, i.ok1);
        RecordNoGap(Record(b, gone, i.ok1), Batch([], None, Some(SnapNow(Record(b, gone, i.ok1), i.ts))), i.ok2);
      }
    } else if !Decide(bot.db, i.arith).NoPosition? {
      DeliverNoGap(b, RestorePosition(b.c, b.engine, Decide(bot.db, i.arith).state, i.ts), i.ts, i.ok1);
    }
  }

  /** Over a run without such a tick nothing is ever unsaid: the rows are what the engine held, field by field. */
  lemma {:induction false} NothingUnsaid(bot: Bot, l: Option<LedgerPos>, root: nat, inputs: seq<Input>)
    requires Inv(bot, l, root) && NoGap(bot) && RunOk(inputs) && AllSaid(bot, inputs)
    ensures NoGap(Run(bot, inputs))
    decreases |inputs|
  {
    hide Inv, NoGap, Step1;
    if inputs != [] {
      var l1, r1 := StepKeeps(bot, l, root, inputs[0]);
      StepNoGap(bot, l, root, inputs[0]);
      NothingUnsaid(Step1(bot, inputs[0]), l1, r1, inputs[1..]);
    }
  }
}
