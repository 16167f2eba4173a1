module Witnesses {
  // Concrete runs of the PAPER bot from a first start that break what the code is meant to keep: a boundary listed twice
  // after two restarts, a position abandoned for a funding no row tells, a boundary settled twice by ticks that go back
  // in time (paper/engine.py:235-257, 329-409, ops/runtime.py:193-230, 355-417, ops/restore.py:199-238).

  import opened Types
  import opened Steps
  import opened Normalize
  import opened EngineTypes
  import opened EngineModel
  import opened PaperRuns
  import opened Accounting
  import opened EntryRules
  import opened Rows
  import opened Restore
  import opened FundingClock
  import opened Runtime
  import FR = FundingRuns
  import P = Purses

  // ---------------------------------------------------------------- the setting

  /** One contract at leverage one, whatever is asked, as long as the question makes sense. */
  function OneContract(entry: real, sl: real, d: Direction, equity: real, regime: Regime): Option<SizingDecision> {
    if entry <= 0.0 || sl <= 0.0 || equity <= 0.0 then None
    else if Sign(d) * (entry - sl) <= 0.0 then Some(SizingDecision(false, true, sl, None, [], 0.0))
    else Some(SizingDecision(true, false, sl, Some(1), [1.0], 0.0))
  }

  /** PAPER, no fees, funding every eight hours, market orders in multiples of `step`. */
  ghost function Demo(step: PosReal): (c: Config)
    requires step == 1.0 || step == 2.0
  {
    DemoIsUsable(step);
    ConfigData(Paper, PLAIN_RULES.(marketStep := step), 0.0, 0.0, 0.0, 8, None, false, 1, 100, OneContract,
               (d: Direction, e: real, n: real, l: Leverage, t: real) => Some(LiqEstimate(0.0, 1.0)),
               (a: real, b: real) => true, (n: real) => Some(100))
  }

  lemma DemoIsUsable(step: PosReal)
    requires step == 1.0 || step == 2.0
    ensures MaxSteps(PLAIN_RULES.(marketStep := step)) >= 1 && EntryStep(PLAIN_RULES.(marketStep := step)).Ok?
  {
    PlainRulesAreUsable();
    assert 10.0 / 2.0 == 5.0 && 2.0 / 1.0 == 2.0;
  }

  const ARITH := 1

  function At(hours: int): int {
    hours * HOUR_MS
  }

  ghost function Start(): Bot {
    Bot(Demo(1.0), ARITH, EngineState(100.0, None, None, [], None, None, None), [], EMPTY_DB, None, false, NOTHING_FUNDED, NOTHING_UNTOLD,
        NewPurse(100.0))
  }

  const ASK := EntryIntent(Long, 50.0, None, Regime(1, 1), 0, 100.0, None, None, None)

  const ENTRY_TICK := MarkTick(HOUR_MS, 100.0, 0.01, 8 * HOUR_MS)

  const OPENED: Position := PositionData.Position(Long, 1.0, 100.0, 1, 50.0, None, 0.0, 0.0, HOUR_MS, 0.0, false, None)

  /** The entry is committed with its snapshot. */
  ghost function Entered(): Bot {
    Start().(engine := EngineState(100.0, Some(OPENED), None, [], Some(ENTRY_TICK), None, None),
             db := Db([OpenRow(0, HOUR_MS, Long, 1.0, 100.0, Some(1), Some(50.0), None, 0.0)], [], [],
                      [SnapRow(HOUR_MS, ARITH, 100.0, Some(PosState(OPENED, Some(8 * HOUR_MS))))]),
             durable := Some(OPENED), funded := NOTHING_FUNDED.(next := Some(8 * HOUR_MS)),
             purse := Purse(Outside(100.0, 0.0), Some(100.0), Outside(100.0, 0.0), [ENTRY_FILLED]))
  }

  const ENTRY_FILLED := EntryFilled(HOUR_MS, Long, 1.0, 100.0, 1, 50.0, 0.0, [CONTRACT], 0.0, false)

  lemma QuoteIsMark(step: PosReal)
    requires step == 1.0 || step == 2.0
    ensures Quote(Demo(step), Buy, 100.0) == 100.0
  {
    assert 100.0 * (1.0 + 0.0) / 1.0 == 100.0;
    assert (-100.0).Floor == -100;
  }

  const CONTRACT: Fill := FillData.Fill(Buy, 1.0, 100.0, 0.0, false, 100.0)

  lemma OneFill()
    ensures EntrySent(Demo(1.0), Long, [1.0], 100.0, NO_ENTRY) == Sent([CONTRACT], None)
    ensures FillQty([CONTRACT]) == 1.0 && FillCommission([CONTRACT]) == 0.0 && Vwap([CONTRACT]) == 100.0
  {
    hide Quote;
    QuoteIsMark(1.0);
    var c := Demo(1.0);
    assert ParamsOk(1.0, c.rules) by { assert 1.0 / 1.0 == 1.0; }
    assert [1.0][1..] == [] && [1.0][..1] == [1.0];
    assert GoodPrefix([1.0], c.rules) == 1;
    assert PaperFills(c, Buy, [1.0], 100.0, false) == [CONTRACT] + PaperFills(c, Buy, [], 100.0, false);
    assert [CONTRACT][1..] == [];
  }

  lemma EntryFills()
    ensures
      var s := EngineState(100.0, None, Some(ASK), [], Some(ENTRY_TICK), None, None);
      ExecuteEntry(Demo(1.0), s, 100.0, HOUR_MS, NO_ENTRY, NO_EXIT) == Step(Entered().engine, [ENTRY_FILLED], false)
  {
    hide EntrySent, Vwap, FillQty, FillCommission, Quote;
    QuoteIsMark(1.0);
    OneFill();
    assert (50.0 - 100.0) / 100.0 < 0.0;
    assert 50.0 / 100.0 > 0.0;
  }

  /** A short stopped at `sl`, decided like the long. */
  function AskShort(sl: real): EntryIntent {
    ASK.(direction := Short, sl := sl)
  }

  const SOLD: Fill := FillData.Fill(Sell, 1.0, 100.0, 0.0, false, 100.0)

  lemma OneSale()
    ensures Quote(Demo(1.0), Sell, 100.0) == 100.0
    ensures EntrySent(Demo(1.0), Short, [1.0], 100.0, NO_ENTRY) == Sent([SOLD], None)
    ensures FillQty([SOLD]) == 1.0 && FillCommission([SOLD]) == 0.0 && Vwap([SOLD]) == 100.0
  {
    var c := Demo(1.0);
    assert 100.0 * (1.0 - 0.0) / 1.0 == 100.0;
    assert (100.0).Floor == 100;
    assert ParamsOk(1.0, c.rules) by { assert 1.0 / 1.0 == 1.0; }
    assert [1.0][1..] == [] && [1.0][..1] == [1.0];
    assert GoodPrefix([1.0], c.rules) == 1;
    assert PaperFills(c, Sell, [1.0], 100.0, false) == [SOLD] + PaperFills(c, Sell, [], 100.0, false);
    assert [SOLD][1..] == [];
  }

  /** A short stopped above the mark is opened. */
  lemma ShortIsOpened()
    ensures
      var s := EngineState(100.0, None, Some(AskShort(110.0)), [], Some(ENTRY_TICK), None, None);
      ExecuteEntry(Demo(1.0), s, 100.0, HOUR_MS, NO_ENTRY, NO_EXIT)
      == Step(s.(pending := None, position := Some(OPENED.(direction := Short, sl := 110.0))),
              [EntryFilled(HOUR_MS, Short, 1.0, 100.0, 1, 110.0, 0.0, [SOLD], 0.0, false)], false)
  {
    hide EntrySent, Vwap, FillQty, FillCommission, Quote, CheckFill;
    OneSale();
    ShortPasses();
  }

  lemma ShortPasses()
    ensures CheckFill(Demo(1.0), AskShort(110.0), SizingDecision(true, false, 110.0, Some(1), [1.0], 0.0), 1, 100.0, 1.0) == PostFill(0.0, true)
  {
    assert -1.0 * (100.0 - 110.0) / 100.0 == 10.0 / 100.0;
    assert 10.0 / 100.0 > 0.0;
  }

  /** One stopped below the mark is skipped. */
  lemma LateShortIsSkipped()
    ensures
      var s := EngineState(100.0, None, Some(AskShort(90.0)), [], Some(ENTRY_TICK), None, None);
      ExecuteEntry(Demo(1.0), s, 100.0, HOUR_MS, NO_ENTRY, NO_EXIT) == Skipped(s, HOUR_MS, SlCrossedBeforeFill)
  {
    var s := EngineState(100.0, None, Some(AskShort(90.0)), [], Some(ENTRY_TICK), None, None);
    var quote, sl := EntryDecided(Demo(1.0), s, 100.0, HOUR_MS, NO_ENTRY, NO_EXIT);
  }

  // ---------------------------------------------------------------- ticks on the contract

  /** Far from the stop nothing is judged. */
  lemma QuietJudge(c: Config, s: EngineState, ts: int)
    requires s.position.Some? && s.position.value == OPENED.(fundingPaid := s.position.value.fundingPaid)
    ensures Judge(c, s, ts, 100.0, 100.0, 100.0, 100.0, 100.0, NO_EXIT) == Step(s, [], false)
  {
    hide DoExit;
  }

  lemma EntryTick()
    ensures
      var s := Start().engine.(pending := Some(ASK));
      && RequestEntry(Demo(1.0), Start().engine, ASK).st == s
      && OnTick(Demo(1.0), s, ENTRY_TICK, NO_SCRIPT) == Step(Entered().engine, [ENTRY_FILLED], false)
  {
    hide ExecuteEntry, Judge;
    var s := Start().engine.(pending := Some(ASK));
    EntryFills();
    QuietJudge(Demo(1.0), Entered().engine, HOUR_MS);
    assert FundingOnTick(Demo(1.0), s, ENTRY_TICK) == Step(s, [], false);
  }

  /** A tick far from the stop is its funding part. */
  lemma QuietTick(c: Config, s: EngineState, t: MarkTick)
    requires GridOk(c, t) && t.mark == 100.0 && s.pending.None?
    requires s.position.Some? && s.position.value == OPENED.(fundingPaid := s.position.value.fundingPaid)
    requires FundingOnTick(c, s, t).st.position.Some?
    requires
      var p := FundingOnTick(c, s, t).st.position.value;
      p == OPENED.(fundingPaid := p.fundingPaid)
    ensures
      var funded := FundingOnTick(c, s, t);
      OnTick(c, s, t, NO_SCRIPT) == Step(funded.st.(lastTick := Some(t)), funded.events, false)
  {
    hide FundingOnTick, Judge, OnTick;
    TickIsFundThenJudge(c, s, t, NO_SCRIPT);
    var funded := FundingOnTick(c, s, t);
    QuietJudge(c, funded.st.(lastTick := Some(t)), t.ts);
    assert funded.events + [] == funded.events;
  }

  // ---------------------------------------------------------------- runs

  const ENTRY := [Submit(ASK), Mark(ENTRY_TICK, true)]

  lemma EntryRun() returns (l: LedgerPos)
    ensures Fresh(Start()) && RunOk(ENTRY) && Run(Start(), ENTRY) == Entered()
    ensures Inv(Entered(), Some(l), 0)
  {
    hide OnTick, RequestEntry, Inv;
    var b1 := Start().(engine := Start().engine.(pending := Some(ASK)));
    EntryTick();
    assert Step1(Start(), ENTRY[0]) == b1;
    EntryDelivered(b1);
    assert Step1(b1, ENTRY[1]) == Entered();
    assert ENTRY[1..] == [ENTRY[1]] && ENTRY[1..][1..] == [];
    assert Run(b1, [ENTRY[1]]) == Entered();
    FirstStart();
    var l1, r1 := StepKeeps(Start(), None, 0, ENTRY[0]);
    var l2, r2 := StepKeeps(b1, l1, r1, ENTRY[1]);
    assert l2.Some? && r2 == 0 by { HeldRoot(Entered(), l2, r2); }
    l := l2.value;
  }

  lemma FirstStart()
    ensures Fresh(Start()) && Inv(Start(), None, 0) && RunOk(ENTRY)
  {}

  lemma HeldRoot(bot: Bot, l: Option<LedgerPos>, root: nat)
    requires Inv(bot, l, root) && bot.durable.Some? && |bot.db.positions| == 1
    ensures l.Some? && root == 0
  {
    hide QueueOk;
  }

  lemma EntryDelivered(b: Bot)
    requires b == Start().(engine := Start().engine.(pending := Some(ASK)))
    ensures Deliver(b, Step(Entered().engine, [ENTRY_FILLED], false), HOUR_MS, true) == Entered()
  {
    var evs := [ENTRY_FILLED];
    assert evs[0] in evs && evs[1..] == [];
    assert HasEntry(evs) && HasSnapshotEvent(evs);
    var b1 := After(b, Step(Entered().engine, evs, false));
    assert WriteEvents(EMPTY_DB, evs, None) == EMPTY_DB.(positions := Entered().db.positions);
  }

  // ---------------------------------------------------------------- restarts

  ghost function Again(hours: int, step: PosReal): Input
    requires step == 1.0 || step == 2.0
  {
    Restart(At(hours), Demo(step), ARITH, 100.0, [], true, true)
  }

  /** The entry's snapshot is still the last, and nothing is unsaid in it. */
  ghost predicate SavedAtEntry(bot: Bot) {
    && !bot.window && bot.funded.savedUnsaid == 0.0 && bot.arith == ARITH && bot.c.fundingHours == 8
    && LastSnap(bot.db) == Some(SnapRow(HOUR_MS, ARITH, 100.0, Some(PosState(OPENED, Some(8 * HOUR_MS)))))
  }

  const RESTORED := EngineState(100.0, Some(OPENED), None, [], None, Some(8 * HOUR_MS), None)

  lemma Comeback(bot: Bot, l: LedgerPos, root: nat, hours: int, step: PosReal)
    requires Inv(bot, Some(l), root) && SavedAtEntry(bot) && hours >= 1 && (step == 1.0 || step == 2.0)
    ensures
      var i := Again(hours, step);
      var r := Step1(bot, i);
      && InputOk(i) && FR.SameTerms(bot, i) && FR.CleanStart(bot, i)
      && r.db == bot.db && r.queue == [] && r.c == i.rules && r.engine == RESTORED && r.untold == NOTHING_UNTOLD && SavedAtEntry(r)
      && r.durable == Some(OPENED)
  {
    hide Decide, FullyMirrors, QueueOk, FundedAfter, Deliver;
    var i := Again(hours, step);
    DecisionIff(bot.db, Some(l), root, ARITH, 0.0);
    RebootCases(bot, i.rules, i.arith, i.capital, i.blocked, i.ts, i.ok1, i.ok2);
    FR.Restored1(bot, l, root, i);
    var b := Rebooted(bot, i.rules, i.arith, i.capital, i.blocked);
    var back := RestorePosition(b.c, b.engine, PosState(OPENED, Some(8 * HOUR_MS)), i.ts);
    assert back == Step(RESTORED, [PositionRestored(i.ts, Long, 1.0, 100.0, 0.0)], false);
    assert Step1(bot, i) == Deliver(b, back, i.ts, true);
    BackDelivered(b, i.ts);
  }

  lemma BackDelivered(b: Bot, ts: int)
    requires b.queue == [] && b.untold == NOTHING_UNTOLD
    ensures
      var r := Deliver(b, Step(RESTORED, [PositionRestored(ts, Long, 1.0, 100.0, 0.0)], false), ts, true);
      && r.durable == Some(OPENED) && r.untold == NOTHING_UNTOLD && r.window == b.window && r.arith == b.arith
      && r.funded.savedUnsaid == b.funded.savedUnsaid
  {
    var back := Step(RESTORED, [PositionRestored(ts, Long, 1.0, 100.0, 0.0)], false);
    assert !HasEntry(back.events) && !HasSnapshotEvent(back.events);
  }

  // ---------------------------------------------------------------- a boundary listed twice

  const LATE := MarkTick(9 * HOUR_MS, 100.0, 0.01, 16 * HOUR_MS)
  const LATER := MarkTick(11 * HOUR_MS, 100.0, 0.01, 16 * HOUR_MS)

  /** The first tick after a restart misses what it passed. */
  lemma MissesOne(step: PosReal, t: MarkTick)
    requires (step == 1.0 || step == 2.0) && (t == LATE || t == LATER)
    ensures
      var missed := FundingMissedOnRestart(1);
      OnTick(Demo(step), RESTORED, t, NO_SCRIPT)
      == Step(RESTORED.(lastTick := Some(t), restoredFunding := None, blocked := [missed]),
              [FundingMissed(t.ts, [8 * HOUR_MS], 1.0), EntriesBlocked(t.ts, missed)], false)
  {
    hide OnTick, Judge;
    var c := Demo(step);
    assert Boundaries(16 * HOUR_MS, t.ts, 8 * HOUR_MS) == [];
    assert [8 * HOUR_MS] + MissedBoundaries(c, 8 * HOUR_MS, t.ts) == [8 * HOUR_MS];
    QuietTick(c, RESTORED, t);
  }

  lemma OneBoundary()
    ensures Boundaries(8 * HOUR_MS, 16 * HOUR_MS - 1, 8 * HOUR_MS) == [8 * HOUR_MS]
  {
    assert Boundaries(16 * HOUR_MS, 16 * HOUR_MS - 1, 8 * HOUR_MS) == [];
  }

  /** A day of such a bot. */
  ghost function TwoRestarts(): seq<Input> {
    ENTRY + [Again(2, 1.0)] + [Mark(LATE, true)] + [Again(10, 1.0)] + [Mark(LATER, true)]
  }

  lemma MissDelivered(r: Bot, t: MarkTick)
    requires r.engine == RESTORED && r.queue == [] && r.c == Demo(1.0) && r.untold == NOTHING_UNTOLD && SavedAtEntry(r)
    requires t == LATE || t == LATER
    ensures
      var after := Step1(r, Mark(t, true));
      && SavedAtEntry(after) && after.db.snaps == r.db.snaps && after.engine.wallet == 100.0 && !OnTick(r.c, r.engine, t, NO_SCRIPT).raised
  {
    hide OnTick, WriteEvents;
    MissesOne(1.0, t);
    var step := OnTick(r.c, r.engine, t, NO_SCRIPT);
    assert !HasEntry(step.events) && !HasSnapshotEvent(step.events);
    WritesKeepSnaps(r.db, step.events, None);
  }

  /** A restart and the first tick after it list 08:00 once more. */
  lemma OnceMore(bot: Bot, l: LedgerPos, root: nat, now: int, hours: int, t: MarkTick)
    returns (l': LedgerPos)
    requires FR.FundInv(bot, Some(l), root, now) && SavedAtEntry(bot) && hours >= 1
    requires (t == LATE || t == LATER) && now <= t.ts
    ensures
      var i := Again(hours, 1.0);
      var after := Step1(Step1(bot, i), Mark(t, true));
      && FR.FundInv(after, Some(l'), root, t.ts) && SavedAtEntry(after) && after.engine.wallet == 100.0
      && FR.Owned(after.db.fundings, root) == FR.Owned(bot.db.fundings, root) + [8 * HOUR_MS]
  {
    hide Step1, Inv, FR.FundsBot, FR.ClockFunds, FR.Owned, Boundaries, OnTick, MustAbandon, FR.CleanStart, FR.Onward;
    var i := Again(hours, 1.0);
    Comeback(bot, l, root, hours, 1.0);
    var r := Step1(bot, i);
    MissDelivered(r, t);
    OneBoundary();
    FR.RestartThenTick(bot, Some(l), root, now, i, t);
    var l1, r1 := FR.StepFunds(bot, Some(l), root, i, now);
    FR.RowsSame(bot, Some(l), root, r, l1, r1);
    var l2, r2 := FR.StepFunds(r, l1, r1, Mark(t, true), now);
    l' := l2.value;
  }

  lemma EntryFeed()
    ensures RunOk(ENTRY) && FR.FeedOk(Start(), ENTRY, 0) && FR.LastNow(ENTRY, 0) == HOUR_MS
    ensures SavedAtEntry(Entered()) && FR.Owned(Entered().db.fundings, 0) == []
  {
    hide Deliver, OnTick, RequestEntry;
    FR.Step1Keeps(Start(), ENTRY[0]);
    var b1, rest := Step1(Start(), ENTRY[0]), [Mark(ENTRY_TICK, true)];
    assert ENTRY[1..] == rest && rest[1..] == [];
    assert FR.LastNow(rest, 0) == FR.LastNow(rest[1..], HOUR_MS);
    assert FR.FeedOk(Step1(b1, rest[0]), rest[1..], HOUR_MS);
    assert FR.InFeed(b1, rest[0], 0);
  }

  lemma EntryFunds(l: LedgerPos)
    requires Inv(Entered(), Some(l), 0)
    ensures FR.FundInv(Entered(), Some(l), 0, HOUR_MS) && SavedAtEntry(Entered()) && FR.Owned(Entered().db.fundings, 0) == []
  {
    hide Inv, FR.FundsBot, FR.ClockFunds, Step1;
    var other := EntryRun();
    FR.FreshFunds(Start(), 0);
    EntryFeed();
    var l1, r1 := FR.RunFunds(Start(), None, 0, ENTRY, 0);
    FR.RowsSame(Entered(), Some(l), 0, Entered(), l1, r1);
  }

  lemma RunTwo(bot: Bot, inputs: seq<Input>, i: Input, j: Input)
    requires RunOk(inputs) && InputOk(i) && InputOk(j)
    ensures RunOk(inputs + [i] + [j]) && Run(bot, inputs + [i] + [j]) == Step1(Step1(Run(bot, inputs), i), j)
  {
    hide Step1, Run;
    RunThen(bot, inputs, i);
    RunThen(bot, inputs + [i], j);
  }

  lemma OpenAtRoot(bot: Bot, l: LedgerPos, root: nat)
    requires Inv(bot, Some(l), root)
    ensures DbOpenPosition(bot.db).Some? && DbOpenPosition(bot.db).value.root == root
  {
    hide QueueOk, Shows;
    ReadBack(bot.db, Some(l), root);
    MirrorFindsRoot(bot.db.positions, Some(l), root);
  }

  lemma AgainIsPaper(hours: int, step: PosReal)
    requires step == 1.0 || step == 2.0
    ensures InputOk(Again(hours, step))
  {}

  /** Entered at 01:00, restarted twice: the rows of the one position list the boundary of 08:00 twice, and nothing of it
      was ever settled. */
  lemma ListedTwice()
    ensures Fresh(Start()) && RunOk(TwoRestarts())
    ensures
      var b := Run(Start(), TwoRestarts());
      && DbOpenPosition(b.db).Some?
      && FR.Owned(b.db.fundings, DbOpenPosition(b.db).value.root) == [8 * HOUR_MS, 8 * HOUR_MS]
      && b.engine.wallet == 100.0
  {
    hide Step1, Inv, FR.FundsBot, FR.ClockFunds, OnTick, Again, DbOpenPosition, SavedAtEntry, Run;
    var l := EntryRun();
    EntryFunds(l);
    AgainIsPaper(2, 1.0);
    AgainIsPaper(10, 1.0);
    var b4 := Step1(Step1(Entered(), Again(2, 1.0)), Mark(LATE, true));
    var l4 := OnceMore(Entered(), l, 0, HOUR_MS, 2, LATE);
    var l6 := OnceMore(b4, l4, 0, LATE.ts, 10, LATER);
    RunTwo(Start(), ENTRY, Again(2, 1.0), Mark(LATE, true));
    RunTwo(Start(), ENTRY + [Again(2, 1.0)] + [Mark(LATE, true)], Again(10, 1.0), Mark(LATER, true));
    OpenAtRoot(Run(Start(), TwoRestarts()), l6, 0);
  }

  // ---------------------------------------------------------------- a funding nobody is told of

  const RATE_TICK := MarkTick(7 * HOUR_MS, 100.0, 0.01, 8 * HOUR_MS)
  const STOP_TICK := MarkTick(9 * HOUR_MS, 40.0, 0.0, 16 * HOUR_MS)

  /** Entered at 01:00; restarted under a market step the quantity is no multiple of; a tick that sets the rate; a tick
      past 08:00 whose mark is beyond the stop; the snapshot of a bar close. */
  ghost function OffStepDay(): seq<Input> {
    ENTRY + [Again(2, 2.0)] + [Mark(RATE_TICK, true)] + [Mark(STOP_TICK, true)] + [BarClose(10 * HOUR_MS, true)]
  }

  const CHARGED: Position := OPENED.(fundingPaid := 1.0)

  lemma RateTick()
    ensures OnTick(Demo(2.0), RESTORED, RATE_TICK, NO_SCRIPT)
         == Step(RESTORED.(lastTick := Some(RATE_TICK), restoredFunding := None), [], false)
  {
    hide OnTick, Judge;
    QuietTick(Demo(2.0), RESTORED, RATE_TICK);
  }

  /** Eight o'clock at a hundredth of the mark. */
  lemma EightOClock(step: PosReal, s: EngineState, t: MarkTick)
    requires (step == 1.0 || step == 2.0) && t.ts == 9 * HOUR_MS
    requires s.position.Some? && s.position.value == OPENED.(fundingPaid := s.position.value.fundingPaid) && s.restoredFunding.None?
    requires s.lastTick.Some? && s.lastTick.value.nextFunding == 8 * HOUR_MS && s.lastTick.value.ts < 8 * HOUR_MS
    requires s.lastTick.value.mark == 100.0 && s.lastTick.value.rate == 0.01
    ensures
      FundingOnTick(Demo(step), s, t)
      == Step(s.(wallet := s.wallet - 1.0, position := Some(OPENED.(fundingPaid := s.position.value.fundingPaid + 1.0))),
              [FundingSettled(8 * HOUR_MS, 0.01, 100.0, 1.0, 1.0, s.wallet - 1.0)], false)
  {
    assert Boundaries(16 * HOUR_MS, t.ts, 8 * HOUR_MS) == [];
    assert FundingDue(s.position.value, 0.01, 100.0) == 1.0;
  }

  /** The funding is settled, then the exit raises. */
  lemma StopTick()
    ensures
      var s := RESTORED.(lastTick := Some(RATE_TICK), restoredFunding := None);
      OnTick(Demo(2.0), s, STOP_TICK, NO_SCRIPT)
      == Step(s.(lastTick := Some(STOP_TICK), wallet := 99.0, position := Some(CHARGED)),
              [FundingSettled(8 * HOUR_MS, 0.01, 100.0, 1.0, 1.0, 99.0)], true)
  {
    hide OnTick, Multiple, FundingOnTick, DueOnTick, TrailStep, Liquidate;
    var s := RESTORED.(lastTick := Some(RATE_TICK), restoredFunding := None);
    OffStep();
    EightOClock(2.0, s, STOP_TICK);
    OffStepTick(Demo(2.0), s, STOP_TICK);
  }

  lemma OffStep()
    ensures !Multiple(1.0, 2.0)
  {
    assert 1.0 / 2.0 == 0.5;
    assert (0.5).Floor == 0;
  }

  /** Such a day ends with a restart that gives the position up: the rows lack the funding the snapshot holds. */
  lemma UnsaidBreaksTheRestart()
    ensures Fresh(Start()) && RunOk(OffStepDay())
    ensures
      var b := Run(Start(), OffStepDay());
      && b.queue == [] && b.engine.position == Some(CHARGED)
      && DbOpenPosition(b.db).Some? && DbOpenPosition(b.db).value.fundingPaid == 0.0
      && Decide(b.db, ARITH).Mismatch?
      && Step1(b, Again(11, 2.0)).engine.position.None?
  {
    hide Inv, DbOpenPosition, Decide, Step1, Run;
    var l := EntryRun();
    AgainIsPaper(2, 2.0);
    EntryFeed();
    Comeback(Entered(), l, 0, 2, 2.0);
    var r := Step1(Entered(), Again(2, 2.0));
    RunTwo(Start(), ENTRY, Again(2, 2.0), Mark(RATE_TICK, true));
    RunTwo(Start(), ENTRY + [Again(2, 2.0)] + [Mark(RATE_TICK, true)], Mark(STOP_TICK, true), BarClose(10 * HOUR_MS, true));
    OffStepTicks(r);
    CrashConsistency(Start(), OffStepDay(), ARITH);
    GivesUp(Run(Start(), OffStepDay()));
  }

  lemma OffStepTicks(r: Bot)
    requires r.engine == RESTORED && r.queue == [] && r.c == Demo(2.0) && r.untold == NOTHING_UNTOLD
    ensures
      var b := Step1(Step1(Step1(r, Mark(RATE_TICK, true)), Mark(STOP_TICK, true)), BarClose(10 * HOUR_MS, true));
      && b.queue == [] && b.engine.position == Some(CHARGED) && b.durable == Some(CHARGED)
      && b.funded.unsaid == 1.0 && b.funded.savedUnsaid == 1.0
  {
    hide OnTick;
    RateTick();
    StopTick();
    var evs := [FundingSettled(8 * HOUR_MS, 0.01, 100.0, 1.0, 1.0, 99.0)];
    assert evs[1..] == [] && FundingPaid(evs) == 1.0;
  }

  lemma GivesUp(b: Bot)
    requires Decide(b.db, ARITH).Mismatch?
    ensures Step1(b, Again(11, 2.0)).engine.position.None?
  {
    hide Decide, DbOpenPosition, Record;
    var i := Again(11, 2.0);
    RebootCases(b, i.rules, i.arith, i.capital, i.blocked, i.ts, i.ok1, i.ok2);
  }

  // ---------------------------------------------------------------- a wallet of zero

  const CRASH_TICK := MarkTick(2 * HOUR_MS, 0.0, 0.01, 8 * HOUR_MS)

  lemma CrashTick()
    ensures
      OnTick(Demo(1.0), Entered().engine, CRASH_TICK, NO_SCRIPT)
      == Step(Entered().engine.(wallet := 0.0, position := None, lastTick := Some(CRASH_TICK)),
              [PositionClosed(2 * HOUR_MS, Long, Liquidation, 1.0, 100.0, None, [], -100.0, 0.0, 0.0, 0.0)], false)
  {
    hide DoExit;
    assert LiquidationLoss(Demo(1.0), OPENED) == 100.0;
  }

  /** The market goes to zero and takes the whole wallet; the next start puts the configured capital in again. */
  lemma ZeroWalletIsRefilled()
    ensures Fresh(Start()) && RunOk(ENTRY + [Mark(CRASH_TICK, true)])
    ensures
      var b := Run(Start(), ENTRY + [Mark(CRASH_TICK, true)]);
      && b.engine.wallet == 0.0 && LastSnap(b.db).Some? && LastSnap(b.db).value.wallet == 0.0
      && Step1(b, Again(3, 1.0)).engine.wallet == 100.0
  {
    hide Inv, Step1, Run, OnTick;
    var l := EntryRun();
    RunThen(Start(), ENTRY, Mark(CRASH_TICK, true));
    Crashed();
    AgainIsPaper(3, 1.0);
    P.RestartWallet(Start(), ENTRY + [Mark(CRASH_TICK, true)], Again(3, 1.0));
  }

  lemma Crashed()
    ensures
      var b := Step1(Entered(), Mark(CRASH_TICK, true));
      b.engine.wallet == 0.0 && LastSnap(b.db).Some? && LastSnap(b.db).value.wallet == 0.0 && b.purse.saved == Some(0.0)
  {
    hide OnTick, FundedAfter, WindowAfter, WriteEvents;
    CrashTick();
    var step := OnTick(Demo(1.0), Entered().engine, CRASH_TICK, NO_SCRIPT);
    assert step.events[0] in step.events && SnapshotEvent(step.events[0]);
    WritesKeepSnaps(Entered().db, step.events, BatchOf(Entered(), step, CRASH_TICK.ts).tp);
  }

  // ---------------------------------------------------------------- a boundary settled twice

  const EARLY := MarkTick(7 * HOUR_MS, 100.0, 0.01, 8 * HOUR_MS)

  /** A tick past 08:00, one from before it, and the first again. */
  const BACK_AND_FORTH := ENTRY + [Mark(LATE, true)] + [Mark(EARLY, true)] + [Mark(LATE, true)]

  lemma SettlingTick(s: EngineState)
    requires s.position.Some? && s.position.value == OPENED.(fundingPaid := s.position.value.fundingPaid) && s.restoredFunding.None?
    requires s.pending.None? && (s.lastTick == Some(ENTRY_TICK) || s.lastTick == Some(EARLY))
    ensures
      OnTick(Demo(1.0), s, LATE, NO_SCRIPT)
      == Step(s.(lastTick := Some(LATE), wallet := s.wallet - 1.0,
                 position := Some(OPENED.(fundingPaid := s.position.value.fundingPaid + 1.0))),
              [FundingSettled(8 * HOUR_MS, 0.01, 100.0, 1.0, 1.0, s.wallet - 1.0)], false)
  {
    hide OnTick, FundingOnTick, Judge;
    EightOClock(1.0, s, LATE);
    QuietTick(Demo(1.0), s, LATE);
  }

  lemma BackwardTick(s: EngineState)
    requires s.position.Some? && s.position.value == OPENED.(fundingPaid := s.position.value.fundingPaid) && s.restoredFunding.None?
    requires s.pending.None? && s.lastTick == Some(LATE)
    ensures OnTick(Demo(1.0), s, EARLY, NO_SCRIPT) == Step(s.(lastTick := Some(EARLY)), [], false)
  {
    hide OnTick, Judge;
    QuietTick(Demo(1.0), s, EARLY);
  }

  /** The rows settle 08:00 twice for the one position, and the wallet pays twice. */
  lemma SettledTwice()
    ensures Fresh(Start()) && RunOk(BACK_AND_FORTH)
    ensures
      var b := Run(Start(), BACK_AND_FORTH);
      var row := FundRow(Some(0), 8 * HOUR_MS, false, [8 * HOUR_MS], 1.0);
      b.db.fundings == [row, row] && b.engine.wallet == 98.0 && b.engine.position == Some(OPENED.(fundingPaid := 2.0))
  {
    hide Inv, Step1, Run;
    var l := EntryRun();
    RunTwo(Start(), ENTRY, Mark(LATE, true), Mark(EARLY, true));
    RunThen(Start(), ENTRY + [Mark(LATE, true)] + [Mark(EARLY, true)], Mark(LATE, true));
    OpenAtRoot(Entered(), l, 0);
    SettledTicks();
  }

  lemma SettledTicks()
    requires OpenId(Entered().db.positions, None) == Some(0)
    ensures
      var b := Step1(Step1(Step1(Entered(), Mark(LATE, true)), Mark(EARLY, true)), Mark(LATE, true));
      var row := FundRow(Some(0), 8 * HOUR_MS, false, [8 * HOUR_MS], 1.0);
      b.db.fundings == [row, row] && b.engine.wallet == 98.0 && b.engine.position == Some(OPENED.(fundingPaid := 2.0))
  {
    hide Step1;
    SettledStep(Entered());
    var b1 := Step1(Entered(), Mark(LATE, true));
    BackwardStep(b1);
    SettledStep(Step1(b1, Mark(EARLY, true)));
  }

  ghost predicate OnTheContract(bot: Bot) {
    && bot.c == Demo(1.0) && bot.queue == [] && bot.untold == NOTHING_UNTOLD && OpenId(bot.db.positions, None) == Some(0)
    && bot.engine.position.Some? && bot.engine.position.value == OPENED.(fundingPaid := bot.engine.position.value.fundingPaid)
    && bot.engine.restoredFunding.None? && bot.engine.pending.None?
  }

  lemma SettledStep(bot: Bot)
    requires OnTheContract(bot) && (bot.engine.lastTick == Some(ENTRY_TICK) || bot.engine.lastTick == Some(EARLY))
    ensures
      var b := Step1(bot, Mark(LATE, true));
      && OnTheContract(b) && b.engine.lastTick == Some(LATE) && b.engine.wallet == bot.engine.wallet - 1.0
      && b.engine.position.value.fundingPaid == bot.engine.position.value.fundingPaid + 1.0
      && b.db.fundings == bot.db.fundings + [FundRow(Some(0), 8 * HOUR_MS, false, [8 * HOUR_MS], 1.0)]
  {
    hide OnTick, OpenId, WriteEvents, FundedAfter, WindowAfter;
    SettlingTick(bot.engine);
    SettledRow(bot, bot.engine.wallet - 1.0);
    var step := OnTick(bot.c, bot.engine, LATE, NO_SCRIPT);
    assert !HasEntry(step.events);
  }

  lemma BackwardStep(bot: Bot)
    requires OnTheContract(bot) && bot.engine.lastTick == Some(LATE)
    ensures Step1(bot, Mark(EARLY, true)) == bot.(engine := bot.engine.(lastTick := Some(EARLY)))
  {
    hide OnTick, OpenId, Record;
    BackwardTick(bot.engine);
  }

  /** The row of a settled boundary, and positions as they were. */
  lemma SettledRow(bot: Bot, wallet: real)
    requires bot.queue == [] && OpenId(bot.db.positions, None) == Some(0)
    ensures
      var ev := FundingSettled(8 * HOUR_MS, 0.01, 100.0, 1.0, 1.0, wallet);
      var after := WriteEvents(bot.db, [ev], None);
      && after.fundings == bot.db.fundings + [FundRow(Some(0), 8 * HOUR_MS, false, [8 * HOUR_MS], 1.0)]
      && after.positions == bot.db.positions
  {
    hide OpenId;
    var ev := FundingSettled(8 * HOUR_MS, 0.01, 100.0, 1.0, 1.0, wallet);
    assert [ev][1..] == [];
  }
}
