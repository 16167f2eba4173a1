/** The one gate in front of the engine (ops/runtime.py:158-199, 255-290): an entry is submitted only while nothing blocks,
    and one that is pending is dropped at the first mark or second that finds something blocking. */
module EntryGate {
  import opened Types
  import opened Steps
  import opened EngineTypes
  import opened EngineModel
  import opened Accounting
  import opened PaperRuns
  import opened Restore
  import opened Runtime
  import ER = EntryRules
  import RL = RowLedger

  /** The engine's own blocks and the unwritten batches; `other` is every blocker outside the bot: a pause, a trip, silent
      streams, a comparison, unsaved safety state, rules from a snapshot. */
  predicate Closed(bot: Bot, other: bool) {
    other || bot.engine.blocked != [] || bot.queue != []
  }

  /** The runtime's entry points. `stale` is the mark a position is closed at when its streams are silent for too long. */
  datatype Guarded =
    | Submitted(intent: EntryIntent, other: bool)
    | Marked(t: MarkTick, other: bool, okCancel: bool, ok: bool)
    | Second(ts: int, retries: nat, stale: Option<real>, okClose: bool, other: bool, okCancel: bool)
    | Plain(i: Input)

  ghost predicate Allowed(g: Guarded) {
    g.Plain? ==> InputOk(g.i) && !g.i.Submit? && !g.i.Mark?
  }

  function DropIfClosed(bot: Bot, ts: int, other: bool, ok: bool): Bot {
    if bot.engine.pending.Some? && Closed(bot, other) then Step1(bot, Cancel(ts, ok)) else bot
  }

  /** The bot as it stands when an entry point asks the gate. */
  function AtCheck(bot: Bot, g: Guarded): Bot {
    if !g.Second? then bot
    else
      var b1 := Step1(bot, Retry(g.retries));
      if g.stale.Some? then Step1(b1, Close(g.stale.value, g.ts, StaleData, g.okClose)) else b1
  }

  function Take(bot: Bot, g: Guarded): Bot
    requires g.Plain? ==> g.i.Restart? ==> g.i.rules.Valid()
  {
    match g
    case Submitted(intent, other) => if Closed(bot, other) then bot else Step1(bot, Submit(intent))
    case Marked(t, other, okCancel, ok) => Step1(DropIfClosed(bot, t.ts, other, okCancel), Mark(t, ok))
    case Second(ts, _, _, _, other, okCancel) => DropIfClosed(AtCheck(bot, g), ts, other, okCancel)
    case Plain(i) => Step1(bot, i)
  }

  ghost predicate AllAllowed(gs: seq<Guarded>) {
    forall k :: 0 <= k < |gs| ==> Allowed(gs[k])
  }

  ghost function GuardedRun(bot: Bot, gs: seq<Guarded>): Bot
    requires AllAllowed(gs)
    decreases |gs|
  {
    if gs == [] then bot else Take(GuardedRun(bot, gs[..|gs| - 1]), gs[|gs| - 1])
  }

  // ---------------------------------------------------------------- what is true of runs is true behind the gate

  ghost predicate Reached(bot: Bot, ins: seq<Input>, b: Bot) {
    RunOk(ins) && Run(bot, ins) == b
  }

  lemma OneMore(bot: Bot, ins: seq<Input>, b: Bot, i: Input)
    requires Reached(bot, ins, b) && InputOk(i)
    ensures Reached(bot, ins + [i], Step1(b, i))
  {
    hide Step1, Run;
    RunThen(bot, ins, i);
  }

  lemma DropIsRun(bot: Bot, ins: seq<Input>, b: Bot, ts: int, other: bool, ok: bool) returns (more: seq<Input>)
    requires Reached(bot, ins, b)
    ensures Reached(bot, more, DropIfClosed(b, ts, other, ok))
  {
    hide Step1, Reached;
    more := ins;
    if b.engine.pending.Some? && Closed(b, other) {
      OneMore(bot, ins, b, Cancel(ts, ok));
      more := ins + [Cancel(ts, ok)];
    }
  }

  lemma TakeIsRun(bot: Bot, ins: seq<Input>, b: Bot, g: Guarded) returns (more: seq<Input>)
    requires Reached(bot, ins, b) && Allowed(g)
    ensures Reached(bot, more, Take(b, g))
  {
    hide Step1, Reached, DropIfClosed;
    match g
    case Submitted(intent, other) =>
      more := ins;
      if !Closed(b, other) {
        OneMore(bot, ins, b, Submit(intent));
        more := ins + [Submit(intent)];
      }
    case Marked(t, other, okCancel, ok) =>
      var dropped := DropIsRun(bot, ins, b, t.ts, other, okCancel);
      OneMore(bot, dropped, DropIfClosed(b, t.ts, other, okCancel), Mark(t, ok));
      more := dropped + [Mark(t, ok)];
    case Second(ts, n, stale, okClose, other, okCancel) =>
      OneMore(bot, ins, b, Retry(n));
      var swept := ins + [Retry(n)];
      if stale.Some? {
        var close := Close(stale.value, ts, StaleData, okClose);
        OneMore(bot, swept, Step1(b, Retry(n)), close);
        swept := swept + [close];
      }
      more := DropIsRun(bot, swept, AtCheck(b, g), ts, other, okCancel);
    case Plain(i) =>
      OneMore(bot, ins, b, i);
      more := ins + [i];
  }

  /** Every guarded run is a run of the bot, so that all that is proved of those holds here. */
  lemma {:induction false} GuardedIsRun(bot: Bot, gs: seq<Guarded>) returns (ins: seq<Input>)
    requires AllAllowed(gs)
    ensures RunOk(ins) && Run(bot, ins) == GuardedRun(bot, gs)
    decreases |gs|
  {
    hide Take, Run;
    if gs == [] {
      ins := [];
      assert Run(bot, ins) == bot by { NoRun(bot); }
    } else {
      var before := GuardedIsRun(bot, gs[..|gs| - 1]);
      ins := TakeIsRun(bot, before, GuardedRun(bot, gs[..|gs| - 1]), gs[|gs| - 1]);
    }
  }

  lemma NoRun(bot: Bot)
    ensures Run(bot, []) == bot
  {}

  // ---------------------------------------------------------------- no entry while the gate is closed

  /** The gate was asked and found open, where the entry point asks it. */
  predicate FoundOpen(bot: Bot, g: Guarded) {
    g.Submitted? || g.Marked? || g.Second? ==> !Closed(AtCheck(bot, g), g.other)
  }

  /** Intent `i` was submitted as input `k`, and the gate was open there and whenever it was asked since. */
  ghost predicate OpenSince(bot: Bot, gs: seq<Guarded>, i: EntryIntent, k: nat)
    requires AllAllowed(gs)
  {
    && k < |gs| && gs[k].Submitted? && gs[k].intent == i
    && forall j :: k <= j < |gs| && !gs[j].Plain? && (j == k || !gs[j].Submitted?) ==> FoundOpen(GuardedRun(bot, gs[..j]), gs[j])
  }

  lemma TickPending(c: Config, s: EngineState, t: MarkTick)
    ensures OnTick(c, s, t, NO_SCRIPT).st.pending.None? || OnTick(c, s, t, NO_SCRIPT).st.pending == s.pending
  {
    hide FundingOnTick, ExecuteEntry, Judge;
    FundingKeepsPending(c, s, t);
  }

  /** Nothing but a submission makes an entry pending. */
  lemma StepPending(b: Bot, i: Input)
    requires InputOk(i) && !i.Submit?
    ensures Step1(b, i).engine.pending.None? || Step1(b, i).engine.pending == b.engine.pending
  {
    hide OnTick, DoExit, Record, Flush, FundedAtRestart, PurseAtRestart, Decide, DbOpenPosition;
    match i
    case Mark(t, ok) => TickPending(b.c, b.engine, t);
    case _ =>
  }

  lemma CancelDrops(b: Bot, ts: int, ok: bool)
    ensures Step1(b, Cancel(ts, ok)).engine.pending.None?
  {
    hide Record;
  }

  lemma SubmitPending(b: Bot, i: EntryIntent)
    ensures Step1(b, Submit(i)).engine.pending == b.engine.pending || Step1(b, Submit(i)).engine.pending == Some(i)
  {}

  /** What is pending after an entry point was pending before, the gate being open if it was asked, or was just submitted. */
  lemma TakePending(b: Bot, g: Guarded)
    requires Allowed(g) && Take(b, g).engine.pending.Some?
    ensures
      || (Take(b, g).engine.pending == b.engine.pending && (g.Submitted? || FoundOpen(b, g)))
      || (g.Submitted? && Take(b, g).engine.pending == Some(g.intent) && FoundOpen(b, g))
  {
    hide Step1;
    match g
    case Submitted(intent, other) =>
      SubmitPending(b, intent);
    case Marked(t, other, okCancel, ok) =>
      CancelDrops(b, t.ts, okCancel);
      StepPending(DropIfClosed(b, t.ts, other, okCancel), Mark(t, ok));
    case Second(ts, n, stale, okClose, other, okCancel) =>
      StepPending(b, Retry(n));
      if stale.Some? { StepPending(Step1(b, Retry(n)), Close(stale.value, ts, StaleData, okClose)); }
      CancelDrops(AtCheck(b, g), ts, okCancel);
    case Plain(i) =>
      StepPending(b, i);
  }

  lemma {:induction false} PendingIff(bot: Bot, gs: seq<Guarded>) returns (k: nat)
    requires AllAllowed(gs) && bot.engine.pending.None?
    ensures
      var b := GuardedRun(bot, gs);
      b.engine.pending.Some? ==> OpenSince(bot, gs, b.engine.pending.value, k)
    decreases |gs|
  {
    hide Take, AtCheck, FoundOpen;
    k := 0;
    if gs != [] && GuardedRun(bot, gs).engine.pending.Some? {
      var n := |gs| - 1;
      var before := gs[..n];
      var b := GuardedRun(bot, before);
      TakePending(b, gs[n]);
      if gs[n].Submitted? && GuardedRun(bot, gs).engine.pending == Some(gs[n].intent) && FoundOpen(b, gs[n]) {
        k := n;
      } else {
        k := PendingIff(bot, before);
        forall j | k <= j < |gs| && !gs[j].Plain? && (j == k || !gs[j].Submitted?) ensures FoundOpen(GuardedRun(bot, gs[..j]), gs[j]) {
          if j < n { assert before[..j] == gs[..j] && before[j] == gs[j]; }
        }
      }
    }
  }

  lemma NoEntryIdle(c: Config, s: EngineState, t: MarkTick)
    requires s.pending.None?
    ensures !HasEntry(OnTick(c, s, t, NO_SCRIPT).events)
  {
    hide Judge, OnTick;
    if !GridOk(c, t) {
      OffGridTick(c, s, t, NO_SCRIPT);
    } else if s.position.Some? {
      HeldOpensNothing(c, s, t);
    } else {
      FlatTickQuiet(c, s, t);
    }
  }

  lemma FlatTickQuiet(c: Config, s: EngineState, t: MarkTick)
    requires s.pending.None? && s.position.None?
    ensures OnTick(c, s, t, NO_SCRIPT).events == []
  {}

  /** Main theorem on the gate. Over every guarded run, crashes included: a mark that fills an entry finds the gate open, and
      the entry is one submitted through the open gate, which every mark and second since has found open too. */
  lemma EntryPassesTheGate(bot: Bot, gs: seq<Guarded>, g: Guarded) returns (k: nat)
    requires AllAllowed(gs) && bot.engine.pending.None? && g.Marked?
    ensures
      var b := GuardedRun(bot, gs);
      var asked := DropIfClosed(b, g.t.ts, g.other, g.okCancel);
      HasEntry(OnTick(asked.c, asked.engine, g.t, NO_SCRIPT).events) ==>
        && !Closed(b, g.other) && asked == b && b.engine.pending.Some?
        && OpenSince(bot, gs, b.engine.pending.value, k)
  {
    hide OnTick, GuardedRun, OpenSince, Step1;
    var b := GuardedRun(bot, gs);
    k := PendingIff(bot, gs);
    var asked := DropIfClosed(b, g.t.ts, g.other, g.okCancel);
    CancelDrops(b, g.t.ts, g.okCancel);
    if asked.engine.pending.None? { NoEntryIdle(asked.c, asked.engine, g.t); }
  }

  /** What a submission does: it is taken exactly through the open gate by an engine that welcomes it. */
  lemma SubmittedIff(b: Bot, intent: EntryIntent, other: bool)
    ensures
      Take(b, Submitted(intent, other))
      == if !Closed(b, other) && ER.Welcome(b.c, b.engine, intent) then b.(engine := b.engine.(pending := Some(intent))) else b
  {
    ER.RequestIff(b.c, b.engine, intent);
  }

  /** A person's start lifts every block of the engine, so that a flat one with nothing unwritten takes a welcome intent again. */
  lemma StartLetsIn(b: Bot, intent: EntryIntent)
    requires b.queue == [] && ER.Welcome(b.c, b.engine.(blocked := []), intent)
    ensures Take(Take(b, Plain(Unblock)), Submitted(intent, false)).engine == b.engine.(blocked := [], pending := Some(intent))
  {
    SubmittedIff(Take(b, Plain(Unblock)), intent, false);
  }

  // ---------------------------------------------------------------- blocks only grow

  /** Every reason that blocked still does, and none is listed twice. */
  predicate Grows(s: EngineState, st: EngineState) {
    s.blocked <= st.blocked && (OnceEach(s.blocked) ==> OnceEach(st.blocked))
  }

  predicate OnceEach(why: seq<BlockReason>) {
    forall i, j :: 0 <= i < j < |why| ==> why[i] != why[j]
  }

  lemma BlockGrows(s: EngineState, st: EngineState, why: BlockReason)
    requires Grows(s, st)
    ensures Grows(s, Block(st, why))
  {}

  lemma SendGrows(c: Config, s: EngineState, reason: ExitReason, mark: real, ts: int, x: ExitScript)
    requires s.position.Some?
    ensures Grows(s, SendExit(c, s, reason, mark, ts, x).st)
  {
    hide Multiple, ExitSent, BookExit, OnceEach;
    var fills := ExitSent(c, s.position.value.direction, s.position.value.qty, mark, x).fills;
    BookKeeps(s, reason, ts, fills);
    BlockGrows(s, BookExit(s, reason, ts, fills).st, ExitSendFailed);
  }

  lemma BookKeeps(s: EngineState, reason: ExitReason, ts: int, fills: seq<Fill>)
    requires s.position.Some?
    ensures BookExit(s, reason, ts, fills).st.blocked == s.blocked
  {
    hide Vwap, FillQty, FillCommission, Pnl;
  }

  lemma AfterGrows(c: Config, s: EngineState, done: Step, ts: int, x: ExitScript)
    requires Grows(s, done.st)
    ensures Grows(s, AfterExit(c, done, ts, x).st)
  {
    hide Grows;
    if x.afterRead.Some? { BlockGrows(s, done.st, ExitLeftover(x.afterRead.value.amt)); }
    BlockGrows(s, done.st, ReadFailed);
  }

  lemma ExitGrows(c: Config, s: EngineState, reason: ExitReason, mark: real, ts: int, x: ExitScript)
    requires s.position.Some?
    ensures Grows(s, DoExit(c, s, reason, mark, ts, x).st)
  {
    hide SendExit, AfterExit, ResyncQty, OnceEach;
    SendGrows(c, s, reason, mark, ts, x);
    AfterGrows(c, s, SendExit(c, s, reason, mark, ts, x), ts, x);
    if c.mode.Live? {
      match x.read
      case None =>
        var st := Block(s, ReadFailed);
        SendGrows(c, st, reason, mark, ts, x);
        BlockGrows(s, s, ReadFailed);
        AfterGrows(c, s, Then(Step(st, [EntriesBlocked(ts, ReadFailed)], false), SendExit(c, st, reason, mark, ts, x)), ts, x);
      case Some(pr) =>
        BlockGrows(s, s, AlreadyFlat);
        BlockGrows(s, s, OppositeSign);
        if pr.amt != 0.0 {
          var synced := ResyncQty(c, s, mark, ts, pr);
          SyncGrows(c, s, mark, ts, pr);
          SendGrows(c, synced.st, reason, mark, ts, x);
          AfterGrows(c, s, Then(synced, SendExit(c, synced.st, reason, mark, ts, x)), ts, x);
        }
    }
  }

  lemma SyncGrows(c: Config, s: EngineState, mark: real, ts: int, pr: PositionRisk)
    requires s.position.Some? && pr.amt != 0.0
    ensures Grows(s, ResyncQty(c, s, mark, ts, pr).st)
  {
    hide Grows, TakerFee;
    var why := ResyncBeforeExit(s.position.value.Signed(), pr.amt);
    SameGrows(s);
    BlockGrows(s, s, why);
    BlocksOnly(s, Block(s, why), ResyncQty(c, s, mark, ts, pr).st);
  }

  lemma SameGrows(s: EngineState)
    ensures Grows(s, s)
  {}

  lemma BlocksOnly(s: EngineState, a: EngineState, b: EngineState)
    requires Grows(s, a) && a.blocked == b.blocked
    ensures Grows(s, b)
  {}

  lemma FundingGrows(c: Config, s: EngineState, t: MarkTick)
    ensures Grows(s, FundingOnTick(c, s, t).st)
  {
    hide MissedBoundaries, RefreshLiquidation, FundingDue;
  }

  lemma FillsGrow(c: Config, s: EngineState, i: EntryIntent, d: SizingDecision, mark: real, ts: int, x: EntryScript)
    requires Quoted(c, i, mark)
    ensures Grows(s, Fills(c, s, i, d, mark, ts, x).0.st)
  {
    hide EntrySent, Vwap, FillQty, FillCommission, Quote;
  }

  lemma BookGrows(c: Config, p: Position, gateOk: bool, f: Filled, fills: seq<Fill>, mark: real, ts: int, x: EntryScript, gx: ExitScript)
    ensures Grows(f.st, BookEntry(c, p, gateOk, f, fills, mark, ts, x, gx).st)
  {
    hide DoExit, OnceEach;
    var base := if c.sizingCapital.Some? then c.sizingCapital.value else f.st.wallet;
    var s1 := f.st.(wallet := base - f.commission, position := Some(p), lastEntryTp := p.tp);
    CheckGrows(c, s1, ts, x);
    ExitGrows(c, LiveCheck(c, s1, ts, x).st, PostFillGate, mark, ts, gx);
  }

  lemma CheckGrows(c: Config, s: EngineState, ts: int, x: EntryScript)
    requires s.position.Some?
    ensures Grows(s, LiveCheck(c, s, ts, x).st)
  {}

  lemma EntryGrows(c: Config, s: EngineState, ts: int, mark: real, x: EntryScript, gx: ExitScript)
    ensures Grows(s, EntryOnTick(c, s, ts, mark, x, gx).st)
  {
    hide Fills, CheckFill, BookEntry, Quote, SlCrossed, OnceEach;
    if s.pending.Some? {
      var i := s.pending.value;
      var quote := Quote(c, SideFor(i.direction, Entry), mark);
      var d := c.size(quote, EntrySl(i, quote), i.direction, if c.sizingCapital.Some? then c.sizingCapital.value else s.wallet, i.regime);
      if d.Some? && d.value.ok && d.value.leverage.Some? {
        FillsGrow(c, s.(pending := None), i, d.value, mark, ts, x);
        var (f, fills) := Fills(c, s.(pending := None), i, d.value, mark, ts, x);
        if f.qty > 0.0 {
          var post := CheckFill(c, i, d.value, d.value.leverage.value, f.entry, f.qty);
          BookGrows(c, NewPosition(i, d.value, d.value.leverage.value, f, post.liqPrice, ts), post.gateOk, f, fills, mark, ts, x, gx);
        }
      }
    }
  }

  lemma JudgeGrows(c: Config, s: EngineState, ts: int, low: real, high: real, slRef: real, tpRef: real, mark: real, x: ExitScript)
    ensures Grows(s, Judge(c, s, ts, low, high, slRef, tpRef, mark, x).st)
  {
    hide DoExit, OnceEach, LiquidationLoss;
    if s.position.Some? {
      var p := s.position.value;
      var warned := s.(position := Some(p.(liqAlerted := true)));
      var why := if p.trail.Some? && p.trail.value.moved then TrailStop else StopLoss;
      ExitGrows(c, s, why, slRef, ts, x);
      ExitGrows(c, warned, why, slRef, ts, x);
      ExitGrows(c, s, TakeProfit, tpRef, ts, x);
      ExitGrows(c, warned, TakeProfit, tpRef, ts, x);
    }
  }

  lemma TickGrows(c: Config, s: EngineState, t: MarkTick, x: TickScript)
    ensures Grows(s, OnTick(c, s, t, x).st)
  {
    hide FundingOnTick, EntryOnTick, Judge, OnceEach;
    FundingGrows(c, s, t);
    var s1 := FundingOnTick(c, s, t).st.(lastTick := Some(t));
    EntryGrows(c, s1, t.ts, t.mark, x.entry, x.gateExit);
    JudgeGrows(c, EntryOnTick(c, s1, t.ts, t.mark, x.entry, x.gateExit).st, t.ts, t.mark, t.mark, t.mark, t.mark, t.mark, x.exit);
  }

  lemma BarGrows(c: Config, s: EngineState, b: MarkBar, x: TickScript)
    ensures Grows(s, OnBar(c, s, b, x).st)
  {
    hide EntryOnTick, Judge, OnceEach;
    EntryGrows(c, s, b.openMs, b.open, x.entry, x.gateExit);
    var st := EntryOnTick(c, s, b.openMs, b.open, x.entry, x.gateExit).st;
    if st.position.Some? {
      var p := st.position.value;
      JudgeGrows(c, st, b.closeMs, b.low, b.high, BarSlRef(p, b.open), if p.tp.Some? then p.tp.value else 0.0, b.close, x.exit);
    }
  }

  /** In either mode and whatever the exchange answers, only a person lifts a block. */
  lemma CallKeepsBlocks(c: Config, s: EngineState, k: RL.Call)
    ensures if k.CallClear? then RL.DoCall(c, s, k).st == s.(blocked := []) else Grows(s, RL.DoCall(c, s, k).st)
  {
    hide OnTick, OnBar, DoExit, OnceEach, RefreshLiquidation, LiquidationLoss;
    match k
    case CallTick(t, x) => TickGrows(c, s, t, x);
    case CallBar(b, x) => BarGrows(c, s, b, x);
    case CallClose(mark, ts, reason, x) => if s.position.Some? { ExitGrows(c, s, reason, mark, ts, x); }
    case CallVanish(ts) => BlockGrows(s, s, Vanished);
    case _ =>
  }

  /** A position the exchange has dropped leaves a block behind, and so does an exit that finds nothing there. */
  lemma VanishBlocks(s: EngineState, ts: int)
    ensures Vanish(s, ts).st.position.None?
    ensures s.position.Some? ==> Vanish(s, ts).st.blocked != [] && Vanished in Vanish(s, ts).st.blocked
  {}

  /** A person's start, or a restart that is handed no block. */
  predicate Lifts(g: Guarded) {
    g.Plain? && (g.i.Unblock? || (g.i.Restart? && g.i.blocked == []))
  }

  /** A restarted engine has the blocks it is handed. */
  lemma RestartKeepsBlocks(b: Bot, i: Input)
    requires InputOk(i) && i.Restart?
    ensures Step1(b, i).engine.blocked == i.blocked
  {
    hide Record, FundedAtRestart, PurseAtRestart, Decide, DbOpenPosition;
  }

  lemma StepKeepsBlocks(b: Bot, i: Input)
    requires InputOk(i) && !i.Unblock? && !i.Restart?
    ensures b.engine.blocked <= Step1(b, i).engine.blocked
  {
    hide OnTick, DoExit, Record, Flush, OnceEach;
    match i
    case Mark(t, ok) => TickGrows(b.c, b.engine, t, NO_SCRIPT);
    case Close(mark, ts, reason, ok) => if b.engine.position.Some? { ExitGrows(b.c, b.engine, reason, mark, ts, NO_EXIT); }
    case _ =>
  }

  lemma TakeKeepsBlocks(b: Bot, g: Guarded)
    requires Allowed(g) && !Lifts(g)
    ensures b.engine.blocked != [] ==> Take(b, g).engine.blocked != []
  {
    hide Step1;
    match g
    case Submitted(intent, other) => StepKeepsBlocks(b, Submit(intent));
    case Marked(t, other, okCancel, ok) =>
      StepKeepsBlocks(b, Cancel(t.ts, okCancel));
      StepKeepsBlocks(DropIfClosed(b, t.ts, other, okCancel), Mark(t, ok));
    case Second(ts, n, stale, okClose, other, okCancel) =>
      StepKeepsBlocks(b, Retry(n));
      if stale.Some? { StepKeepsBlocks(Step1(b, Retry(n)), Close(stale.value, ts, StaleData, okClose)); }
      StepKeepsBlocks(AtCheck(b, g), Cancel(ts, okCancel));
    case Plain(i) =>
      if i.Restart? { RestartKeepsBlocks(b, i); } else { StepKeepsBlocks(b, i); }
  }

  lemma {:induction false} BlockedStays(bot: Bot, gs: seq<Guarded>)
    requires AllAllowed(gs) && forall k :: 0 <= k < |gs| ==> !Lifts(gs[k])
    ensures bot.engine.blocked != [] ==> GuardedRun(bot, gs).engine.blocked != []
    decreases |gs|
  {
    hide Take;
    if gs != [] {
      BlockedStays(bot, gs[..|gs| - 1]);
      TakeKeepsBlocks(GuardedRun(bot, gs[..|gs| - 1]), gs[|gs| - 1]);
    }
  }

  /** Main theorem on blocks. Once the engine is blocked, no mark fills an entry until a person starts it again; restarts that
      are handed the saved blocks included. */
  lemma BlockedOpensNothing(bot: Bot, gs: seq<Guarded>, g: Guarded)
    requires AllAllowed(gs) && (forall k :: 0 <= k < |gs| ==> !Lifts(gs[k])) && g.Marked? && bot.engine.blocked != []
    ensures
      var b := GuardedRun(bot, gs);
      var asked := DropIfClosed(b, g.t.ts, g.other, g.okCancel);
      b.engine.blocked != [] && !HasEntry(OnTick(asked.c, asked.engine, g.t, NO_SCRIPT).events)
  {
    hide OnTick, GuardedRun, Step1;
    BlockedStays(bot, gs);
    var b := GuardedRun(bot, gs);
    CancelDrops(b, g.t.ts, g.okCancel);
    var asked := DropIfClosed(b, g.t.ts, g.other, g.okCancel);
    NoEntryIdle(asked.c, asked.engine, g.t);
  }
}
