/** The row ledger agrees with the engine over whole runs, LIVE included: adoption, partial exits, partial and full
    vanishes and synchronisations (db/record.py:192-301, paper/engine.py:621-695). */
module RowLedger {
  import opened Types
  import opened EngineTypes
  import opened EngineModel
  import opened Steps
  import opened Accounting
  import opened PaperRuns
  import opened Rows

  /** Any public engine call, with the exchange's answers. */
  datatype Call =
    | CallTick(t: MarkTick, x: TickScript)
    | CallBar(b: MarkBar, x: TickScript)
    | CallFunding(ts: int, rate: real, mark: real)
    | CallGap(open: real, ts: int)
    | CallClose(mark: real, ts: int, reason: ExitReason, exit: ExitScript)
    | CallVanish(ts: int)
    | CallSync(ts: int, wallet: real)
    | CallCancel(ts: int)
    | CallEntry(intent: EntryIntent)
    | CallClear

  function DoCall(c: Config, s: EngineState, k: Call): Step {
    match k
    case CallTick(t, x) => OnTick(c, s, t, x)
    case CallBar(b, x) => OnBar(c, s, b, x)
    case CallFunding(ts, rate, mark) => OnFunding(c, s, ts, rate, mark)
    case CallGap(open, ts) => LiquidateIfOpenBeyond(c, s, open, ts)
    case CallClose(mark, ts, reason, x) => CloseNow(c, s, mark, ts, reason, x)
    case CallVanish(ts) => Vanish(s, ts)
    case CallSync(ts, wallet) => SyncWallet(s, ts, wallet)
    case CallCancel(ts) => CancelPending(s, ts)
    case CallEntry(i) => RequestEntry(c, s, i)
    case CallClear => ClearBlocks(s)
  }

  lemma TickKeepsOneWay(c: Config, s: EngineState, t: MarkTick, x: TickScript)
    requires OneWay(s)
    ensures OneWay(OnTick(c, s, t, x).st)
  {
    hide FundingOnTick, ExecuteEntry, Judge;
    if GridOk(c, t) {
      FundingOnTickFrame(c, s, t);
      var s1 := FundingOnTick(c, s, t).st.(lastTick := Some(t));
      var entered := EntryOnTick(c, s1, t.ts, t.mark, x.entry, x.gateExit);
      FlatJudge(c, entered.st, t.ts, t.mark, t.mark, t.mark, t.mark, t.mark, x.exit);
    }
  }

  lemma FlatJudge(c: Config, s: EngineState, ts: int, low: real, high: real, slRef: real, tpRef: real, mark: real, x: ExitScript)
    ensures s.position.None? ==> Judge(c, s, ts, low, high, slRef, tpRef, mark, x) == Step(s, [], false)
  {}

  lemma CallKeepsOneWay(c: Config, s: EngineState, k: Call)
    requires OneWay(s)
    ensures OneWay(DoCall(c, s, k).st)
  {
    hide OnTick, DoExit, ExecuteEntry, Judge;
    match k
    case CallTick(t, x) => TickKeepsOneWay(c, s, t, x);
    case CallBar(b, x) =>
      var entered := EntryOnTick(c, s, b.openMs, b.open, x.entry, x.gateExit);
      assert OneWay(entered.st);
    case _ =>
  }

  /** One call, accounted for in the row ledger's terms. `vanish` is called in LIVE mode only. */
  lemma CallAccounted(c: Config, l: Option<LedgerPos>, s: EngineState, k: Call)
    requires OneWay(s) && Shows(c.mode, l, s.position) && (k.CallVanish? ==> c.mode.Live?)
    ensures Accounted(c.mode, l, s, DoCall(c, s, k), DoCall(c, s, k).st.lastEntryTp)
  {
    hide OnTick, OnBar, DoExit, Shows, Judge, FundingOnTick, ExecuteEntry, Accounted;
    var tp := DoCall(c, s, k).st.lastEntryTp;
    match k
    case CallTick(t, x) => OnTickAccounted(c, l, s, t, x);
    case CallBar(b, x) => OnBarAccounted(c, l, s, b, x);
    case CallFunding(ts, rate, mark) => OtherCallsAccounted(c, l, s, ts, rate, mark, Manual, NO_EXIT);
    case CallGap(open, ts) => OtherCallsAccounted(c, l, s, ts, 0.0, open, Manual, NO_EXIT);
    case CallClose(mark, ts, reason, x) =>
      OtherCallsAccounted(c, l, s, ts, 0.0, mark, reason, x);
      assert tp == s.lastEntryTp;
    case CallVanish(ts) => OtherCallsAccounted(c, l, s, ts, 0.0, 0.0, Manual, NO_EXIT);
    case CallSync(ts, wallet) => OtherCallsAccounted(c, l, s, ts, 0.0, wallet, Manual, NO_EXIT);
    case CallCancel(ts) => OtherCallsAccounted(c, l, s, ts, 0.0, 0.0, Manual, NO_EXIT);
    case CallEntry(i) => QuietAccounted(c.mode, l, s, DoCall(c, s, k), tp);
    case CallClear => QuietAccounted(c.mode, l, s, DoCall(c, s, k), tp);
  }

  // ---------------------------------------------------------------- a call that raises

  /** The quantity an exit goes on to close; none if the exchange's answer ends it. */
  function ToClose(c: Config, p: Position, x: ExitScript): Option<real> {
    if c.mode.Paper? || x.read.None? then Some(p.qty)
    else if x.read.value.amt == 0.0 || (x.read.value.amt > 0.0) != p.direction.Long? then None
    else Some(Abs(x.read.value.amt))
  }

  /** The taker fee an exit books on quantity the exchange holds in excess. */
  function ExcessFee(c: Config, p: Position, refMark: real, x: ExitScript): real {
    if c.mode.Paper? || x.read.None? || Abs(x.read.value.amt) <= p.qty then 0.0
    else TakerFee(c, Abs(x.read.value.amt) - p.qty, if x.read.value.entryPrice > 0.0 then x.read.value.entryPrice else refMark)
  }

  /** An exit raises exactly if the quantity it is about to close is off the exchange's step. By then it holds that
      quantity and has booked the fee on the excess, and nobody is told. */
  lemma ExitRaisesIff(c: Config, s: EngineState, reason: ExitReason, refMark: real, ts: int, x: ExitScript)
    requires s.position.Some?
    ensures
      var p := s.position.value;
      var step := DoExit(c, s, reason, refMark, ts, x);
      var q := ToClose(c, p, x);
      && (step.raised <==> q.Some? && !Multiple(q.value, c.rules.marketStep))
      && (step.raised ==>
            && step.st.position.Some? && step.st.position.value.direction == p.direction && step.st.position.value.qty == q.value
            && step.st.wallet == s.wallet - ExcessFee(c, p, refMark, x))
  {
    hide Multiple, SendExit, AfterExit, ResyncQty;
    SendRaisesIff(c, s, reason, refMark, ts, x);
    AfterExitRaises(c, SendExit(c, s, reason, refMark, ts, x), ts, x);
    if c.mode.Live? {
      match x.read
      case None =>
        var blocked := Block(s, ReadFailed);
        SendRaisesIff(c, blocked, reason, refMark, ts, x);
        AfterExitRaises(c, Then(Step(blocked, [EntriesBlocked(ts, ReadFailed)], false), SendExit(c, blocked, reason, refMark, ts, x)), ts, x);
      case Some(pr) =>
        if pr.amt != 0.0 {
          var synced := ResyncQty(c, s, refMark, ts, pr);
          ResyncedQty(c, s, refMark, ts, pr);
          SendRaisesIff(c, synced.st, reason, refMark, ts, x);
          AfterExitRaises(c, Then(synced, SendExit(c, synced.st, reason, refMark, ts, x)), ts, x);
        }
    }
  }

  lemma AfterExitRaises(c: Config, done: Step, ts: int, x: ExitScript)
    ensures AfterExit(c, done, ts, x).raised == done.raised
    ensures done.raised ==> AfterExit(c, done, ts, x) == done
  {}

  lemma ResyncedQty(c: Config, s: EngineState, refMark: real, ts: int, pr: PositionRisk)
    requires c.mode.Live? && s.position.Some? && pr.amt != 0.0
    ensures
      var p, st := s.position.value, ResyncQty(c, s, refMark, ts, pr).st;
      && st.position.Some? && st.position.value.direction == p.direction && st.position.value.qty == Abs(pr.amt)
      && (forall x: ExitScript | x.read == Some(pr) :: st.wallet == s.wallet - ExcessFee(c, p, refMark, x))
  {}

  function TpRef(p: Position): real {
    if p.tp.Some? then p.tp.value else 0.0
  }

  /** A judgement that raises has done what that exit does. */
  lemma JudgeRaised(c: Config, s: EngineState, ts: int, low: real, high: real, slRef: real, tpRef: real, mark: real, x: ExitScript)
    requires Judge(c, s, ts, low, high, slRef, tpRef, mark, x).raised
    ensures s.position.Some?
    ensures
      var p, st := s.position.value, Judge(c, s, ts, low, high, slRef, tpRef, mark, x).st;
      && ToClose(c, p, x).Some? && !Multiple(ToClose(c, p, x).value, c.rules.marketStep)
      && st.position.Some? && st.position.value.direction == p.direction && st.position.value.qty == ToClose(c, p, x).value
      && st.wallet == s.wallet - ExcessFee(c, p, if SlHit(p, low, high) then slRef else tpRef, x)
  {
    hide DoExit, Multiple, TakerFee, TrailStep, LiquidationLoss;
    var p := s.position.value;
    var alerted := s.(position := Some(p.(liqAlerted := true)));
    var why := if p.trail.Some? && p.trail.value.moved then TrailStop else StopLoss;
    ExitRaisesIff(c, s, why, slRef, ts, x);
    ExitRaisesIff(c, alerted, why, slRef, ts, x);
    ExitRaisesIff(c, s, TakeProfit, tpRef, ts, x);
    ExitRaisesIff(c, alerted, TakeProfit, tpRef, ts, x);
    TrailNeverRaises(Evaluate(c, s, ts, low, high, slRef, tpRef, mark, x).st, ts, low, high);
  }

  /** The guards of an entry up to the booking: whatever then goes wrong, a position has been opened. */
  predicate Books(c: Config, s: EngineState, refMark: real, ts: int, x: EntryScript) {
    && s.pending.Some? && ts > s.pending.value.decidedMs
    && var i := s.pending.value;
    var quote := Quote(c, SideFor(i.direction, Entry), refMark);
    var sl := EntrySl(i, quote);
    && !SlCrossed(i.direction, refMark, sl)
    && var d := c.size(quote, sl, i.direction, if c.sizingCapital.Some? then c.sizingCapital.value else s.wallet, i.regime);
    && d.Some? && d.value.ok && d.value.leverage.Some?
    && (c.mode.Live? ==> x.echo == Some(d.value.leverage.value))
    && var f := Fills(c, s.(pending := None), i, d.value, refMark, ts, x).0;
    f.qty > 0.0
  }

  /** An entry that raises leaves a position exactly if it got as far as booking one. */
  lemma EntryBooksIff(c: Config, s: EngineState, ts: int, mark: real, x: EntryScript, gx: ExitScript)
    requires s.position.None?
    ensures var step := EntryOnTick(c, s, ts, mark, x, gx);
      && (step.raised ==> (step.st.position.Some? <==> Books(c, s, mark, ts, x)))
      && (step.st.position.Some? ==> Books(c, s, mark, ts, x))
  {
    hide BookEntry, Quote, Vwap, CheckFill;
    if Books(c, s, mark, ts, x) {
      var i := s.pending.value;
      var quote := Quote(c, SideFor(i.direction, Entry), mark);
      var d := c.size(quote, EntrySl(i, quote), i.direction, if c.sizingCapital.Some? then c.sizingCapital.value else s.wallet, i.regime).value;
      var (f, fills) := Fills(c, s.(pending := None), i, d, mark, ts, x);
      var post := CheckFill(c, i, d, d.leverage.value, f.entry, f.qty);
      BookRaised(c, NewPosition(i, d, d.leverage.value, f, post.liqPrice, ts), post.gateOk, f, fills, mark, ts, x, gx);
    }
  }

  /** What an entry that raises has taken from the wallet: nothing if it was refused a size, and otherwise the entry
      commission and the fee on quantity the gate exit found in excess. */
  lemma RaisedEntryCost(c: Config, s: EngineState, ts: int, mark: real, x: EntryScript, gx: ExitScript)
    requires c.mode.Live? && s.position.None? && EntryOnTick(c, s, ts, mark, x, gx).raised
    ensures var st := EntryOnTick(c, s, ts, mark, x, gx).st;
      if !Books(c, s, mark, ts, x) then st.wallet == s.wallet
      else
        var b := Booked(c, s, mark, ts, x);
        st.wallet == s.wallet - b.entryCommission - ExcessFee(c, b, mark, gx)
  {
    hide BookEntry, Quote, Vwap, CheckFill, ExcessFee;
    if Books(c, s, mark, ts, x) {
      var i := s.pending.value;
      var quote := Quote(c, SideFor(i.direction, Entry), mark);
      var d := c.size(quote, EntrySl(i, quote), i.direction, s.wallet, i.regime).value;
      var (f, fills) := Fills(c, s.(pending := None), i, d, mark, ts, x);
      var post := CheckFill(c, i, d, d.leverage.value, f.entry, f.qty);
      BookRaised(c, NewPosition(i, d, d.leverage.value, f, post.liqPrice, ts), post.gateOk, f, fills, mark, ts, x, gx);
    }
  }

  /** The position an entry books. */
  function Booked(c: Config, s: EngineState, refMark: real, ts: int, x: EntryScript): Position
    requires Books(c, s, refMark, ts, x)
  {
    var i := s.pending.value;
    var quote := Quote(c, SideFor(i.direction, Entry), refMark);
    var d := c.size(quote, EntrySl(i, quote), i.direction, if c.sizingCapital.Some? then c.sizingCapital.value else s.wallet, i.regime).value;
    var f := Fills(c, s.(pending := None), i, d, refMark, ts, x).0;
    NewPosition(i, d, d.leverage.value, f, CheckFill(c, i, d, d.leverage.value, f.entry, f.qty).liqPrice, ts)
  }

  lemma BookRaised(c: Config, p: Position, gateOk: bool, f: Filled, fills: seq<Fill>, refMark: real, ts: int, x: EntryScript, gx: ExitScript)
    ensures var step := BookEntry(c, p, gateOk, f, fills, refMark, ts, x, gx);
      step.raised ==>
        && step.st.position.Some?
        && (c.mode.Live? ==> step.st.wallet == f.st.wallet - f.commission - ExcessFee(c, p, refMark, gx))
  {
    hide DoExit, OpeningEvents;
    var base := if c.sizingCapital.Some? then c.sizingCapital.value else f.st.wallet;
    var s1 := f.st.(wallet := base - f.commission, position := Some(p), lastEntryTp := p.tp);
    ExitRaisesIff(c, LiveCheck(c, s1, ts, x).st, PostFillGate, refMark, ts, gx);
  }

  /** The exchange's answer to a LIVE exit's first question is missing or the engine's own quantity. */
  predicate ReadAgrees(p: Position, x: ExitScript) {
    x.read.Some? ==> Abs(x.read.value.amt) == p.qty
  }

  /** The guard: a raising call of this kind changes no quantity. In PAPER none does. */
  predicate RaiseKeepsQty(c: Config, s: EngineState, k: Call) {
    c.mode.Paper? ||
    match k
    case CallTick(t, x) => !GridOk(c, t) || (if s.position.Some? then ReadAgrees(s.position.value, x.exit) else !Books(c, s, t.mark, t.ts, x.entry))
    case CallBar(b, x) => if s.position.Some? then ReadAgrees(s.position.value, x.exit) else !Books(c, s, b.open, b.openMs, x.entry)
    case CallClose(_, _, _, x) => s.position.Some? ==> ReadAgrees(s.position.value, x)
    case _ => true
  }

  lemma HeldTickRaised(c: Config, s: EngineState, t: MarkTick, x: TickScript)
    requires OneWay(s) && s.position.Some? && GridOk(c, t) && OnTick(c, s, t, x).raised
    ensures
      var p, st := s.position.value, OnTick(c, s, t, x).st;
      && ToClose(c, p, x.exit).Some?
      && st.position.Some? && st.position.value.direction == p.direction && st.position.value.qty == ToClose(c, p, x.exit).value
      && st.wallet == s.wallet - DueOnTick(s, t) - ExcessFee(c, p, t.mark, x.exit)
  {
    hide FundingOnTick, Judge, TakerFee, Multiple, DueOnTick;
    FundingKeepsQty(c, s, t);
    FundingOnTickFrame(c, s, t);
    TickIsFundThenJudge(c, s, t, x);
    JudgeRaised(c, FundingOnTick(c, s, t).st.(lastTick := Some(t)), t.ts, t.mark, t.mark, t.mark, t.mark, t.mark, x.exit);
  }

  /** The wallet after a call that entered and then raised: what the entry left, less the fee of the exit that raised. */
  function EnteredWallet(c: Config, entered: Step, ref: real, x: ExitScript): real {
    if entered.raised || entered.st.position.None? then entered.st.wallet
    else entered.st.wallet - ExcessFee(c, entered.st.position.value, ref, x)
  }

  /** The state in which a tick fills a pending entry. */
  function AtEntry(c: Config, s: EngineState, t: MarkTick): EngineState {
    FundingOnTick(c, s, t).st.(lastTick := Some(t))
  }

  lemma FlatTickRaised(c: Config, s: EngineState, t: MarkTick, x: TickScript)
    requires s.position.None? && GridOk(c, t) && OnTick(c, s, t, x).raised
    ensures OnTick(c, s, t, x).st.position.Some? <==> Books(c, s, t.mark, t.ts, x.entry)
    ensures OnTick(c, s, t, x).st.wallet
         == EnteredWallet(c, EntryOnTick(c, AtEntry(c, s, t), t.ts, t.mark, x.entry, x.gateExit), t.mark, x.exit)
  {
    hide Judge, ExecuteEntry, Books, Multiple;
    var s1 := FundingOnTick(c, s, t).st.(lastTick := Some(t));
    BooksFrame(c, s, s1, t.mark, t.ts, x.entry);
    EntryBooksIff(c, s1, t.ts, t.mark, x.entry, x.gateExit);
    var entered := EntryOnTick(c, s1, t.ts, t.mark, x.entry, x.gateExit);
    if !entered.raised {
      JudgeRaised(c, entered.st, t.ts, t.mark, t.mark, t.mark, t.mark, t.mark, x.exit);
    }
  }

  /** Only the pending intent and the wallet matter to that. */
  lemma BooksFrame(c: Config, s: EngineState, s1: EngineState, refMark: real, ts: int, x: EntryScript)
    requires s1.pending == s.pending && s1.wallet == s.wallet
    ensures Books(c, s1, refMark, ts, x) <==> Books(c, s, refMark, ts, x)
  {
    hide Quote, Vwap;
  }

  /** The price at which a bar exits a position. */
  function BarRef(p: Option<Position>, b: MarkBar): real {
    if p.None? then 0.0 else if SlHit(p.value, b.low, b.high) then BarSlRef(p.value, b.open) else TpRef(p.value)
  }

  lemma BarRaised(c: Config, s: EngineState, b: MarkBar, x: TickScript)
    requires OneWay(s) && OnBar(c, s, b, x).raised
    ensures s.position.Some? ==>
      var p, st := s.position.value, OnBar(c, s, b, x).st;
      && ToClose(c, p, x.exit).Some?
      && st.position.Some? && st.position.value.direction == p.direction && st.position.value.qty == ToClose(c, p, x.exit).value
      && st.wallet == s.wallet - ExcessFee(c, p, BarRef(s.position, b), x.exit)
    ensures s.position.None? ==>
      var entered := EntryOnTick(c, s, b.openMs, b.open, x.entry, x.gateExit);
      && (OnBar(c, s, b, x).st.position.Some? <==> Books(c, s, b.open, b.openMs, x.entry))
      && OnBar(c, s, b, x).st.wallet == EnteredWallet(c, entered, BarRef(entered.st.position, b), x.exit)
  {
    hide Judge, ExecuteEntry, Books, Multiple, BarSlRef, ExcessFee;
    var entered := EntryOnTick(c, s, b.openMs, b.open, x.entry, x.gateExit);
    if s.position.None? { EntryBooksIff(c, s, b.openMs, b.open, x.entry, x.gateExit); }
    if !entered.raised && entered.st.position.Some? {
      var p := entered.st.position.value;
      JudgeRaised(c, entered.st, b.closeMs, b.low, b.high, BarSlRef(p, b.open), TpRef(p), b.close, x.exit);
    }
  }

  /** A PAPER call keeps the quantity on its step, and one that raises keeps the position. */
  lemma PaperCall(c: Config, s: EngineState, k: Call)
    requires c.mode.Paper? && OnStep(c, s)
    ensures OnStep(c, DoCall(c, s, k).st)
    ensures DoCall(c, s, k).raised ==> DoCall(c, s, k).st.position == s.position
  {
    hide OnTick, OnBar, Multiple, DoExit;
    match k
    case CallTick(t, x) => PaperTickIgnores(c, s, t, x); PaperTick(c, s, t);
    case CallBar(b, x) => PaperBarIgnores(c, s, b, x); PaperBar(c, s, b);
    case CallClose(mark, ts, reason, x) => if s.position.Some? { PaperExitCloses(c, s, reason, mark, ts, x); }
    case _ =>
  }

  /** Main lemma on raising calls. Direction and quantity stay exactly under the guard. */
  lemma RaisedQtyIff(c: Config, s: EngineState, k: Call)
    requires OneWay(s) && (c.mode.Paper? ==> OnStep(c, s)) && DoCall(c, s, k).raised
    ensures SameQty(s.position, DoCall(c, s, k).st.position) <==> RaiseKeepsQty(c, s, k)
  {
    hide OnTick, OnBar, Multiple, DoExit, Books;
    if c.mode.Paper? {
      PaperCall(c, s, k);
    } else {
      match k
      case CallTick(t, x) =>
        if !GridOk(c, t) { OffGridTick(c, s, t, x); }
        else if s.position.Some? { HeldTickRaised(c, s, t, x); }
        else { FlatTickRaised(c, s, t, x); }
      case CallBar(b, x) => BarRaised(c, s, b, x);
      case CallClose(mark, ts, reason, x) => if s.position.Some? { ExitRaisesIff(c, s, reason, mark, ts, x); }
      case _ =>
    }
  }

  // ---------------------------------------------------------------- runs

  /** The engine and the rows its events become. A call that raises hands over nothing; its caller lives on. */
  datatype Pair = Pair(engine: EngineState, db: Db)

  function AfterCall(c: Config, p: Pair, k: Call): Pair {
    var step := DoCall(c, p.engine, k);
    Pair(step.st, if step.raised then p.db else WriteEvents(p.db, step.events, step.st.lastEntryTp))
  }

  function RunCalls(c: Config, p: Pair, ks: seq<Call>): Pair
    decreases |ks|
  {
    if ks == [] then p else RunCalls(c, AfterCall(c, p, ks[0]), ks[1..])
  }

  function LedgerAfter(l: Option<LedgerPos>, step: Step): Option<LedgerPos> {
    if step.raised then l else Ledger(l, step.events, step.st.lastEntryTp)
  }

  /** What a run must keep to: a call may raise only where that changes no quantity, and no synchronisation follows
      an earlier close of the same position. `vanish` belongs to LIVE. */
  ghost predicate CleanRun(c: Config, l: Option<LedgerPos>, s: EngineState, ks: seq<Call>)
    decreases |ks|
  {
    ks == [] ||
    var step := DoCall(c, s, ks[0]);
    && (ks[0].CallVanish? ==> c.mode.Live?)
    && (if step.raised then RaiseKeepsQty(c, s, ks[0]) else SyncsClean(l, step.events, step.st.lastEntryTp))
    && CleanRun(c, LedgerAfter(l, step), step.st, ks[1..])
  }

  /** Rows and engine stand for the same position; PAPER quantities are on their step. */
  ghost predicate Agreed(c: Config, l: Option<LedgerPos>, root: nat, p: Pair) {
    && Mirrors(p.db.positions, l, root) && Shows(c.mode, l, p.engine.position) && OneWay(p.engine)
    && (c.mode.Paper? ==> OnStep(c, p.engine))
  }

  lemma CallMirrors(c: Config, l: Option<LedgerPos>, root: nat, p: Pair, k: Call) returns (root': nat)
    requires Agreed(c, l, root, p) && (k.CallVanish? ==> c.mode.Live?)
    requires var step := DoCall(c, p.engine, k);
      if step.raised then RaiseKeepsQty(c, p.engine, k) else SyncsClean(l, step.events, step.st.lastEntryTp)
    ensures Agreed(c, LedgerAfter(l, DoCall(c, p.engine, k)), root', AfterCall(c, p, k))
  {
    hide DoCall, RaiseKeepsQty, OnStep, Mirrors;
    var step := DoCall(c, p.engine, k);
    CallKeepsOneWay(c, p.engine, k);
    if c.mode.Paper? { PaperCall(c, p.engine, k); }
    if step.raised {
      RaisedQtyIff(c, p.engine, k);
      root' := root;
    } else {
      CallAccounted(c, l, p.engine, k);
      EventsMirror(p.db, l, root, step.events, step.st.lastEntryTp);
      root' := RootAfter(p.db, root, step.events, step.st.lastEntryTp);
    }
  }

  lemma {:induction false} RunMirrors(c: Config, l: Option<LedgerPos>, root: nat, p: Pair, ks: seq<Call>)
    returns (l': Option<LedgerPos>, root': nat)
    requires Agreed(c, l, root, p) && CleanRun(c, l, p.engine, ks)
    ensures Agreed(c, l', root', RunCalls(c, p, ks))
    decreases |ks|
  {
    hide DoCall, RaiseKeepsQty, Agreed;
    if ks == [] {
      l', root' := l, root;
    } else {
      var r1 := CallMirrors(c, l, root, p, ks[0]);
      l', root' := RunMirrors(c, LedgerAfter(l, DoCall(c, p.engine, ks[0])), r1, AfterCall(c, p, ks[0]), ks[1..]);
    }
  }

  /** Signed quantity the bar reconciliation compares: the database's and the engine's. */
  function DbSigned(db: Db): real {
    match OpenState(db.positions)
    case None => 0.0
    case Some((d, q)) => if d.Long? then q else -q
  }

  function EngineSigned(s: EngineState): real {
    if s.position.None? then 0.0 else s.position.value.Signed()
  }

  lemma {:induction false} CleanPrefix(c: Config, l: Option<LedgerPos>, s: EngineState, ks: seq<Call>, n: nat)
    requires CleanRun(c, l, s, ks) && n <= |ks|
    ensures CleanRun(c, l, s, ks[..n])
    decreases n
  {
    hide DoCall, RaiseKeepsQty;
    if n > 0 {
      var step := DoCall(c, s, ks[0]);
      CleanPrefix(c, LedgerAfter(l, step), step.st, ks[1..], n - 1);
      assert ks[..n][1..] == ks[1..][..n - 1];
    }
  }

  /** Main theorem. Over any such run from a flat start, after every call the database's remaining signed quantity is
      the engine's: the bar reconciliation never sees a difference. */
  lemma RowLedgerAgrees(c: Config, s: EngineState, ks: seq<Call>, n: nat)
    requires s.position.None? && CleanRun(c, None, s, ks) && n <= |ks|
    ensures
      var p := RunCalls(c, Pair(s, EMPTY_DB), ks[..n]);
      && DbSigned(p.db) == EngineSigned(p.engine)
      && (OpenState(p.db.positions).None? <==> p.engine.position.None?)
  {
    hide DoCall, RaiseKeepsQty;
    CleanPrefix(c, None, s, ks, n);
    var l, root := RunMirrors(c, None, 0, Pair(s, EMPTY_DB), ks[..n]);
    MirrorFindsRoot(RunCalls(c, Pair(s, EMPTY_DB), ks[..n]).db.positions, l, root);
  }

  /** The guard on raising calls is exact: after any such run, a further call that raises leaves rows and engine in
      agreement if and only if it holds. */
  lemma RaisedRowsIff(c: Config, s: EngineState, ks: seq<Call>, k: Call)
    requires s.position.None? && CleanRun(c, None, s, ks)
    requires DoCall(c, RunCalls(c, Pair(s, EMPTY_DB), ks).engine, k).raised
    ensures
      var before := RunCalls(c, Pair(s, EMPTY_DB), ks);
      var after := AfterCall(c, before, k);
      DbSigned(after.db) == EngineSigned(after.engine) <==> RaiseKeepsQty(c, before.engine, k)
  {
    hide DoCall, RaiseKeepsQty;
    var before := RunCalls(c, Pair(s, EMPTY_DB), ks);
    var l, root := RunMirrors(c, None, 0, Pair(s, EMPTY_DB), ks);
    MirrorFindsRoot(before.db.positions, l, root);
    RaisedQtyIff(c, before.engine, k);
  }

  /** Such a call. The market step is 1, the engine is long 1 and the exchange reports 0.5: closing raises, the engine
      goes on with 0.5 and nobody is told. */
  lemma RaisedCloseDisagrees(c: Config, s: EngineState, mark: real, ts: int, entryPrice: real)
    requires c.mode.Live? && c.rules.marketStep == 1.0
    requires s.position.Some? && s.position.value.direction.Long? && s.position.value.qty == 1.0
    ensures
      var read := PositionRisk(0.5, entryPrice);
      var k := CallClose(mark, ts, Manual, ExitScript(Some(read), Sent([], None), None));
      var step := DoCall(c, s, k);
      && step.raised
      && EngineSigned(s) == 1.0 && EngineSigned(step.st) == 0.5
      && !RaiseKeepsQty(c, s, k)
  {
    var x := ExitScript(Some(PositionRisk(0.5, entryPrice)), Sent([], None), None);
    ExitRaisesIff(c, s, Manual, mark, ts, x);
    assert 0.5 / 1.0 == 0.5;
  }

  /** The condition on synchronisations is needed. From any agreed position, a partial close of `cut` followed by a synchronisation to
      `back` leaves the engine with `back` but the rows with `back - cut`. */
  lemma SyncAfterReduceDisagrees(db: Db, l: LedgerPos, root: nat, reduce: Event, sync: Event, tp: Option<real>)
    requires Mirrors(db.positions, Some(l), root) && l.closedQty == 0.0
    requires reduce.PositionReduced? && sync.PositionSynced? && reduce.direction == l.direction && sync.direction == l.direction
    requires 0.0 < reduce.qty < l.qty && reduce.qty < sync.qty
    ensures
      var after := WriteEvent(WriteEvent(db, reduce, tp), sync, tp);
      var told := LedgerStep(LedgerStep(Some(l), reduce, tp), sync, tp);
      && told.Some? && told.value.qty == sync.qty
      && OpenState(after.positions) == Some((l.direction, sync.qty - reduce.qty))
  {
    var db1 := WriteEvent(db, reduce, tp);
    var l1 := LedgerStep(Some(l), reduce, tp);
    EventMirrors(db, Some(l), root, reduce, tp);
    MirrorFindsRoot(db1.positions, l1, root);
    OnlyRootOpen(db1.positions, l1.value, root,
                 OpenRow(root, sync.ts, l.direction, sync.qty, sync.entryPrice, None, None, None, sync.extraCommission));
  }

  lemma OnlyRootOpen(rows: seq<PosRow>, l: LedgerPos, root: nat, row: PosRow)
    requires Mirrors(rows, Some(l), root)
    requires row.OpenRow? && row.positionId == root && row.direction == l.direction && row.qty > l.closedQty
    ensures OpenState(rows + [row]) == Some((l.direction, row.qty - l.closedQty))
  {
    var all := rows + [row];
    RowsOkAppend(rows, row);
    AppendRow(rows, row, root);
    OtherRootsKeep(rows, row, root);
    forall i: nat | IsRoot(all, i) && i != root ensures Remaining(all, i) <= 0.0 {
      assert IsRoot(rows, i);
      OtherRootsKeep(rows, row, i);
    }
    assert StillOpen(all, root, None);
  }
}
