/** Laws of whole PAPER runs of the engine while one position is held: paper exits close completely, the cost of
    a liquidation does not depend on the funding path, and the trailing stop has a closed form. */
module PaperRuns {
  import opened Types
  import opened Steps
  import opened Normalize
  import opened EngineTypes
  import opened EngineModel

  // ---------------------------------------------------------------- paper exits close in full

  lemma {:induction false} PaperFillQty(c: Config, side: Side, chunks: seq<real>, refMark: real, reduceOnly: bool)
    requires forall i :: 0 <= i < |chunks| ==> chunks[i] > 0.0
    ensures
      var fills := PaperFills(c, side, chunks, refMark, reduceOnly);
      FillQty(fills) == Sum(chunks) && |fills| == |chunks|
  {
    hide Quote;
    if chunks != [] {
      PaperFillQty(c, side, chunks[1..], refMark, reduceOnly);
      assert PaperFills(c, side, chunks, refMark, reduceOnly)[1..] == PaperFills(c, side, chunks[1..], refMark, reduceOnly);
    }
  }

  lemma {:induction false} PaperFillCosts(c: Config, side: Side, chunks: seq<real>, refMark: real, reduceOnly: bool)
    requires forall i :: 0 <= i < |chunks| ==> chunks[i] > 0.0
    ensures
      var fills := PaperFills(c, side, chunks, refMark, reduceOnly);
      var price := Quote(c, side, refMark);
      FillNotional(fills) == Sum(chunks) * price && FillCommission(fills) == TakerFee(c, Sum(chunks), price)
  {
    var price := Quote(c, side, refMark);
    hide Quote, TakerFee;
    if chunks != [] {
      var rest := PaperFills(c, side, chunks[1..], refMark, reduceOnly);
      PaperFillCosts(c, side, chunks[1..], refMark, reduceOnly);
      assert PaperFills(c, side, chunks, refMark, reduceOnly)[1..] == rest;
      AddOneFill(c, chunks[0], Sum(chunks[1..]), price);
    } else {
      NoFill(c, price);
    }
  }

  lemma NoFill(c: Config, price: real)
    ensures TakerFee(c, 0.0, price) == 0.0 && 0.0 * price == 0.0
  {}

  lemma {:induction false} PaperFillsAtMark(c: Config, side: Side, chunks: seq<real>, refMark: real, reduceOnly: bool)
    requires forall i :: 0 <= i < |chunks| ==> chunks[i] > 0.0
    ensures forall f :: f in PaperFills(c, side, chunks, refMark, reduceOnly) ==> f.refMark == refMark
  {
    hide Quote;
    if chunks != [] {
      PaperFillsAtMark(c, side, chunks[1..], refMark, reduceOnly);
    }
  }

  lemma AddOneFill(c: Config, q: real, rest: real, price: real)
    ensures q * price + rest * price == (q + rest) * price
    ensures TakerFee(c, q, price) + TakerFee(c, rest, price) == TakerFee(c, q + rest, price)
  {
    Distribute(q, rest, price);
    Distribute(q * price, rest * price, c.taker);
  }

  lemma QuotientOfProduct(q: real, p: real)
    requires q != 0.0
    ensures (q * p) / q == p
  {}

  /** The fill price of a paper exit. */
  function ExitQuote(c: Config, d: Direction, refMark: real): real {
    Quote(c, SideFor(d, Exit), refMark)
  }

  lemma ExitChunks(c: Config, qty: real)
    requires qty > 0.0 && Multiple(qty, c.rules.marketStep)
    ensures var out := Split(qty, c.rules, None, true);
      out.Ok? && Sum(out.value) == qty && out.value != [] && forall i :: 0 <= i < |out.value| ==> out.value[i] > 0.0
  {
    SplitExit(qty, c.rules);
    PositiveSteps(qty, c.rules);
  }

  /** The fills of one paper exit: the whole quantity, at one price. */
  lemma PaperExitFills(c: Config, d: Direction, qty: real, refMark: real, x: ExitScript)
    requires c.mode.Paper? && qty > 0.0 && Multiple(qty, c.rules.marketStep)
    ensures
      var sent := ExitSent(c, d, qty, refMark, x);
      var price := ExitQuote(c, d, refMark);
      && sent.failure.None?
      && sent.fills != []
      && FillQty(sent.fills) == qty
      && Vwap(sent.fills) == price
      && FillCommission(sent.fills) == TakerFee(c, qty, price)
      && (forall f :: f in sent.fills ==> f.refMark == refMark)
  {
    hide Multiple, AdverseFill, Split, PaperFills;
    ExitChunks(c, qty);
    var chunks := Split(qty, c.rules, None, true).value;
    var side := SideFor(d, Exit);
    PaperFillQty(c, side, chunks, refMark, true);
    PaperFillCosts(c, side, chunks, refMark, true);
    PaperFillsAtMark(c, side, chunks, refMark, true);
    VwapOf(PaperFills(c, side, chunks, refMark, true), qty, Quote(c, side, refMark));
  }

  lemma VwapOf(fills: seq<Fill>, qty: real, price: real)
    requires fills != [] && qty != 0.0 && FillQty(fills) == qty && FillNotional(fills) == qty * price
    ensures Vwap(fills) == price
  {
    QuotientOfProduct(qty, price);
  }

  /** Booking fills that cover the whole position. */
  lemma FullBook(s: EngineState, reason: ExitReason, ts: int, fills: seq<Fill>)
    requires s.position.Some? && fills != [] && FillQty(fills) == s.position.value.qty
    ensures
      var p := s.position.value;
      var pnl, comm := Pnl(p, Vwap(fills), p.qty), FillCommission(fills);
      var w := s.wallet + (pnl - comm);
      BookExit(s, reason, ts, fills) == Step(s.(wallet := w, position := None),
        [PositionClosed(ts, p.direction, reason, p.qty, p.entryPrice, Some(Vwap(fills)), fills, pnl, comm, p.fundingPaid, w)], false)
  {}

  /** The state and the event of a paper exit at the adverse quote. */
  function PaperClose(c: Config, s: EngineState, reason: ExitReason, refMark: real, ts: int, fills: seq<Fill>): Step
    requires s.position.Some?
  {
    var p := s.position.value;
    var price := ExitQuote(c, p.direction, refMark);
    var comm := TakerFee(c, p.qty, price);
    var w := s.wallet + (Pnl(p, price, p.qty) - comm);
    Step(s.(wallet := w, position := None),
         [PositionClosed(ts, p.direction, reason, p.qty, p.entryPrice, Some(price), fills, Pnl(p, price, p.qty), comm, p.fundingPaid, w)], false)
  }

  /** A paper exit of an on-step position never fails: it closes the whole position at the adverse quote. */
  lemma PaperExitCloses(c: Config, s: EngineState, reason: ExitReason, refMark: real, ts: int, x: ExitScript)
    requires c.mode.Paper? && s.position.Some? && Multiple(s.position.value.qty, c.rules.marketStep)
    ensures
      var fills := ExitSent(c, s.position.value.direction, s.position.value.qty, refMark, x).fills;
      && DoExit(c, s, reason, refMark, ts, x) == PaperClose(c, s, reason, refMark, ts, fills)
      && fills != []
      && (forall f :: f in fills ==> f.refMark == refMark)
  {
    var p := s.position.value;
    PaperExitFills(c, p.direction, p.qty, refMark, x);
    FullBook(s, reason, ts, ExitSent(c, p.direction, p.qty, refMark, x).fills);
  }

  // ---------------------------------------------------------------- a position held over a run

  datatype Feed =
    | Tick(t: MarkTick)
    | Bar(b: MarkBar)
    | Funding(ts: int, rate: real, mark: real)
    | Gap(open: real, ts: int)

  function FeedStep(c: Config, s: EngineState, f: Feed): Step {
    match f
    case Tick(t) => OnTick(c, s, t, NO_SCRIPT)
    case Bar(b) => OnBar(c, s, b, NO_SCRIPT)
    case Funding(ts, rate, mark) => OnFunding(c, s, ts, rate, mark)
    case Gap(open, ts) => LiquidateIfOpenBeyond(c, s, open, ts)
  }

  /** State after feeding `fs`; a raised call stops nothing here, the theorems exclude it. */
  function FeedRun(c: Config, s: EngineState, fs: seq<Feed>): EngineState
    decreases |fs|
  {
    if fs == [] then s else FeedStep(c, FeedRun(c, s, fs[..|fs| - 1]), fs[|fs| - 1]).st
  }

  /** Holding a paper position, nothing pending. */
  predicate Holding(c: Config, s: EngineState) {
    c.mode.Paper? && s.position.Some? && s.pending.None? && Multiple(s.position.value.qty, c.rules.marketStep)
  }

  /** Every prefix of the feed leaves the position open and no call raises. */
  ghost predicate Survives(c: Config, s: EngineState, fs: seq<Feed>)
    decreases |fs|
  {
    && Holding(c, s)
    && (fs != [] ==>
          var before := FeedRun(c, s, fs[..|fs| - 1]);
          && Survives(c, s, fs[..|fs| - 1])
          && !FeedStep(c, before, fs[|fs| - 1]).raised
          && FeedStep(c, before, fs[|fs| - 1]).st.position.Some?)
  }

  /** What the position is worth to the wallet before its entry: costs already paid are added back. */
  function Stake(s: EngineState): real
    requires s.position.Some?
  {
    s.wallet + s.position.value.entryCommission + s.position.value.fundingPaid
  }

  /** What a held paper position never changes. */
  predicate SameTrade(p: Position, q: Position) {
    && q.direction == p.direction && q.qty == p.qty && q.entryPrice == p.entryPrice && q.leverage == p.leverage
    && q.entryCommission == p.entryCommission && q.openedMs == p.openedMs && q.tp == p.tp
  }

  /** The state in which a feed item judges the position: funding that falls due on a tick is settled first. */
  function AtJudgement(c: Config, s: EngineState, f: Feed): EngineState {
    match f
    case Tick(t) => FundingOnTick(c, s, t).st.(lastTick := Some(t))
    case _ => s
  }

  function LiquidationCost(c: Config, p: Position): real {
    p.Notional() / p.leverage as real + (if c.liqFeeOnLiqPrice then p.qty * p.liqPrice else p.Notional()) * c.liquidationFee
  }

  /** The range reaches the liquidation price. */
  predicate LiqHit(p: Position, low: real, high: real) {
    if p.direction.Long? then low <= p.liqPrice else high >= p.liqPrice
  }

  lemma FundingKeepsStake(c: Config, s: EngineState, t: MarkTick)
    requires Holding(c, s)
    ensures var st := FundingOnTick(c, s, t).st;
      && Holding(c, st) && SameTrade(s.position.value, st.position.value) && Stake(st) == Stake(s)
      && st.position.value.sl == s.position.value.sl && st.position.value.trail == s.position.value.trail
  {}

  lemma TrailFrame(s: EngineState, ts: int, low: real, high: real)
    ensures var step := TrailStep(s, ts, low, high);
      && !step.raised && step.st == s.(position := step.st.position) && step.st.position.Some? == s.position.Some?
      && (s.position.None? ==> step == Step(s, [], false))
  {}

  /** One judgement of a held paper position: it survives with only its stop and trail moved, is liquidated at
      the fixed cost, or is closed by an exit. */
  lemma JudgeHeld(c: Config, s: EngineState, ts: int, low: real, high: real, slRef: real, tpRef: real, mark: real)
    requires Holding(c, s)
    ensures
      var step := Judge(c, s, ts, low, high, slRef, tpRef, mark, NO_EXIT);
      var p := s.position.value;
      && !step.raised
      && (step.st.position.Some? ==>
            && step.st.wallet == s.wallet
            && step.st == s.(position := step.st.position)
            && step.st.position == TrailStep(s, ts, low, high).st.position)
      && (step.st.position.None? ==>
            && |step.events| == 1 && step.events[0].PositionClosed?
            && (step.events[0].reason.Liquidation? ==> step.st.wallet == Stake(s) - LiquidationCost(c, p))
            && (step.events[0].reason.Liquidation? <==> if p.direction.Long? then low <= p.liqPrice else high >= p.liqPrice)
            && (step.events[0].reason.TrailStop? ==> p.trail.Some? && p.trail.value.moved)
            && (step.events[0].reason.StopLoss? ==> p.trail.None? || !p.trail.value.moved))
  {
    hide DoExit, ExitSent, Multiple, TrailStep, Vwap, Quote;
    var p := s.position.value;
    var why := if p.trail.Some? && p.trail.value.moved then TrailStop else StopLoss;
    PaperExitCloses(c, s, why, slRef, ts, NO_EXIT);
    PaperExitCloses(c, s, TakeProfit, tpRef, ts, NO_EXIT);
    var e := Evaluate(c, s, ts, low, high, slRef, tpRef, mark, NO_EXIT);
    TrailFrame(e.st, ts, low, high);
    if e.st.position.None? {
      assert e.events + [] == e.events;
    }
  }

  /** With nothing pending a tick is: settle what fell due, then judge. */
  lemma TickIsFundThenJudge(c: Config, s: EngineState, t: MarkTick, x: TickScript)
    requires s.pending.None? && GridOk(c, t)
    ensures
      var funded := FundingOnTick(c, s, t);
      OnTick(c, s, t, x) == Then(funded, Judge(c, funded.st.(lastTick := Some(t)), t.ts, t.mark, t.mark, t.mark, t.mark, t.mark, x.exit))
  {
    hide FundingOnTick, Judge, Then, EntryOnTick;
    FundingKeepsPending(c, s, t);
    var funded := FundingOnTick(c, s, t);
    var s1 := funded.st.(lastTick := Some(t));
    var judged := Judge(c, s1, t.ts, t.mark, t.mark, t.mark, t.mark, t.mark, x.exit);
    EntryIdle(c, s1, t.ts, t.mark, x.entry, x.gateExit);
    ThenNothing(funded, s1, judged);
  }

  lemma NotRaisedIsOnGrid(c: Config, s: EngineState, t: MarkTick)
    ensures !OnTick(c, s, t, NO_SCRIPT).raised ==> GridOk(c, t)
  {}

  lemma FundingKeepsPending(c: Config, s: EngineState, t: MarkTick)
    ensures FundingOnTick(c, s, t).st.pending == s.pending
  {}

  lemma EntryIdle(c: Config, s: EngineState, ts: int, mark: real, x: EntryScript, gx: ExitScript)
    requires s.pending.None?
    ensures EntryOnTick(c, s, ts, mark, x, gx) == Step(s, [], false)
  {}

  lemma ThenNothing(a: Step, st: EngineState, b: Step)
    ensures Then(a, Then(Step(st, [], false), b)) == Then(a, b)
  {
    assert [] + b.events == b.events;
  }

  lemma BarIsJudge(c: Config, s: EngineState, b: MarkBar, x: TickScript)
    requires s.pending.None?
    ensures OnBar(c, s, b, x) == JudgeBar(c, s, b, x.exit) || (OnBar(c, s, b, x).raised && JudgeBar(c, s, b, x.exit).raised)
    ensures !JudgeBar(c, s, b, x.exit).raised ==> OnBar(c, s, b, x) == JudgeBar(c, s, b, x.exit)
  {
    hide JudgeBar, EntryOnTick;
    var judged := JudgeBar(c, s, b, x.exit);
    EntryIdle(c, s, b.openMs, b.open, x.entry, x.gateExit);
    assert [] + judged.events == judged.events;
  }

  /** What one feed item may do to a held position. */
  ghost predicate HeldOutcome(c: Config, s: EngineState, f: Feed, step: Step)
    requires Holding(c, s)
  {
    var st := step.st;
    && (st.position.Some? ==> Holding(c, st) && SameTrade(s.position.value, st.position.value) && Stake(st) == Stake(s))
    && (st.position.None? && ClosedByLiquidation(step.events) ==>
          && AtJudgement(c, s, f).position.Some?
          && SameTrade(s.position.value, AtJudgement(c, s, f).position.value)
          && st.wallet == Stake(s) - LiquidationCost(c, AtJudgement(c, s, f).position.value))
  }

  lemma TickHeld(c: Config, s: EngineState, t: MarkTick)
    requires Holding(c, s) && GridOk(c, t)
    ensures HeldOutcome(c, s, Tick(t), FeedStep(c, s, Tick(t)))
  {
    hide FundingOnTick, Judge, OnTick;
    FundingKeepsStake(c, s, t);
    NoCloseInFunding(c, s, t);
    TickIsFundThenJudge(c, s, t, NO_SCRIPT);
    var funded := FundingOnTick(c, s, t);
    var s1 := funded.st.(lastTick := Some(t));
    var judged := Judge(c, s1, t.ts, t.mark, t.mark, t.mark, t.mark, t.mark, NO_EXIT);
    JudgeHeld(c, s1, t.ts, t.mark, t.mark, t.mark, t.mark, t.mark);
    LiquidationIsLast(funded.events, judged.events);
  }

  lemma LiquidationIsLast(a: seq<Event>, b: seq<Event>)
    requires forall e :: e in a ==> !e.PositionClosed?
    ensures ClosedByLiquidation(a + b) ==> ClosedByLiquidation(b)
  {
    var all := a + b;
    forall k | 0 <= k < |a| ensures !all[k].PositionClosed? {
      assert all[k] == a[k] && a[k] in a;
    }
    if ClosedByLiquidation(all) {
      var i :| 0 <= i < |all| && all[i].PositionClosed? && all[i].reason.Liquidation?;
      assert all[i] == b[i - |a|];
    }
  }

  lemma BarHeld(c: Config, s: EngineState, b: MarkBar)
    requires Holding(c, s)
    ensures HeldOutcome(c, s, Bar(b), FeedStep(c, s, Bar(b)))
  {
    hide Judge, OnBar, BarSlRef;
    var p := s.position.value;
    JudgeHeld(c, s, b.closeMs, b.low, b.high, BarSlRef(p, b.open), if p.tp.Some? then p.tp.value else 0.0, b.close);
    BarIsJudge(c, s, b, NO_SCRIPT);
  }

  /** Any one feed item, on a held position. */
  lemma FeedHeld(c: Config, s: EngineState, f: Feed)
    requires Holding(c, s) && !FeedStep(c, s, f).raised
    ensures HeldOutcome(c, s, f, FeedStep(c, s, f))
  {
    match f
    case Tick(t) => TickHeld(c, s, t);
    case Bar(b) => BarHeld(c, s, b);
    case Funding(ts, rate, mark) =>
    case Gap(open, ts) =>
  }

  predicate ClosedByLiquidation(evs: seq<Event>) {
    exists i :: 0 <= i < |evs| && evs[i].PositionClosed? && evs[i].reason.Liquidation?
  }

  lemma NoCloseInFunding(c: Config, s: EngineState, t: MarkTick)
    ensures forall e :: e in FundingOnTick(c, s, t).events ==> !e.PositionClosed?
  {}

  lemma {:induction false} SurvivingRun(c: Config, s: EngineState, fs: seq<Feed>)
    requires Survives(c, s, fs)
    ensures
      var st := FeedRun(c, s, fs);
      Holding(c, st) && SameTrade(s.position.value, st.position.value) && Stake(st) == Stake(s)
    decreases |fs|
  {
    if fs != [] {
      var before := FeedRun(c, s, fs[..|fs| - 1]);
      SurvivingRun(c, s, fs[..|fs| - 1]);
      FeedHeld(c, before, fs[|fs| - 1]);
    }
  }

  /** A liquidated position costs its margin plus the liquidation fee, whatever funding was paid or received on
      the way: the wallet that remains is the wallet before the entry less that fixed cost. */
  lemma LiquidationCostIsPathIndependent(c: Config, s: EngineState, fs: seq<Feed>, last: Feed)
    requires Survives(c, s, fs)
    requires !FeedStep(c, FeedRun(c, s, fs), last).raised
    requires FeedStep(c, FeedRun(c, s, fs), last).st.position.None?
    requires ClosedByLiquidation(FeedStep(c, FeedRun(c, s, fs), last).events)
    ensures
      var before := FeedRun(c, s, fs);
      var p := AtJudgement(c, before, last).position;
      && p.Some? && SameTrade(s.position.value, p.value)
      && FeedStep(c, before, last).st.wallet == Stake(s) - LiquidationCost(c, p.value)
      && (!c.liqFeeOnLiqPrice ==> LiquidationCost(c, p.value) == LiquidationCost(c, s.position.value))
  {
    SurvivingRun(c, s, fs);
    var before := FeedRun(c, s, fs);
    FeedHeld(c, before, last);
    CostOfSameTrade(c, s.position.value, AtJudgement(c, before, last).position.value);
  }

  /** A paper entry fills a step multiple. */
  lemma PaperEntryQty(c: Config, s: EngineState, i: EntryIntent, d: SizingDecision, refMark: real, ts: int)
    requires c.mode.Paper? && Quoted(c, i, refMark)
    ensures
      var f := Fills(c, s, i, d, refMark, ts, NO_ENTRY).0;
      && Multiple(f.qty, c.rules.marketStep)
      && f.st == s.(blocked := f.st.blocked)
      && !f.adopted
  {
    var n := GoodPrefix(d.chunks, c.rules);
    PaperFillQty(c, SideFor(i.direction, Entry), d.chunks[..n], refMark, false);
    MultipleSum(d.chunks[..n], c.rules.marketStep);
  }

  /** Entering: the stake of a fresh position is the wallet before the entry, or the fixed capital, and the
      position starts with no funding paid. */
  lemma StakeAtEntry(c: Config, s: EngineState, refMark: real, ts: int)
    requires c.mode.Paper? && s.pending.Some? && s.position.None?
    requires ExecuteEntry(c, s, refMark, ts, NO_ENTRY, NO_EXIT).st.position.Some?
    ensures
      var st := ExecuteEntry(c, s, refMark, ts, NO_ENTRY, NO_EXIT).st;
      && Holding(c, st)
      && Stake(st) == (if c.sizingCapital.Some? then c.sizingCapital.value else s.wallet)
      && st.position.value.fundingPaid == 0.0 && st.position.value.openedMs == ts
  {
    var i := s.pending.value;
    var quote := Quote(c, SideFor(i.direction, Entry), refMark);
    var d := c.size(quote, EntrySl(i, quote), i.direction, if c.sizingCapital.Some? then c.sizingCapital.value else s.wallet, i.regime);
    assert d.Some? && d.value.leverage.Some?;
    OpenStake(c, s.(pending := None), i, d.value, d.value.leverage.value, refMark, ts);
  }

  lemma OpenStake(c: Config, s: EngineState, i: EntryIntent, d: SizingDecision, lev: Leverage, refMark: real, ts: int)
    requires c.mode.Paper? && s.pending.None? && s.position.None? && Quoted(c, i, refMark)
    requires OpenPosition(c, s, i, d, lev, refMark, ts, NO_ENTRY, NO_EXIT).st.position.Some?
    ensures
      var st := OpenPosition(c, s, i, d, lev, refMark, ts, NO_ENTRY, NO_EXIT).st;
      && Holding(c, st)
      && Stake(st) == (if c.sizingCapital.Some? then c.sizingCapital.value else s.wallet)
      && st.position.value.fundingPaid == 0.0 && st.position.value.openedMs == ts
  {
    var (f, fills) := Fills(c, s, i, d, refMark, ts, NO_ENTRY);
    PaperEntryQty(c, s, i, d, refMark, ts);
    assert f.qty > 0.0;
    var post := CheckFill(c, i, d, lev, f.entry, f.qty);
    BookedStake(c, NewPosition(i, d, lev, f, post.liqPrice, ts), post.gateOk, f, fills, refMark, ts);
  }

  lemma BookedStake(c: Config, p: Position, gateOk: bool, f: Filled, fills: seq<Fill>, refMark: real, ts: int)
    requires c.mode.Paper? && p.fundingPaid == 0.0 && p.entryCommission == f.commission && f.st.pending.None?
    requires BookEntry(c, p, gateOk, f, fills, refMark, ts, NO_ENTRY, NO_EXIT).st.position.Some?
    requires !gateOk ==> Multiple(p.qty, c.rules.marketStep)
    ensures
      var st := BookEntry(c, p, gateOk, f, fills, refMark, ts, NO_ENTRY, NO_EXIT).st;
      && Stake(st) == (if c.sizingCapital.Some? then c.sizingCapital.value else f.st.wallet)
      && st.position == Some(p) && st.pending.None?
  {
    var base := if c.sizingCapital.Some? then c.sizingCapital.value else f.st.wallet;
    var s1 := f.st.(wallet := base - f.commission, position := Some(p), lastEntryTp := p.tp);
    if !gateOk {
      PaperExitCloses(c, s1, PostFillGate, refMark, ts, NO_EXIT);
    }
  }

  lemma CostOfSameTrade(c: Config, p: Position, q: Position)
    requires SameTrade(p, q)
    ensures !c.liqFeeOnLiqPrice ==> LiquidationCost(c, q) == LiquidationCost(c, p)
  {}

  /** A paper entry that raises has booked nothing: it was refused a size. */
  lemma RaisedEntryIsFlat(c: Config, s: EngineState, refMark: real, ts: int)
    requires c.mode.Paper? && s.pending.Some? && s.position.None?
    ensures
      var step := ExecuteEntry(c, s, refMark, ts, NO_ENTRY, NO_EXIT);
      step.raised ==> step.st.position.None? && step.st.wallet == s.wallet && step.events == []
  {
    hide Quote;
    var i := s.pending.value;
    var quote := Quote(c, SideFor(i.direction, Entry), refMark);
    var sl := EntrySl(i, quote);
    var d := c.size(quote, sl, i.direction, if c.sizingCapital.Some? then c.sizingCapital.value else s.wallet, i.regime);
    if !SlCrossed(i.direction, refMark, sl) && d.Some? && d.value.ok && d.value.leverage.Some? {
      OpenNeverRaises(c, s.(pending := None), i, d.value, d.value.leverage.value, refMark, ts);
    }
  }

  lemma OpenNeverRaises(c: Config, s: EngineState, i: EntryIntent, d: SizingDecision, lev: Leverage, refMark: real, ts: int)
    requires c.mode.Paper? && s.position.None? && Quoted(c, i, refMark)
    ensures !OpenPosition(c, s, i, d, lev, refMark, ts, NO_ENTRY, NO_EXIT).raised
  {
    hide Quote, TakerFee, Vwap, BookEntry, CheckFill;
    var (f, fills) := Fills(c, s, i, d, refMark, ts, NO_ENTRY);
    PaperEntryQty(c, s, i, d, refMark, ts);
    if f.qty > 0.0 {
      var post := CheckFill(c, i, d, lev, f.entry, f.qty);
      BookNeverRaises(c, NewPosition(i, d, lev, f, post.liqPrice, ts), post.gateOk, f, fills, refMark, ts);
    }
  }

  lemma BookNeverRaises(c: Config, p: Position, gateOk: bool, f: Filled, fills: seq<Fill>, refMark: real, ts: int)
    requires c.mode.Paper? && Multiple(p.qty, c.rules.marketStep)
    ensures !BookEntry(c, p, gateOk, f, fills, refMark, ts, NO_ENTRY, NO_EXIT).raised
  {
    var base := if c.sizingCapital.Some? then c.sizingCapital.value else f.st.wallet;
    PaperExitCloses(c, f.st.(wallet := base - f.commission, position := Some(p), lastEntryTp := p.tp), PostFillGate, refMark, ts, NO_EXIT);
  }

  lemma TrailKeepsTrade(s: EngineState, ts: int, low: real, high: real)
    requires s.position.Some?
    ensures TrailStep(s, ts, low, high).st.position.Some?
    ensures SameTrade(s.position.value, TrailStep(s, ts, low, high).st.position.value)
  {}

  // ---------------------------------------------------------------- PAPER asks nobody

  lemma PaperExitIgnores(c: Config, s: EngineState, reason: ExitReason, refMark: real, ts: int, x: ExitScript)
    requires c.mode.Paper? && s.position.Some?
    ensures DoExit(c, s, reason, refMark, ts, x) == DoExit(c, s, reason, refMark, ts, NO_EXIT)
  {}

  lemma PaperJudgeIgnores(c: Config, s: EngineState, ts: int, low: real, high: real, slRef: real, tpRef: real, mark: real, x: ExitScript)
    requires c.mode.Paper?
    ensures Judge(c, s, ts, low, high, slRef, tpRef, mark, x) == Judge(c, s, ts, low, high, slRef, tpRef, mark, NO_EXIT)
  {
    hide DoExit, Liquidate, TrailStep;
    if s.position.Some? {
      var p := s.position.value;
      PaperExitIgnores(c, s, if p.trail.Some? && p.trail.value.moved then TrailStop else StopLoss, slRef, ts, x);
      PaperExitIgnores(c, s, TakeProfit, tpRef, ts, x);
    }
  }

  lemma PaperOpenIgnores(c: Config, s: EngineState, i: EntryIntent, d: SizingDecision, lev: Leverage, refMark: real, ts: int,
                         x: EntryScript, gx: ExitScript)
    requires c.mode.Paper? && Quoted(c, i, refMark)
    ensures OpenPosition(c, s, i, d, lev, refMark, ts, x, gx) == OpenPosition(c, s, i, d, lev, refMark, ts, NO_ENTRY, NO_EXIT)
  {
    hide SendExit, CheckFill, PaperFills, Vwap;
    var (f, fills) := Fills(c, s, i, d, refMark, ts, NO_ENTRY);
    assert Fills(c, s, i, d, refMark, ts, x) == (f, fills);
    if f.qty > 0.0 {
      var post := CheckFill(c, i, d, lev, f.entry, f.qty);
      PaperBookIgnores(c, NewPosition(i, d, lev, f, post.liqPrice, ts), post.gateOk, f, fills, refMark, ts, x, gx);
    }
  }

  lemma PaperBookIgnores(c: Config, p: Position, gateOk: bool, f: Filled, fills: seq<Fill>, refMark: real, ts: int,
                         x: EntryScript, gx: ExitScript)
    requires c.mode.Paper?
    ensures BookEntry(c, p, gateOk, f, fills, refMark, ts, x, gx) == BookEntry(c, p, gateOk, f, fills, refMark, ts, NO_ENTRY, NO_EXIT)
  {
    hide DoExit;
    var base := if c.sizingCapital.Some? then c.sizingCapital.value else f.st.wallet;
    PaperExitIgnores(c, f.st.(wallet := base - f.commission, position := Some(p), lastEntryTp := p.tp), PostFillGate, refMark, ts, gx);
  }

  lemma PaperEntryIgnores(c: Config, s: EngineState, ts: int, mark: real, x: EntryScript, gx: ExitScript)
    requires c.mode.Paper?
    ensures EntryOnTick(c, s, ts, mark, x, gx) == EntryOnTick(c, s, ts, mark, NO_ENTRY, NO_EXIT)
  {
    hide OpenPosition, Quote;
    if s.pending.Some? {
      var i := s.pending.value;
      var quote := Quote(c, SideFor(i.direction, Entry), mark);
      var d := c.size(quote, EntrySl(i, quote), i.direction, if c.sizingCapital.Some? then c.sizingCapital.value else s.wallet, i.regime);
      if d.Some? && d.value.leverage.Some? {
        PaperOpenIgnores(c, s.(pending := None), i, d.value, d.value.leverage.value, mark, ts, x, gx);
      }
    }
  }

  /** In PAPER mode the exchange's answers do not matter. */
  lemma PaperTickIgnores(c: Config, s: EngineState, t: MarkTick, x: TickScript)
    requires c.mode.Paper?
    ensures OnTick(c, s, t, x) == OnTick(c, s, t, NO_SCRIPT)
  {
    hide EntryOnTick, Judge, FundingOnTick;
    var s1 := FundingOnTick(c, s, t).st.(lastTick := Some(t));
    PaperEntryIgnores(c, s1, t.ts, t.mark, x.entry, x.gateExit);
    var entered := EntryOnTick(c, s1, t.ts, t.mark, x.entry, x.gateExit);
    PaperJudgeIgnores(c, entered.st, t.ts, t.mark, t.mark, t.mark, t.mark, t.mark, x.exit);
  }

  lemma PaperBarIgnores(c: Config, s: EngineState, b: MarkBar, x: TickScript)
    requires c.mode.Paper?
    ensures OnBar(c, s, b, x) == OnBar(c, s, b, NO_SCRIPT)
  {
    hide EntryOnTick, Judge;
    PaperEntryIgnores(c, s, b.openMs, b.open, x.entry, x.gateExit);
    var entered := EntryOnTick(c, s, b.openMs, b.open, x.entry, x.gateExit);
    if entered.st.position.Some? {
      var p := entered.st.position.value;
      PaperJudgeIgnores(c, entered.st, b.closeMs, b.low, b.high, BarSlRef(p, b.open), if p.tp.Some? then p.tp.value else 0.0, b.close, x.exit);
    }
  }

  // ---------------------------------------------------------------- a PAPER call that raises

  /** A held quantity is a step multiple, and nothing is pending beside a position. */
  predicate OnStep(c: Config, s: EngineState) {
    && (s.pending.None? || s.position.None?)
    && (s.position.Some? ==> Multiple(s.position.value.qty, c.rules.marketStep))
  }

  /** A raising call leaves position and wallet alone. */
  predicate RaisedQuietly(s: EngineState, step: Step) {
    step.raised ==> step.st.position == s.position && step.st.wallet == s.wallet
  }

  /** Judging what an entry left behind. */
  lemma JudgeAfterEntry(c: Config, s: EngineState, open: real, openMs: int, ts: int, low: real, high: real, slRef: real, tpRef: real, mark: real)
    requires c.mode.Paper? && s.pending.Some? && s.position.None?
    requires !ExecuteEntry(c, s, open, openMs, NO_ENTRY, NO_EXIT).raised
    ensures
      var judged := Judge(c, ExecuteEntry(c, s, open, openMs, NO_ENTRY, NO_EXIT).st, ts, low, high, slRef, tpRef, mark, NO_EXIT);
      !judged.raised && OnStep(c, judged.st)
  {
    hide ExecuteEntry, Multiple, Judge, TrailStep;
    var st := ExecuteEntry(c, s, open, openMs, NO_ENTRY, NO_EXIT).st;
    if st.position.Some? {
      StakeAtEntry(c, s, open, openMs);
      JudgeHeld(c, st, ts, low, high, slRef, tpRef, mark);
      TrailKeepsTrade(st, ts, low, high);
    } else {
      JudgeFlat(c, st, ts, low, high, slRef, tpRef, mark);
    }
  }

  lemma JudgeFlat(c: Config, s: EngineState, ts: int, low: real, high: real, slRef: real, tpRef: real, mark: real)
    requires s.position.None?
    ensures Judge(c, s, ts, low, high, slRef, tpRef, mark, NO_EXIT) == Step(s, [], false)
  {}

  lemma PaperTick(c: Config, s: EngineState, t: MarkTick)
    requires c.mode.Paper? && OnStep(c, s)
    ensures OnStep(c, OnTick(c, s, t, NO_SCRIPT).st)
    ensures RaisedQuietly(s, OnTick(c, s, t, NO_SCRIPT))
  {
    hide ExecuteEntry, Multiple, Judge, Quote;
    if GridOk(c, t) {
      if s.position.Some? {
        HeldTick(c, s, t);
      } else {
        var s1 := FundingOnTick(c, s, t).st.(lastTick := Some(t));
        if s1.pending.Some? && t.ts > s1.pending.value.decidedMs {
          RaisedEntryIsFlat(c, s1, t.mark, t.ts);
          if !ExecuteEntry(c, s1, t.mark, t.ts, NO_ENTRY, NO_EXIT).raised {
            JudgeAfterEntry(c, s1, t.mark, t.ts, t.ts, t.mark, t.mark, t.mark, t.mark, t.mark);
          }
        } else {
          JudgeFlat(c, s1, t.ts, t.mark, t.mark, t.mark, t.mark, t.mark);
        }
      }
    }
  }

  lemma HeldTick(c: Config, s: EngineState, t: MarkTick)
    requires Holding(c, s) && GridOk(c, t)
    ensures !OnTick(c, s, t, NO_SCRIPT).raised && OnStep(c, OnTick(c, s, t, NO_SCRIPT).st)
  {
    hide FundingOnTick, Judge, OnTick, Multiple;
    TickHeld(c, s, t);
    FundingKeepsStake(c, s, t);
    TickIsFundThenJudge(c, s, t, NO_SCRIPT);
    var s1 := FundingOnTick(c, s, t).st.(lastTick := Some(t));
    JudgeHeld(c, s1, t.ts, t.mark, t.mark, t.mark, t.mark, t.mark);
  }

  lemma PaperBar(c: Config, s: EngineState, b: MarkBar)
    requires c.mode.Paper? && OnStep(c, s)
    ensures OnStep(c, OnBar(c, s, b, NO_SCRIPT).st)
    ensures RaisedQuietly(s, OnBar(c, s, b, NO_SCRIPT))
  {
    hide ExecuteEntry, Multiple, Judge, Quote, BarSlRef;
    if s.position.Some? {
      var p := s.position.value;
      BarHeld(c, s, b);
      BarIsJudge(c, s, b, NO_SCRIPT);
      JudgeHeld(c, s, b.closeMs, b.low, b.high, BarSlRef(p, b.open), if p.tp.Some? then p.tp.value else 0.0, b.close);
    } else if s.pending.Some? && b.openMs > s.pending.value.decidedMs {
      RaisedEntryIsFlat(c, s, b.open, b.openMs);
      var entered := ExecuteEntry(c, s, b.open, b.openMs, NO_ENTRY, NO_EXIT);
      if !entered.raised && entered.st.position.Some? {
        var p := entered.st.position.value;
        JudgeAfterEntry(c, s, b.open, b.openMs, b.closeMs, b.low, b.high, BarSlRef(p, b.open), if p.tp.Some? then p.tp.value else 0.0, b.close);
      }
    }
  }

  // ---------------------------------------------------------------- a position off the step

  lemma SendRaisesIff(c: Config, s: EngineState, reason: ExitReason, refMark: real, ts: int, x: ExitScript)
    requires s.position.Some?
    ensures
      var step := SendExit(c, s, reason, refMark, ts, x);
      && (step.raised <==> !Multiple(s.position.value.qty, c.rules.marketStep))
      && (step.raised ==> step.st == s)
  {
    hide Multiple, ExitSent, Vwap, Pnl, TakerFee;
  }

  lemma TrailNeverRaises(s: EngineState, ts: int, low: real, high: real)
    ensures !TrailStep(s, ts, low, high).raised
  {}

  predicate SlHit(p: Position, low: real, high: real) {
    if p.direction.Long? then low <= p.sl else high >= p.sl
  }

  predicate TpHit(p: Position, mark: real) {
    p.tp.Some? && if p.direction.Long? then mark >= p.tp.value else mark <= p.tp.value
  }

  predicate SameQty(a: Option<Position>, b: Option<Position>) {
    && (a.None? <==> b.None?)
    && (a.Some? ==> a.value.direction == b.value.direction && a.value.qty == b.value.qty)
  }

  /** Funding a tick settles before anything else. */
  function DueOnTick(s: EngineState, t: MarkTick): real {
    if s.position.None? || s.lastTick.None? || !(s.lastTick.value.ts < s.lastTick.value.nextFunding <= t.ts) then 0.0
    else FundingDue(s.position.value, s.lastTick.value.rate, s.lastTick.value.mark)
  }

  lemma FundingKeepsQty(c: Config, s: EngineState, t: MarkTick)
    ensures var st := FundingOnTick(c, s, t).st; SameQty(s.position, st.position) && st.wallet == s.wallet - DueOnTick(s, t)
  {}

  lemma FundingPaidOnTick(c: Config, s: EngineState, t: MarkTick)
    requires s.position.Some?
    ensures
      var p, q := s.position.value, FundingOnTick(c, s, t).st.position;
      q.Some? && q.value == p.(fundingPaid := p.fundingPaid + DueOnTick(s, t), liqPrice := q.value.liqPrice)
  {}

  lemma OffGridTick(c: Config, s: EngineState, t: MarkTick, x: TickScript)
    requires !GridOk(c, t)
    ensures OnTick(c, s, t, x) == Step(s, [], true)
  {}

  lemma PaperExitRaises(c: Config, s: EngineState, reason: ExitReason, refMark: real, ts: int)
    requires c.mode.Paper? && s.position.Some?
    ensures var step := DoExit(c, s, reason, refMark, ts, NO_EXIT);
      && (step.raised <==> !Multiple(s.position.value.qty, c.rules.marketStep))
      && (step.raised ==> step.st == s && step.events == [])
  {
    SendRaisesIff(c, s, reason, refMark, ts, NO_EXIT);
  }

  /** A held PAPER position whose quantity is off the step, as after a restart under other rules. Its tick raises exactly if
      it would have to exit, and what it leaves unsaid is the funding it settled before: nothing if none was due. */
  lemma OffStepTick(c: Config, s: EngineState, t: MarkTick)
    requires c.mode.Paper? && s.position.Some? && s.pending.None? && GridOk(c, t)
    ensures FundingOnTick(c, s, t).st.position.Some?
    ensures
      var funded := FundingOnTick(c, s, t).st.(lastTick := Some(t));
      var p, step := funded.position.value, OnTick(c, s, t, NO_SCRIPT);
      && (step.raised <==>
            !Multiple(p.qty, c.rules.marketStep) && !LiqHit(p, t.mark, t.mark) && (SlHit(p, t.mark, t.mark) || TpHit(p, t.mark)))
      && funded.wallet == s.wallet - DueOnTick(s, t)
      && p == s.position.value.(fundingPaid := s.position.value.fundingPaid + DueOnTick(s, t), liqPrice := p.liqPrice)
      && (step.raised ==> step.st == funded && step.events == FundingOnTick(c, s, t).events)
      && (!step.raised && !Multiple(p.qty, c.rules.marketStep) ==>
            step.st == if LiqHit(p, t.mark, t.mark) then Liquidate(c, funded, t.ts).st else TrailStep(funded, t.ts, t.mark, t.mark).st)
  {
    hide Multiple, FundingOnTick, DoExit, TrailStep, LiquidationLoss, DueOnTick;
    FundingKeepsQty(c, s, t);
    FundingPaidOnTick(c, s, t);
    TickIsFundThenJudge(c, s, t, NO_SCRIPT);
    var funded := FundingOnTick(c, s, t).st.(lastTick := Some(t));
    var p := funded.position.value;
    var why := if p.trail.Some? && p.trail.value.moved then TrailStop else StopLoss;
    PaperExitRaises(c, funded, why, t.mark, t.ts);
    PaperExitRaises(c, funded, TakeProfit, t.mark, t.ts);
    var e := Evaluate(c, funded, t.ts, t.mark, t.mark, t.mark, t.mark, t.mark, NO_EXIT);
    TrailFrame(e.st, t.ts, t.mark, t.mark);
  }

  // ---------------------------------------------------------------- the trailing stop

  datatype Extremes = Extremes(low: real, high: real)

  /** The judged price ranges of a feed, in order. */
  function Judged(fs: seq<Feed>): seq<Extremes>
    decreases |fs|
  {
    if fs == [] then []
    else
      var f := fs[|fs| - 1];
      Judged(fs[..|fs| - 1])
      + (match f case Tick(t) => [Extremes(t.mark, t.mark)] case Bar(b) => [Extremes(b.low, b.high)] case _ => [])
  }

  function Best(d: Direction, e: Extremes): real {
    if d.Long? then e.high else e.low
  }

  /** Stop price suggested by one favourable extreme. */
  function Candidate(d: Direction, e: Extremes, dist: real): real {
    if d.Long? then e.high - dist else e.low + dist
  }

  /** `a` is at least as tight a stop as `b`. */
  predicate Tighter(d: Direction, a: real, b: real) {
    if d.Long? then a >= b else a <= b
  }

  predicate Arms(p: Position, e: Extremes)
    requires p.trail.Some?
  {
    Sign(p.direction) * (Best(p.direction, e) - p.entryPrice) >= p.trail.value.armR * p.trail.value.r
  }

  /** Step `i` comes at or after the first arming step. */
  ghost predicate ArmedBy(p: Position, es: seq<Extremes>, i: int)
    requires p.trail.Some?
  {
    exists a :: 0 <= a <= i && a < |es| && Arms(p, es[a])
  }

  /** The stop after `es`, defined without running the engine: the tightest of the initial stop and the
      candidates of the steps since arming. */
  ghost predicate IsTrailedStop(p: Position, es: seq<Extremes>, sl: real)
    requires p.trail.Some?
  {
    var d, dist := p.direction, p.trail.value.dist;
    && Tighter(d, sl, p.sl)
    && (forall i :: 0 <= i < |es| && ArmedBy(p, es, i) ==> Tighter(d, sl, Candidate(d, es[i], dist)))
    && (sl == p.sl || exists i :: 0 <= i < |es| && ArmedBy(p, es, i) && sl == Candidate(d, es[i], dist))
  }

  lemma ArmedByPrefix(p: Position, es: seq<Extremes>, e: Extremes, i: int)
    requires p.trail.Some? && i < |es|
    ensures ArmedBy(p, es + [e], i) <==> ArmedBy(p, es, i)
  {
    if ArmedBy(p, es + [e], i) {
      var a :| 0 <= a <= i && Arms(p, (es + [e])[a]);
      assert (es + [e])[a] == es[a];
    }
    if ArmedBy(p, es, i) {
      var a :| 0 <= a <= i && a < |es| && Arms(p, es[a]);
      assert (es + [e])[a] == es[a];
    }
  }

  /** The trail of a held position against its settings at entry. */
  ghost predicate TrailInv(p: Position, es: seq<Extremes>, q: Position) {
    && p.trail.Some? && q.trail.Some?
    && q.direction == p.direction && q.entryPrice == p.entryPrice
    && q.trail.value == p.trail.value.(armed := q.trail.value.armed, moved := q.trail.value.moved)
    && (q.trail.value.armed <==> exists a :: 0 <= a < |es| && Arms(p, es[a]))
    && IsTrailedStop(p, es, q.sl)
    && (q.trail.value.moved <==> q.sl != p.sl)
  }

  lemma TrailStepKeepsInv(p: Position, es: seq<Extremes>, s: EngineState, ts: int, e: Extremes)
    requires s.position.Some? && TrailInv(p, es, s.position.value)
    ensures TrailStep(s, ts, e.low, e.high).st.position.Some?
    ensures TrailInv(p, es + [e], TrailStep(s, ts, e.low, e.high).st.position.value)
  {
    var q := s.position.value;
    var q' := TrailStep(s, ts, e.low, e.high).st.position.value;
    var es' := es + [e];
    var n := |es|;
    assert es'[n] == e;
    forall i | 0 <= i < n ensures ArmedBy(p, es', i) <==> ArmedBy(p, es, i) {
      ArmedByPrefix(p, es, e, i);
    }
    assert q'.trail.value.armed <==> (q.trail.value.armed || Arms(p, e));
    assert q'.trail.value.armed <==> exists a :: 0 <= a < |es'| && Arms(p, es'[a]) by {
      if q.trail.value.armed {
        var a :| 0 <= a < n && Arms(p, es[a]);
        assert Arms(p, es'[a]);
      }
    }
    assert q'.trail.value.armed <==> ArmedBy(p, es', n);
    TrailStepBound(p, es, q, q', e);
  }

  lemma TrailStepBound(p: Position, es: seq<Extremes>, q: Position, q': Position, e: Extremes)
    requires p.trail.Some? && IsTrailedStop(p, es, q.sl)
    requires forall i :: 0 <= i < |es| ==> (ArmedBy(p, es + [e], i) <==> ArmedBy(p, es, i))
    requires
      var cand := Candidate(p.direction, e, p.trail.value.dist);
      q'.sl == if ArmedBy(p, es + [e], |es|) && !Tighter(p.direction, q.sl, cand) then cand else q.sl
    ensures IsTrailedStop(p, es + [e], q'.sl)
  {
    var es' := es + [e];
    var d, dist, n := p.direction, p.trail.value.dist, |es|;
    forall i | 0 <= i < |es'| && ArmedBy(p, es', i)
      ensures Tighter(d, q'.sl, Candidate(d, es'[i], dist))
    {
      if i < n { assert es'[i] == es[i]; }
    }
    if q'.sl == q.sl && q.sl != p.sl {
      var i :| 0 <= i < n && ArmedBy(p, es, i) && q.sl == Candidate(d, es[i], dist);
      assert es'[i] == es[i] && ArmedBy(p, es', i);
    } else if q'.sl != q.sl {
      assert es'[n] == e && ArmedBy(p, es', n);
    }
  }

  /** The trailing stop over any surviving paper run. After the run the stop is exactly the tightest of the initial
      stop and the candidates since arming, and it has moved exactly if it differs from the initial one. */
  lemma {:induction false} TrailedStopClosedForm(c: Config, s: EngineState, fs: seq<Feed>)
    requires Survives(c, s, fs)
    requires s.position.value.trail.Some? && !s.position.value.trail.value.armed && !s.position.value.trail.value.moved
    ensures FeedRun(c, s, fs).position.Some?
    ensures TrailInv(s.position.value, Judged(fs), FeedRun(c, s, fs).position.value)
    decreases |fs|
  {
    hide FundingOnTick, Judge, OnTick, OnBar, Multiple;
    var p := s.position.value;
    if fs != [] {
      var n := |fs| - 1;
      var before := FeedRun(c, s, fs[..n]);
      TrailedStopClosedForm(c, s, fs[..n]);
      SurvivingRun(c, s, fs[..n]);
      match fs[n]
      case Tick(t) =>
        FundingKeepsStake(c, before, t);
        var s1 := FundingOnTick(c, before, t).st.(lastTick := Some(t));
        NotRaisedIsOnGrid(c, before, t);
        TickIsFundThenJudge(c, before, t, NO_SCRIPT);
        JudgeHeld(c, s1, t.ts, t.mark, t.mark, t.mark, t.mark, t.mark);
        TrailStepKeepsInv(p, Judged(fs[..n]), s1, t.ts, Extremes(t.mark, t.mark));
      case Bar(b) =>
        var q := before.position.value;
        JudgeHeld(c, before, b.closeMs, b.low, b.high, BarSlRef(q, b.open), if q.tp.Some? then q.tp.value else 0.0, b.close);
        BarIsJudge(c, before, b, NO_SCRIPT);
        TrailStepKeepsInv(p, Judged(fs[..n]), before, b.closeMs, Extremes(b.low, b.high));
      case Funding(_, _, _) => assert Judged(fs) == Judged(fs[..n]);
      case Gap(_, _) => assert Judged(fs) == Judged(fs[..n]);
    } else {
      assert Judged(fs) == [];
    }
  }

  /** One feed item never loosens the stop of a position it leaves open. */
  lemma StepTightens(c: Config, s: EngineState, f: Feed)
    requires Holding(c, s) && !FeedStep(c, s, f).raised && FeedStep(c, s, f).st.position.Some?
    ensures Tighter(s.position.value.direction, FeedStep(c, s, f).st.position.value.sl, s.position.value.sl)
  {
    hide FundingOnTick, Judge, OnTick, OnBar, Multiple;
    match f
    case Tick(t) =>
      FundingKeepsStake(c, s, t);
      NotRaisedIsOnGrid(c, s, t);
      TickIsFundThenJudge(c, s, t, NO_SCRIPT);
      JudgeHeld(c, FundingOnTick(c, s, t).st.(lastTick := Some(t)), t.ts, t.mark, t.mark, t.mark, t.mark, t.mark);
    case Bar(b) =>
      var q := s.position.value;
      JudgeHeld(c, s, b.closeMs, b.low, b.high, BarSlRef(q, b.open), if q.tp.Some? then q.tp.value else 0.0, b.close);
      BarIsJudge(c, s, b, NO_SCRIPT);
    case Funding(_, _, _) =>
    case Gap(_, _) =>
  }

  /** The stop only tightens from one point of a run to any later one. */
  lemma {:induction false} StopOnlyTightens(c: Config, s: EngineState, fs: seq<Feed>, k: nat)
    requires Survives(c, s, fs) && k <= |fs|
    ensures FeedRun(c, s, fs[..k]).position.Some? && FeedRun(c, s, fs).position.Some?
    ensures Tighter(s.position.value.direction, FeedRun(c, s, fs).position.value.sl, FeedRun(c, s, fs[..k]).position.value.sl)
    decreases |fs|
  {
    hide FeedStep, Multiple;
    SurvivingRun(c, s, fs);
    if k == |fs| {
      assert fs[..k] == fs;
    } else {
      var n := |fs| - 1;
      StopOnlyTightens(c, s, fs[..n], k);
      assert fs[..n][..k] == fs[..k];
      SurvivingRun(c, s, fs[..n]);
      StepTightens(c, FeedRun(c, s, fs[..n]), fs[n]);
    }
  }

  /** The price range a step judges. */
  function Range(f: Feed): Extremes
    requires f.Tick? || f.Bar?
  {
    match f case Tick(t) => Extremes(t.mark, t.mark) case Bar(b) => Extremes(b.low, b.high)
  }

  /** The step judged `q` by the range `r`: the position survives only clear of its stop and of its liquidation price, and a
      trailed-stop exit means the range reached that stop. */
  predicate JudgedBy(q: Position, r: Extremes, step: Step) {
    var n := |step.events|;
    && !step.raised
    && (step.st.position.None? ==> n >= 1 && step.events[n - 1].PositionClosed?)
    && (step.st.position.None? && step.events[n - 1].reason.TrailStop? ==>
          (if q.direction.Long? then r.low <= q.sl else r.high >= q.sl) && q.trail.Some? && q.trail.value.moved)
    && (step.st.position.Some? ==>
          if q.direction.Long? then r.low > q.sl && r.low > q.liqPrice else r.high < q.sl && r.high < q.liqPrice)
  }

  /** No look-ahead: a tick or a bar is judged by the stop the earlier steps left. */
  lemma StopJudgedFromThePast(c: Config, s: EngineState, fs: seq<Feed>, f: Feed)
    requires Survives(c, s, fs) && (f.Tick? || f.Bar?) && (f.Tick? ==> GridOk(c, f.t))
    ensures FeedRun(c, s, fs).position.Some? && AtJudgement(c, FeedRun(c, s, fs), f).position.Some?
    ensures
      var before := FeedRun(c, s, fs);
      var q := AtJudgement(c, before, f).position.value;
      && q.sl == before.position.value.sl && q.trail == before.position.value.trail
      && JudgedBy(q, Range(f), FeedStep(c, before, f))
  {
    hide Judge, FundingOnTick, OnTick, OnBar, BarSlRef, Multiple;
    SurvivingRun(c, s, fs);
    var before := FeedRun(c, s, fs);
    match f
    case Tick(t) =>
      FundingKeepsStake(c, before, t);
      TickIsFundThenJudge(c, before, t, NO_SCRIPT);
      var s1 := FundingOnTick(c, before, t).st.(lastTick := Some(t));
      JudgeHeld(c, s1, t.ts, t.mark, t.mark, t.mark, t.mark, t.mark);
      EvaluateSurvivor(c, s1, t.ts, t.mark, t.mark, t.mark, t.mark, t.mark);
    case Bar(b) =>
      var q := before.position.value;
      var slRef, tpRef := BarSlRef(q, b.open), if q.tp.Some? then q.tp.value else 0.0;
      JudgeHeld(c, before, b.closeMs, b.low, b.high, slRef, tpRef, b.close);
      BarIsJudge(c, before, b, NO_SCRIPT);
      EvaluateSurvivor(c, before, b.closeMs, b.low, b.high, slRef, tpRef, b.close);
  }

  lemma EvaluateSurvivor(c: Config, s: EngineState, ts: int, low: real, high: real, slRef: real, tpRef: real, mark: real)
    requires Holding(c, s)
    ensures
      var q := s.position.value;
      var step := Judge(c, s, ts, low, high, slRef, tpRef, mark, NO_EXIT);
      && (step.st.position.Some? ==> if q.direction.Long? then low > q.sl && low > q.liqPrice else high < q.sl && high < q.liqPrice)
      && (step.st.position.None? ==> |step.events| >= 1 && step.events[0].PositionClosed?)
      && (step.st.position.None? && step.events[0].reason.TrailStop? ==> if q.direction.Long? then low <= q.sl else high >= q.sl)
  {
    hide DoExit, ExitSent, TrailStep, Multiple, Vwap, Quote, LiquidationLoss, Pnl;
    var p := s.position.value;
    var why := if p.trail.Some? && p.trail.value.moved then TrailStop else StopLoss;
    PaperExitCloses(c, s, why, slRef, ts, NO_EXIT);
    PaperExitCloses(c, s, TakeProfit, tpRef, ts, NO_EXIT);
    var e := Evaluate(c, s, ts, low, high, slRef, tpRef, mark, NO_EXIT);
    TrailFrame(e.st, ts, low, high);
    if e.st.position.None? {
      assert e.events + [] == e.events;
    }
  }
}
