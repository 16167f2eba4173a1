/** At which price a held PAPER position is closed, and when (paper/engine.py:252-294, 564-583). The fills of an exit carry
    the reference they were sent at; what a reference is worth is `AdverseFill`. */
module ExitPrices {
  import opened Types
  import opened Steps
  import opened Normalize
  import opened EngineTypes
  import opened EngineModel
  import opened PaperRuns

  /** How far `to` lies beyond `from` in the holder's favour. */
  function Gain(d: Direction, from: real, to: real): real {
    Sign(d) * (to - from)
  }

  /** The extreme of a range that is good for the holder, and the one that is bad. */
  function Favourable(d: Direction, r: Extremes): real {
    if d.Long? then r.high else r.low
  }

  function Unfavourable(d: Direction, r: Extremes): real {
    if d.Long? then r.low else r.high
  }

  /** The price is the reference less the slippage, rounded by less than one tick against the holder. */
  predicate Slipped(c: Config, d: Direction, ref: real, price: real) {
    var ideal := if d.Long? then ref * (1.0 - c.slippage) else ref * (1.0 + c.slippage);
    Gain(d, ideal, price) <= 0.0 && Gain(d, ideal, price) + c.rules.tick > 0.0
  }

  /** The step closed `p` for that reason at that reference: one price for the whole quantity, worse than the reference
      by the slippage and by less than one tick of rounding, and the wallet moved by the result net of the taker fee. */
  ghost predicate ClosedAt(c: Config, p: Position, wallet: real, step: Step, e: Event, reason: ExitReason, ref: real) {
    && e.PositionClosed? && e.reason == reason && e.direction == p.direction && e.qty == p.qty && e.entryPrice == p.entryPrice
    && (forall f :: f in e.fills ==> f.refMark == ref) && e.fills != []
    && e.exitPrice.Some?
    && var price := e.exitPrice.value;
      && Multiple(price, c.rules.tick)
      && Slipped(c, p.direction, ref, price)
      && e.exitCommission == p.qty * price * c.taker
      && e.pnl == p.qty * Gain(p.direction, p.entryPrice, price)
      && step.st.wallet == wallet + e.pnl - e.exitCommission == e.walletAfter
  }

  lemma Rounded(side: Side, ref: real, tick: PosReal, rate: real)
    ensures
      var price := AdverseFill(side, ref, tick, rate);
      && Multiple(price, tick)
      && if side.Buy? then price - tick < ref * (1.0 + rate) <= price else price <= ref * (1.0 - rate) < price + tick
  {
    CeilIsLeastMultiple(ref * (1.0 + rate), tick, 0);
    FloorIsGreatestMultiple(ref * (1.0 - rate), tick, 0);
  }

  lemma ExitPriceOf(c: Config, d: Direction, ref: real)
    ensures Multiple(ExitQuote(c, d, ref), c.rules.tick) && Slipped(c, d, ref, ExitQuote(c, d, ref))
  {
    hide Multiple, AdverseFill;
    Rounded(SideFor(d, Exit), ref, c.rules.tick, c.slippage);
  }

  /** An exit at a reference. */
  lemma ExitClosesAt(c: Config, s: EngineState, reason: ExitReason, ref: real, ts: int)
    requires Holding(c, s)
    ensures
      var step := DoExit(c, s, reason, ref, ts, NO_EXIT);
      && !step.raised && step.st == s.(position := None, wallet := step.st.wallet) && |step.events| == 1
      && step.events[0].ts == ts && ClosedAt(c, s.position.value, s.wallet, step, step.events[0], reason, ref)
  {
    hide DoExit, Multiple, ExitSent, ExitQuote;
    var p := s.position.value;
    PaperExitCloses(c, s, reason, ref, ts, NO_EXIT);
    ExitPriceOf(c, p.direction, ref);
    PnlIsGain(p, ExitQuote(c, p.direction, ref));
  }

  lemma PnlIsGain(p: Position, price: real)
    ensures Pnl(p, price, p.qty) == p.qty * Gain(p.direction, p.entryPrice, price)
  {}

  /** What judging `q` by the range `r` comes to. It is liquidated exactly if the range reaches its liquidation price;
      else stopped out exactly if the range reaches its stop, at `stopRef`; else closed exactly if the range reaches its
      target, at `targetRef`; and otherwise it stays, and so does the wallet. */
  ghost predicate JudgedAt(c: Config, q: Position, wallet: real, r: Extremes, stopRef: real, targetRef: real, step: Step) {
    var d, n := q.direction, |step.events|;
    && !step.raised
    && if Gain(d, q.liqPrice, Unfavourable(d, r)) <= 0.0 then
         && step.st.position.None? && n >= 1 && step.events[n - 1].PositionClosed? && step.events[n - 1].reason.Liquidation?
         && step.events[n - 1].exitPrice.None?
       else if Gain(d, q.sl, Unfavourable(d, r)) <= 0.0 then
         && step.st.position.None? && n >= 1
         && ClosedAt(c, q, wallet, step, step.events[n - 1], StopReason(q), stopRef)
       else if q.tp.Some? && Gain(d, q.tp.value, Favourable(d, r)) >= 0.0 then
         && step.st.position.None? && n >= 1 && ClosedAt(c, q, wallet, step, step.events[n - 1], TakeProfit, targetRef)
       else
         step.st.position.Some? && step.st.wallet == wallet
  }

  /** Why a hit stop closes. */
  function StopReason(p: Position): ExitReason {
    if p.trail.Some? && p.trail.value.moved then TrailStop else StopLoss
  }

  /** In PAPER a judgement is one call at most. */
  lemma EvaluateCases(c: Config, s: EngineState, ts: int, low: real, high: real, slRef: real, tpRef: real, mark: real)
    requires Holding(c, s)
    ensures
      var p, d, r := s.position.value, s.position.value.direction, Extremes(low, high);
      Evaluate(c, s, ts, low, high, slRef, tpRef, mark, NO_EXIT)
      == if Gain(d, p.liqPrice, Unfavourable(d, r)) <= 0.0 then Liquidate(c, s, ts)
         else if Gain(d, p.sl, Unfavourable(d, r)) <= 0.0 then DoExit(c, s, StopReason(p), slRef, ts, NO_EXIT)
         else if p.tp.Some? && Gain(d, p.tp.value, Favourable(d, r)) >= 0.0 then DoExit(c, s, TakeProfit, tpRef, ts, NO_EXIT)
         else Step(s, [], false)
  {
    hide DoExit, Multiple, LiquidationLoss;
    NothingFirst(s, DoExit(c, s, StopReason(s.position.value), slRef, ts, NO_EXIT));
    NothingFirst(s, DoExit(c, s, TakeProfit, tpRef, ts, NO_EXIT));
  }

  lemma JudgeClosesAt(c: Config, s: EngineState, ts: int, low: real, high: real, slRef: real, tpRef: real, mark: real)
    requires Holding(c, s)
    ensures JudgedAt(c, s.position.value, s.wallet, Extremes(low, high), slRef, tpRef, Judge(c, s, ts, low, high, slRef, tpRef, mark, NO_EXIT))
  {
    hide DoExit, TrailStep, Multiple, LiquidationLoss, ClosedAt, Evaluate, Gain;
    EvaluateCases(c, s, ts, low, high, slRef, tpRef, mark);
    ExitClosesAt(c, s, StopReason(s.position.value), slRef, ts);
    ExitClosesAt(c, s, TakeProfit, tpRef, ts);
    var e := Evaluate(c, s, ts, low, high, slRef, tpRef, mark, NO_EXIT);
    TrailFrame(e.st, ts, low, high);
    ThenQuiet(e);
  }

  lemma ThenQuiet(a: Step)
    ensures Then(a, Step(a.st, [], false)) == a.(raised := false)
  {
    assert a.events + [] == a.events;
  }

  /** `ref` is one of the two prices, and neither is worse for the holder. */
  predicate WorseOf(d: Direction, a: real, b: real, ref: real) {
    (ref == a || ref == b) && Gain(d, a, ref) <= 0.0 && Gain(d, b, ref) <= 0.0
  }

  /** The target of a position, where there is one. */
  function TargetOf(p: Position): real {
    if p.tp.Some? then p.tp.value else 0.0
  }

  /** A bar on a position held, whether the bar found it or opened it. */
  lemma BarJudgedAt(c: Config, s: EngineState, b: MarkBar) returns (ref: real)
    requires Holding(c, s)
    ensures
      var q := s.position.value;
      WorseOf(q.direction, q.sl, b.open, ref) && JudgedAt(c, q, s.wallet, Extremes(b.low, b.high), ref, TargetOf(q), JudgeBar(c, s, b, NO_EXIT))
  {
    hide Judge, Multiple, JudgedAt;
    var q := s.position.value;
    ref := BarSlRef(q, b.open);
    JudgeClosesAt(c, s, b.closeMs, b.low, b.high, ref, TargetOf(q), b.close);
  }

  /** Main theorem on bars. After any surviving run a bar that opens beyond the stop is stopped out at its open, any other
      bar that reaches the stop at the stop; a target is closed at the target. */
  lemma BarClosesAt(c: Config, s: EngineState, fs: seq<Feed>, b: MarkBar) returns (ref: real)
    requires Survives(c, s, fs)
    ensures FeedRun(c, s, fs).position.Some?
    ensures
      var before := FeedRun(c, s, fs);
      var q := before.position.value;
      && WorseOf(q.direction, q.sl, b.open, ref)
      && JudgedAt(c, q, before.wallet, Extremes(b.low, b.high), ref, TargetOf(q), FeedStep(c, before, Bar(b)))
  {
    hide Judge, OnBar, JudgeBar, Multiple;
    SurvivingRun(c, s, fs);
    var before := FeedRun(c, s, fs);
    ref := BarJudgedAt(c, before, b);
    BarIsJudge(c, before, b, NO_SCRIPT);
  }

  /** Main theorem on ticks: whatever is closed is closed at the mark, after the funding due. */
  lemma TickClosesAt(c: Config, s: EngineState, fs: seq<Feed>, t: MarkTick)
    requires Survives(c, s, fs) && GridOk(c, t)
    ensures AtJudgement(c, FeedRun(c, s, fs), Tick(t)).position.Some?
    ensures
      var before := FeedRun(c, s, fs);
      var at := AtJudgement(c, before, Tick(t));
      && at.wallet == before.wallet - DueOnTick(before, t)
      && JudgedAt(c, at.position.value, at.wallet, Extremes(t.mark, t.mark), t.mark, t.mark, FeedStep(c, before, Tick(t)))
  {
    hide Judge, OnTick, FundingOnTick, Multiple, DueOnTick;
    SurvivingRun(c, s, fs);
    var before := FeedRun(c, s, fs);
    FundingKeepsStake(c, before, t);
    FundingKeepsQty(c, before, t);
    TickIsFundThenJudge(c, before, t, NO_SCRIPT);
    var at := FundingOnTick(c, before, t).st.(lastTick := Some(t));
    JudgeClosesAt(c, at, t.ts, t.mark, t.mark, t.mark, t.mark, t.mark);
    var judged := Judge(c, at, t.ts, t.mark, t.mark, t.mark, t.mark, t.mark, NO_EXIT);
    LastOfThen(c, at.position.value, at.wallet, Extremes(t.mark, t.mark), t.mark, FundingOnTick(c, before, t).events, judged);
  }

  lemma LastOfThen(c: Config, q: Position, wallet: real, r: Extremes, ref: real, first: seq<Event>, step: Step)
    requires JudgedAt(c, q, wallet, r, ref, ref, step)
    ensures JudgedAt(c, q, wallet, r, ref, ref, step.(events := first + step.events))
  {
    hide Multiple;
  }

  /** A gap at an open liquidates exactly if the open is at or beyond the liquidation price. */
  lemma GapClosesAt(c: Config, s: EngineState, fs: seq<Feed>, open: real, ts: int)
    requires Survives(c, s, fs)
    ensures FeedRun(c, s, fs).position.Some?
    ensures
      var before := FeedRun(c, s, fs);
      var q := before.position.value;
      var step := FeedStep(c, before, Gap(open, ts));
      && !step.raised
      && (step.st.position.None? <==> Gain(q.direction, q.liqPrice, open) <= 0.0)
      && (if step.st.position.None? then ClosedByLiquidation(step.events) else step == Step(before, [], false))
  {
    hide Multiple, LiquidationLoss;
    SurvivingRun(c, s, fs);
    var step := FeedStep(c, FeedRun(c, s, fs), Gap(open, ts));
    if step.events != [] { assert step.events[0].PositionClosed? && step.events[0].reason.Liquidation?; }
  }
}
