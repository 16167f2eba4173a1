/** The placebo executor (backtest/p1_t4.py:165-268): it enters through `restore_position` with a stop that cannot
    be reached and holds for a fixed time. It simulates the replay: a replayed trade that ended by time or by
    liquidation ends the same way here. */
module Placebo {
  import opened Types
  import opened Steps
  import opened EngineTypes
  import opened EngineModel
  import opened PaperRuns
  import opened Replay
  import Bisect
  import EngineObject

  const UNREACHABLE_SHORT_SL := 1000000000000.0

  datatype Outcome = Outcome(timeExit: bool, walletAfter: real, exitTs: int, fundingPaid: real)

  datatype Progress = Running(s: EngineState) | Done(out: Outcome) | Failed

  function Unreachable(d: Direction): real {
    if d.Long? then 0.0 else UNREACHABLE_SHORT_SL
  }

  /** The executor's engine sizes nothing, so it has no fixed capital. */
  function Executor(c: Config): Config {
    c.(sizingCapital := None)
  }

  // ---------------------------------------------------------------- the index of fundings

  function Times(fs: seq<Funding>): seq<int> {
    seq(|fs|, i requires 0 <= i < |fs| => fs[i].ms)
  }

  /** `start_after_minute`: past the fundings of minute `t` and of all before it. */
  function StartAfterMinute(fs: seq<Funding>, t: int): (i: nat)
    ensures i <= |fs|
  {
    Bisect.BisectLeft(Times(fs), t + MINUTE_MS)
  }

  lemma StartCuts(fs: seq<Funding>, t: int)
    requires Sorted(fs)
    ensures CutAt(fs, StartAfterMinute(fs, t), t + MINUTE_MS)
  {
    Bisect.LeftRest(Times(fs), t + MINUTE_MS);
    forall i | 0 <= i < |fs| ensures Times(fs)[i] == fs[i].ms {}
  }

  /** The next funding the snapshot names; past the last one, eight hours on. */
  function NextDue(fs: seq<Funding>, t: int): int {
    var i := StartAfterMinute(fs, t);
    if i < |fs| then fs[i].ms else t + 8 * HOUR_MS
  }

  /** It is the first funding after the minute, if there is one. */
  lemma NextDueIsFirst(fs: seq<Funding>, t: int)
    requires Sorted(fs)
    ensures
      if exists i :: 0 <= i < |fs| && fs[i].ms >= t + MINUTE_MS
      then (exists i :: 0 <= i < |fs| && fs[i].ms == NextDue(fs, t)) && NextDue(fs, t) >= t + MINUTE_MS
           && (forall i :: 0 <= i < |fs| && fs[i].ms >= t + MINUTE_MS ==> NextDue(fs, t) <= fs[i].ms)
      else NextDue(fs, t) == t + 8 * HOUR_MS
  {
    hide StartAfterMinute;
    StartCuts(fs, t);
  }

  // ---------------------------------------------------------------- the executor

  function Restorable(c: Config, fs: seq<Funding>, e: Event): PosState
    requires e.EntryFilled? && e.qty > 0.0 && e.entryPrice != 0.0
  {
    PosState(PositionData.Position(e.direction, e.qty, e.entryPrice, e.leverage, Unreachable(e.direction), None, e.liqPrice,
                                   TakerFee(c, e.qty, e.entryPrice), e.ts, 0.0, false, None), Some(NextDue(fs, e.ts)))
  }

  /** Restore the trade into a fresh engine and take the entry commission off the wallet. */
  function Enter(c: Config, capital: real, fs: seq<Funding>, e: Event): Progress
    requires e.EntryFilled? && e.qty > 0.0 && e.entryPrice != 0.0
  {
    var step := RestorePosition(Executor(c), EngineState(capital, None, None, [], None, None, None), Restorable(c, fs, e), e.ts);
    if step.raised then Failed else Running(step.st.(wallet := capital - TakerFee(c, e.qty, e.entryPrice)))
  }

  function Finish(e: Event): Progress
    requires e.PositionClosed?
  {
    if e.reason.Liquidation? || e.reason.TimeExit? then Done(Outcome(e.reason.TimeExit?, e.walletAfter, e.ts, e.fundingPaid)) else Failed
  }

  /** What a call left: still running, or closed by its only event. */
  function After(step: Step): Progress {
    if step.raised then Failed
    else if step.st.position.Some? then Running(step.st)
    else match LastClose(step.events) case None => Failed case Some(e) => Finish(e)
  }

  function LastClose(evs: seq<Event>): (r: Option<Event>)
    ensures r.Some? ==> r.value.PositionClosed?
    decreases |evs|
  {
    if evs == [] then None
    else if evs[|evs| - 1].PositionClosed? then Some(evs[|evs| - 1]) else LastClose(evs[..|evs| - 1])
  }

  /** Fundings of the entry minute are never settled. */
  function SettleHeldMinute(c: Config, s: EngineState, fs: seq<Funding>, t: int, entry: bool): EngineState {
    if entry then s else SettleMinute(c, s, fs, t)
  }

  /** The first `n` minutes of the holding period. */
  function Hold(c: Config, capital: real, bars: map<int, Bar>, fs: seq<Funding>, e: Event, n: nat): Progress
    requires e.EntryFilled? && e.qty > 0.0 && e.entryPrice != 0.0
  {
    if n == 0 then Enter(c, capital, fs, e)
    else
      match Hold(c, capital, bars, fs, e, n - 1)
      case Running(s) =>
        var t := e.ts + (n - 1) * MINUTE_MS;
        if t !in bars then Failed
        else HoldMinute(c, s, bars[t], fs, n == 1)
      case other => other
  }

  function HoldMinute(c: Config, s: EngineState, b: Bar, fs: seq<Funding>, entry: bool): Progress {
    After(OnBar(Executor(c), SettleHeldMinute(Executor(c), s, fs, b.openMs, entry), MarkBarOf(b), NO_SCRIPT))
  }

  /** `execute`: hold for `hold` minutes, then liquidate at the open if it gapped through, else exit there. */
  function Execute(c: Config, capital: real, bars: map<int, Bar>, fs: seq<Funding>, e: Event, hold: nat): Progress
    requires e.EntryFilled? && e.qty > 0.0 && e.entryPrice != 0.0
  {
    match Hold(c, capital, bars, fs, e, hold)
    case Running(s) =>
      var t := e.ts + hold * MINUTE_MS;
      if t !in bars then Failed else LastMinute(c, s, bars[t], fs, hold == 0)
    case other => other
  }

  function LastMinute(c: Config, s: EngineState, b: Bar, fs: seq<Funding>, entry: bool): Progress {
    NotRunning(After(ExitAtOpen(Executor(c), SettleHeldMinute(Executor(c), s, fs, b.openMs, entry), b.open, b.openMs)))
  }

  /** A trade that is still open after its exit is an error. */
  function NotRunning(p: Progress): Progress {
    if p.Running? then Failed else p
  }

  // ---------------------------------------------------------------- the simulation relation

  /** The same trade with the stop out of reach. */
  function Shadow(p: Position): Position {
    p.(sl := Unreachable(p.direction), tp := None, trail := None)
  }

  predicate Sim(c: Config, s: EngineState, x: EngineState) {
    && Holding(c, s) && Holding(Executor(c), x)
    && x.position.value == Shadow(s.position.value) && x.wallet == s.wallet
  }

  predicate Sane(b: Bar) {
    b.low > 0.0 && b.high < UNREACHABLE_SHORT_SL
  }

  lemma SettleSims(c: Config, s: EngineState, x: EngineState, f: Funding)
    requires Sim(c, s, x)
    ensures Sim(c, SettleFunding(c, s, f.ms, f.rate, f.mark).st, SettleFunding(Executor(c), x, f.ms, f.rate, f.mark).st)
  {
    var p, q := s.position.value, x.position.value;
    var due := FundingDue(p, f.rate, f.mark);
    assert FundingDue(q, f.rate, f.mark) == due;
    hide Multiple, FundingDue;
    RefreshSims(c, p.(fundingPaid := p.fundingPaid + due), q.(fundingPaid := p.fundingPaid + due));
  }

  lemma RefreshSims(c: Config, p: Position, q: Position)
    requires q == Shadow(p)
    ensures RefreshLiquidation(Executor(c), q) == Shadow(RefreshLiquidation(c, p))
  {
    assert q.Notional() == p.Notional();
  }

  lemma {:induction false} SettleAllSims(c: Config, s: EngineState, x: EngineState, fs: seq<Funding>, lo: int, hi: int)
    requires Sim(c, s, x)
    ensures Sim(c, SettleDue(c, s, fs, lo, hi), SettleDue(Executor(c), x, fs, lo, hi))
    decreases |fs|
  {
    hide SettleFunding, Sim;
    SimHolds(c, s, x);
    if fs != [] {
      SettleAllSims(c, s, x, fs[..|fs| - 1], lo, hi);
      var f := fs[|fs| - 1];
      SettleSims(c, SettleDue(c, s, fs[..|fs| - 1], lo, hi), SettleDue(Executor(c), x, fs[..|fs| - 1], lo, hi), f);
    }
  }

  lemma SimHolds(c: Config, s: EngineState, x: EngineState)
    requires Sim(c, s, x)
    ensures Holding(c, s) && Holding(Executor(c), x) && x.position.value == Shadow(s.position.value)
  {}

  /** The trade's close as the executor reports it. */
  function Reported(e: Event): Progress
    requires e.PositionClosed?
  {
    Done(Outcome(e.reason.TimeExit?, e.walletAfter, e.ts, e.fundingPaid))
  }

  predicate ByLiquidation(e: Event) {
    e.PositionClosed? && e.reason.Liquidation?
  }

  /** One judged bar: the shadow survives whatever the trade survives, and is liquidated exactly when it is. */
  lemma BarSims(c: Config, s: EngineState, x: EngineState, b: Bar)
    requires Sim(c, s, x) && Sane(b)
    ensures var step := JudgeBar(c, s, MarkBarOf(b), NO_EXIT);
      var y := After(OnBar(Executor(c), x, MarkBarOf(b), NO_SCRIPT));
      && (step.st.position.Some? ==> y.Running? && Sim(c, step.st, y.s))
      && (step.st.position.None? && |step.events| == 1 && ByLiquidation(step.events[0]) ==> y == Reported(step.events[0]))
  {
    hide Judge, Multiple, OnBar, Liquidate, After, Sim, Sane, Judged1, LiqHit, Holding;
    SimHolds(c, s, x);
    var m, ts := MarkBarOf(b), b.openMs + MINUTE_MS - 1;
    var p := s.position.value;
    var slRef, tpRef := BarSlRef(p, b.open), if p.tp.Some? then p.tp.value else 0.0;
    ShadowBar(c, x, b);
    JudgeIsRight(c, s, ts, b.low, b.high, slRef, tpRef, b.close);
    LiquidationIffHit(c, s, ts, b.low, b.high, slRef, tpRef, b.close);
    LiquidateSims(c, s, x, ts);
    SurvivorSims(c, s, x, JudgeBar(c, s, m, NO_EXIT), ts);
    assert LiqHit(x.position.value, b.low, b.high) == LiqHit(p, b.low, b.high) by { SameHit(p, b.low, b.high); }
  }

  lemma SameHit(p: Position, low: real, high: real)
    ensures LiqHit(Shadow(p), low, high) == LiqHit(p, low, high)
  {}

  lemma LiquidateSims(c: Config, s: EngineState, x: EngineState, ts: int)
    requires Sim(c, s, x)
    ensures var a := Liquidate(c, s, ts);
      && a.st.position.None? && |a.events| == 1 && ByLiquidation(a.events[0])
      && After(Liquidate(Executor(c), x, ts)) == Reported(a.events[0])
  {
    LiquidatesAlike(c, s, x);
    hide LiquidationLoss, Multiple;
  }

  lemma SurvivorSims(c: Config, s: EngineState, x: EngineState, step: Step, ts: int)
    requires Sim(c, s, x) && Judged1(c, s, step, ts)
    requires step.st.position.Some? ==> step.st.position.value.liqAlerted == s.position.value.liqAlerted
    ensures step.st.position.Some? ==> Sim(c, step.st, x)
    ensures After(Step(x, [], false)) == Running(x)
  {
    hide Multiple;
  }

  lemma LiquidationIffHit(c: Config, s: EngineState, ts: int, low: real, high: real, slRef: real, tpRef: real, mark: real)
    requires Holding(c, s)
    ensures var step := Judge(c, s, ts, low, high, slRef, tpRef, mark, NO_EXIT);
      && (LiqHit(s.position.value, low, high) ==> step == Liquidate(c, s, ts))
      && (step.st.position.None? && |step.events| == 1 && ByLiquidation(step.events[0]) ==> LiqHit(s.position.value, low, high))
      && (step.st.position.Some? ==> step.st.position.value.liqAlerted == s.position.value.liqAlerted)
  {
    hide DoExit, Multiple, LiquidationLoss, TrailStep, Quote, Pnl, TakerFee;
    var p := s.position.value;
    var why := if p.trail.Some? && p.trail.value.moved then TrailStop else StopLoss;
    ExitClosesRight(c, s, why, slRef, ts);
    ExitClosesRight(c, s, TakeProfit, tpRef, ts);
    var e := Evaluate(c, s, ts, low, high, slRef, tpRef, mark, NO_EXIT);
    if e.st.position.None? {
      TrailFlat(e.st, ts, low, high);
      assert e.events + [] == e.events;
    } else {
      TrailKeepsAlert(e.st, ts, low, high);
    }
  }

  lemma TrailKeepsAlert(s: EngineState, ts: int, low: real, high: real)
    requires s.position.Some?
    ensures var st := TrailStep(s, ts, low, high).st;
      st.position.Some? && st.position.value.liqAlerted == s.position.value.liqAlerted
  {}

  /** With no target, no trail and a stop out of reach, only liquidation can end it. */
  lemma ShadowBar(c: Config, x: EngineState, b: Bar)
    requires Holding(Executor(c), x) && Sane(b)
    requires x.position.value.sl == Unreachable(x.position.value.direction) && x.position.value.tp.None? && x.position.value.trail.None?
    ensures OnBar(Executor(c), x, MarkBarOf(b), NO_SCRIPT)
         == if LiqHit(x.position.value, b.low, b.high) then Liquidate(Executor(c), x, b.openMs + MINUTE_MS - 1) else Step(x, [], false)
  {
    hide LiquidationLoss, Multiple;
    BarIsJudge(Executor(c), x, MarkBarOf(b), NO_SCRIPT);
  }

  lemma LiquidatesAlike(c: Config, s: EngineState, x: EngineState)
    requires Sim(c, s, x)
    ensures LiquidationLoss(Executor(c), x.position.value) == LiquidationLoss(c, s.position.value)
  {
    assert x.position.value.Notional() == s.position.value.Notional();
  }

  lemma ExitCases(c: Config, s: EngineState, open: real, ts: int)
    requires Holding(c, s)
    ensures ExitAtOpen(c, s, open, ts)
         == if OpenBeyond(s.position.value, open) then Liquidate(c, s, ts) else DoExit(c, s, TimeExit, open, ts, NO_EXIT)
  {
    hide DoExit, Multiple, LiquidationLoss;
    ExitClosesRight(c, s, TimeExit, open, ts);
    NothingFirst(s, DoExit(c, s, TimeExit, open, ts, NO_EXIT));
  }

  /** The exit at an open. */
  lemma ExitSims(c: Config, s: EngineState, x: EngineState, b: Bar)
    requires Sim(c, s, x)
    ensures var step := ExitAtOpen(c, s, b.open, b.openMs);
      && |step.events| == 1 && step.events[0].PositionClosed?
      && After(ExitAtOpen(Executor(c), x, b.open, b.openMs)) == Reported(step.events[0])
  {
    hide Multiple, Liquidate, DoExit, ExitAtOpen;
    ExitCases(c, s, b.open, b.openMs);
    ExitCases(Executor(c), x, b.open, b.openMs);
    LiquidateSims(c, s, x, b.openMs);
    ClosesAlike(c, s, x, b.open, b.openMs);
  }

  lemma ClosesAlike(c: Config, s: EngineState, x: EngineState, refMark: real, ts: int)
    requires Sim(c, s, x)
    ensures var a, b := DoExit(c, s, TimeExit, refMark, ts, NO_EXIT), DoExit(Executor(c), x, TimeExit, refMark, ts, NO_EXIT);
      && |a.events| == 1 && |b.events| == 1 && a.events[0].PositionClosed? && b.events[0].PositionClosed?
      && a.events[0].walletAfter == b.events[0].walletAfter && a.events[0].fundingPaid == b.events[0].fundingPaid
      && a.events[0].ts == ts == b.events[0].ts && a.events[0].reason == TimeExit == b.events[0].reason
      && !b.raised && b.st.position.None?
  {
    hide ExitSent, DoExit, Multiple;
    var p, q := s.position.value, x.position.value;
    PaperExitCloses(c, s, TimeExit, refMark, ts, NO_EXIT);
    PaperExitCloses(Executor(c), x, TimeExit, refMark, ts, NO_EXIT);
    assert ExitQuote(Executor(c), q.direction, refMark) == ExitQuote(c, p.direction, refMark);
    assert Pnl(q, ExitQuote(c, p.direction, refMark), q.qty) == Pnl(p, ExitQuote(c, p.direction, refMark), p.qty);
  }

  /** Restoring the filled trade reproduces it with the stop out of reach. */
  lemma EnterSims(c: Config, capital: real, fs: seq<Funding>, s: EngineState, e: Event)
    requires e.EntryFilled? && Holding(c, s) && Describes(e, e.ts, s.position.value) && e.liqPrice == s.position.value.liqPrice
    requires EstimateKnown(c, s.position.value) && s.position.value.fundingPaid == 0.0 && !s.position.value.liqAlerted
    requires e.entryCommission == TakerFee(c, e.qty, e.entryPrice) && s.wallet == capital - e.entryCommission
    requires s.position.value.openedMs == e.ts
    ensures Enter(c, capital, fs, e).Running? && Sim(c, s, Enter(c, capital, fs, e).s)
  {
    hide Multiple, TakerFee, NextDue;
    var p := s.position.value;
    NotionalIsNonzero(p);
    NoFundingYet(c, p);
    var x := Enter(c, capital, fs, e);
    var q := PositionData.Position(e.direction, e.qty, e.entryPrice, e.leverage, Unreachable(e.direction), None, e.liqPrice,
                                   e.entryCommission, e.ts, 0.0, false, None);
    assert q == Shadow(p);
    assert q.Notional() == p.Notional();
  }

  lemma NoFundingYet(c: Config, p: Position)
    ensures p.Notional() != 0.0 && c.taker + 0.0 / p.Notional() == c.taker
  {
    NotionalIsNonzero(p);
  }

  // ---------------------------------------------------------------- along a whole replay

  /** Contiguous minutes with sane prices, the same bars in the executor's dictionary. */
  predicate Chart(bars: seq<Bar>, m: map<int, Bar>) {
    && (forall i :: 0 <= i < |bars| ==> bars[i].openMs in m && m[bars[i].openMs] == bars[i] && Sane(bars[i]))
    && (forall i, j :: 0 <= i <= j < |bars| ==> bars[j].openMs == bars[i].openMs + (j - i) * MINUTE_MS)
  }

  predicate Replayable(e: Event) {
    e.EntryFilled? && e.qty > 0.0 && e.entryPrice != 0.0
  }

  /** The executor, holding the same trade, is still running in step with the replay. */
  predicate InStep(c: Config, capital: real, s: EngineState, h: OpenTrade, bars: seq<Bar>, m: map<int, Bar>, fs: seq<Funding>, n: nat)
    requires n <= |bars|
  {
    && h.bar < n && Replayable(h.filled) && h.filled.ts == bars[h.bar].openMs
    && var y := Hold(c, capital, m, fs, h.filled, n - h.bar); y.Running? && Sim(c, s, y.s)
  }

  /** The executor ends the trade as the replay did: at the exit minute if the replay left at the open, in any
      longer holding period if it was liquidated before. */
  predicate Agrees(c: Config, capital: real, tr: Trade, exitAtOpen: bool, m: map<int, Bar>, fs: seq<Funding>) {
    && Replayable(tr.entry.filled) && tr.closed.PositionClosed? && tr.entry.bar <= tr.bar
    && if exitAtOpen then Execute(c, capital, m, fs, tr.entry.filled, tr.bar - tr.entry.bar) == Reported(tr.closed)
       else tr.closed.reason.Liquidation? ==> Hold(c, capital, m, fs, tr.entry.filled, tr.bar - tr.entry.bar + 1) == Reported(tr.closed)
  }

  predicate AllAgree(c: Config, capital: real, trs: seq<Trade>, xs: seq<Choice>, m: map<int, Bar>, fs: seq<Funding>) {
    forall i :: 0 <= i < |trs| ==> trs[i].bar < |xs| && Agrees(c, capital, trs[i], xs[trs[i].bar].exitAtOpen, m, fs)
  }

  predicate Shadowed(c: Config, capital: real, st: ReplayState, bars: seq<Bar>, xs: seq<Choice>, m: map<int, Bar>, fs: seq<Funding>, n: nat)
    requires n <= |bars|
  {
    && AllAgree(c, capital, st.trades, xs, m, fs)
    && (st.held.Some? ==> InStep(c, capital, st.eng, st.held.value, bars, m, fs, n))
  }

  /** What a judged step does to the book. */
  lemma JudgedBook(c: Config, s: EngineState, h: OpenTrade, step: Step, ts: int, k: nat, b: Bar, w: real, trades: seq<Trade>)
    requires s.position.Some? && Judged1(c, s, step, ts) && h.filled.EntryFilled?
    ensures var bk0 := Book(trades, Some(h), Some(s.position.value.liqPrice));
      var bk := BookAll(bk0, step.events, k, b, w);
      if step.st.position.Some? then bk == bk0
      else |step.events| == 1 && step.events[0].PositionClosed? && bk.held.None?
           && bk.trades == trades + [Trade(h, step.events[0], ExitRef(bk0, step.events[0]), k)]
  {
    hide ExitRef;
    var bk0 := Book(trades, Some(h), Some(s.position.value.liqPrice));
    if step.st.position.Some? {
      BookQuiet(bk0, step.events, k, b, w);
    } else {
      assert step.events == [step.events[0]];
      BookSingle(bk0, step.events[0], k, b, w);
    }
  }

  lemma OneMoreAgrees(c: Config, capital: real, trs: seq<Trade>, tr: Trade, xs: seq<Choice>, m: map<int, Bar>, fs: seq<Funding>)
    requires AllAgree(c, capital, trs, xs, m, fs) && tr.bar < |xs| && Agrees(c, capital, tr, xs[tr.bar].exitAtOpen, m, fs)
    ensures AllAgree(c, capital, trs + [tr], xs, m, fs)
  {
    hide Agrees;
  }

  /** The executor's next minute, in step with a judged bar of the replay. */
  lemma NextMinute(c: Config, capital: real, s: EngineState, x: EngineState, e: Event, b: Bar, m: map<int, Bar>, fs: seq<Funding>,
                   n: nat, x1: EngineState)
    requires Replayable(e) && Hold(c, capital, m, fs, e, n) == Running(x) && Sane(b)
    requires e.ts + n * MINUTE_MS == b.openMs && b.openMs in m && m[b.openMs] == b
    requires x1 == SettleHeldMinute(Executor(c), x, fs, b.openMs, n == 0) && Sim(c, s, x1)
    ensures var step := JudgeBar(c, s, MarkBarOf(b), NO_EXIT);
      var y := Hold(c, capital, m, fs, e, n + 1);
      && (step.st.position.Some? ==> y.Running? && Sim(c, step.st, y.s))
      && (step.st.position.None? && |step.events| == 1 && ByLiquidation(step.events[0]) ==> y == Reported(step.events[0]))
  {
    hide JudgeBar, OnBar, After, Sim, SettleHeldMinute, ByLiquidation;
    BarSims(c, s, x1, b);
    assert Hold(c, capital, m, fs, e, n + 1) == HoldMinute(c, x, b, fs, n == 0);
  }

  lemma HeldMinute(c: Config, capital: real, st: ReplayState, bars: seq<Bar>, xs: seq<Choice>, m: map<int, Bar>, fs: seq<Funding>, k: nat)
    requires k < |bars| && k < |xs| && Chart(bars, m) && FixedCapital(c, capital)
    requires StateRight(c, capital, st, bars, fs, k) && Shadowed(c, capital, st, bars, xs, m, fs, k) && st.held.Some?
    ensures var s := SettleMinute(c, st.eng, fs, bars[k].openMs);
      var step := EngineMinute(c, s, bars[k], xs[k].exitAtOpen);
      var bk := BookAll(Book(st.trades, st.held, LiqPriceNow(s)), step.events, k, bars[k], capital);
      Shadowed(c, capital, ReplayState(step.st, bk.trades, bk.held), bars, xs, m, fs, k + 1)
  {
    hide OnBar, JudgeBar, ExitAtOpen, SettleDue, Judged1, Sim, After, BookAll, AllAgree, Hold, HeldRight, ExitRef;
    var h, b := st.held.value, bars[k];
    var x := Hold(c, capital, m, fs, h.filled, k - h.bar).s;
    var s, x1 := SettleMinute(c, st.eng, fs, b.openMs), SettleMinute(Executor(c), x, fs, b.openMs);
    SimHolds(c, st.eng, x);
    SettleAllSims(c, st.eng, x, fs, b.openMs, b.openMs + MINUTE_MS);
    SimHolds(c, s, x1);
    var step := EngineMinute(c, s, b, xs[k].exitAtOpen);
    assert h.filled.ts + (k - h.bar) * MINUTE_MS == b.openMs;
    if xs[k].exitAtOpen {
      ExitAtOpenIsRight(c, s, b.open, b.openMs);
      JudgedBook(c, s, h, step, b.openMs, k, b, capital, st.trades);
      ExitSims(c, s, x1, b);
      assert Execute(c, capital, m, fs, h.filled, k - h.bar) == LastMinute(c, x, b, fs, false);
    } else {
      JudgeBarIsRight(c, s, b);
      JudgedNotRaised(c, s, JudgeBar(c, s, MarkBarOf(b), NO_EXIT), b.openMs + MINUTE_MS - 1);
      BarIsJudge(c, s, MarkBarOf(b), NO_SCRIPT);
      JudgedBook(c, s, h, step, b.openMs + MINUTE_MS - 1, k, b, capital, st.trades);
      NextMinute(c, capital, s, x, h.filled, b, m, fs, k - h.bar, x1);
    }
    if step.st.position.None? {
      var bk0 := Book(st.trades, Some(h), Some(s.position.value.liqPrice));
      var tr := Trade(h, step.events[0], ExitRef(bk0, step.events[0]), k);
      assert Agrees(c, capital, tr, xs[k].exitAtOpen, m, fs);
      OneMoreAgrees(c, capital, st.trades, tr, xs, m, fs);
    }
  }

  /** A minute that starts flat and opens a trade. */
  lemma EntryMinute(c: Config, capital: real, s: EngineState, o: Opening, entered: Step, bars: seq<Bar>, xs: seq<Choice>,
                    m: map<int, Bar>, fs: seq<Funding>, k: nat, trades: seq<Trade>)
    requires k < |bars| && k < |xs| && !xs[k].exitAtOpen && Chart(bars, m) && FixedCapital(c, capital)
    requires AllAgree(c, capital, trades, xs, m, fs)
    requires EnteredAs(c, s, o, entered, bars[k].openMs) && !entered.raised
    ensures var step := Then(entered, JudgeBar(c, entered.st, MarkBarOf(bars[k]), NO_EXIT));
      var bk := BookAll(Book(trades, None, None), step.events, k, bars[k], capital);
      Shadowed(c, capital, ReplayState(step.st, bk.trades, bk.held), bars, xs, m, fs, k + 1)
  {
    hide JudgeBar, BookAll, ClosedRight, Judged1, Sim, OpeningOf, AllAgree, Hold, ExitRef, EstimateKnown;
    var b, bk0 := bars[k], Book(trades, None, None);
    var e := FilledEvent(o, b.openMs);
    var h := OpenTrade(k, b.openMs, b.open, capital, e);
    var bk1 := Book(trades, Some(h), Some(o.p.liqPrice));
    BookOpening(c, s, bk0, o, b.openMs, k, b, capital);
    if entered.st.position.Some? {
      var step := JudgeBar(c, o.st, MarkBarOf(b), NO_EXIT);
      JudgeBarIsRight(c, o.st, b);
      JudgedNotRaised(c, o.st, step, b.openMs + MINUTE_MS - 1);
      BookAppend(bk0, OpeningOf(c, s, o, b.openMs), step.events, k, b, capital);
      JudgedBook(c, o.st, h, step, b.openMs + MINUTE_MS - 1, k, b, capital, trades);
      EnterSims(c, capital, fs, o.st, e);
      var x := Enter(c, capital, fs, e).s;
      assert Hold(c, capital, m, fs, e, 0) == Running(x) by { HoldStarts(c, capital, m, fs, e); }
      NextMinute(c, capital, o.st, x, e, b, m, fs, 0, x);
      if step.st.position.None? {
        var tr := Trade(h, step.events[0], ExitRef(bk1, step.events[0]), k);
        assert Agrees(c, capital, tr, xs[k].exitAtOpen, m, fs);
        OneMoreAgrees(c, capital, trades, tr, xs, m, fs);
      }
    } else {
      var closed :| entered.events == OpeningOf(c, s, o, b.openMs) + [closed] && ClosedRight(c, o.st, closed, entered.st) && GateClosed(closed, b.openMs);
      FlatBar(c, entered.st, MarkBarOf(b));
      assert Then(entered, JudgeBar(c, entered.st, MarkBarOf(b), NO_EXIT)).events == OpeningOf(c, s, o, b.openMs) + [closed];
      BookAppend(bk0, OpeningOf(c, s, o, b.openMs), [closed], k, b, capital);
      BookSingle(bk1, closed, k, b, capital);
      OneMoreAgrees(c, capital, trades, Trade(h, closed, ExitRef(bk1, closed), k), xs, m, fs);
    }
  }

  lemma HoldStarts(c: Config, capital: real, m: map<int, Bar>, fs: seq<Funding>, e: Event)
    requires Replayable(e)
    ensures Hold(c, capital, m, fs, e, 0) == Enter(c, capital, fs, e)
  {}

  /** A minute that starts flat. */
  lemma FlatMinute(c: Config, capital: real, st: ReplayState, bars: seq<Bar>, xs: seq<Choice>, m: map<int, Bar>, fs: seq<Funding>, k: nat)
    requires k < |bars| && k < |xs| && Chart(bars, m) && FixedCapital(c, capital)
    requires AllAgree(c, capital, st.trades, xs, m, fs) && st.held.None? && st.eng.position.None?
    requires !EngineMinute(c, st.eng, bars[k], xs[k].exitAtOpen).raised
    ensures var step := EngineMinute(c, st.eng, bars[k], xs[k].exitAtOpen);
      var bk := BookAll(Book(st.trades, None, None), step.events, k, bars[k], capital);
      Shadowed(c, capital, ReplayState(step.st, bk.trades, bk.held), bars, xs, m, fs, k + 1)
  {
    hide ExecuteEntry, JudgeBar, EnteredAs, BookAll, AllAgree, ExitAtOpen;
    var b, bk0, s := bars[k], Book(st.trades, None, None), st.eng;
    var mb := MarkBarOf(b);
    var step := EngineMinute(c, s, b, xs[k].exitAtOpen);
    if xs[k].exitAtOpen {
      FlatExit(c, s, b.open, b.openMs);
      BookQuiet(bk0, step.events, k, b, capital);
    } else if s.pending.None? || mb.openMs <= s.pending.value.decidedMs {
      FlatBar(c, s, mb);
      assert step.events == [];
      BookQuiet(bk0, step.events, k, b, capital);
    } else {
      var o := EntryShape(c, s, mb.open, mb.openMs);
      var entered := ExecuteEntry(c, s, mb.open, mb.openMs, NO_ENTRY, NO_EXIT);
      if o.None? {
        FlatBar(c, entered.st, mb);
        assert entered.events + [] == entered.events;
        BookQuiet(bk0, step.events, k, b, capital);
      } else {
        EntryMinute(c, capital, s, o.value, entered, bars, xs, m, fs, k, st.trades);
      }
    }
  }

  lemma MinuteShadows(c: Config, capital: real, st: ReplayState, bars: seq<Bar>, xs: seq<Choice>, m: map<int, Bar>, fs: seq<Funding>, k: nat)
    requires k < |bars| && k < |xs| && Chart(bars, m) && FixedCapital(c, capital)
    requires StateRight(c, capital, st, bars, fs, k) && Shadowed(c, capital, st, bars, xs, m, fs, k)
    requires Minute(c, st, k, bars[k], xs[k], fs).Some?
    ensures Shadowed(c, capital, Minute(c, st, k, bars[k], xs[k], fs).value, bars, xs, m, fs, k + 1)
  {
    hide EngineMinute, SettleDue, BookAll, AllAgree, HeldRight, TradesRight, Sim, Hold;
    var s := SettleMinute(c, st.eng, fs, bars[k].openMs);
    var step := EngineMinute(c, s, bars[k], xs[k].exitAtOpen);
    var bk := BookAll(Book(st.trades, st.held, LiqPriceNow(s)), step.events, k, bars[k], capital);
    if st.held.Some? {
      HeldMinute(c, capital, st, bars, xs, m, fs, k);
    } else {
      FlatMinute(c, capital, st, bars, xs, m, fs, k);
    }
    AskKeepsStep(c, capital, ReplayState(step.st, bk.trades, bk.held), xs[k].intent, bars, xs, m, fs, k + 1);
  }

  lemma AskKeepsStep(c: Config, capital: real, st: ReplayState, i: Option<EntryIntent>, bars: seq<Bar>, xs: seq<Choice>,
                     m: map<int, Bar>, fs: seq<Funding>, n: nat)
    requires n <= |bars| && Shadowed(c, capital, st, bars, xs, m, fs, n)
    ensures var asked := if i.None? then st.eng else RequestEntry(c, st.eng, i.value).st;
      Shadowed(c, capital, st.(eng := asked), bars, xs, m, fs, n)
  {
    hide AllAgree, Hold, Multiple;
  }

  lemma {:induction false} RunShadows(c: Config, capital: real, equity: real, bars: seq<Bar>, xs: seq<Choice>, m: map<int, Bar>,
                                      fs: seq<Funding>, n: nat)
    requires n <= |bars| && n <= |xs| && Chart(bars, m) && FixedCapital(c, capital)
    requires Run(c, equity, bars, xs, fs, n).Some?
    ensures Shadowed(c, capital, Run(c, equity, bars, xs, fs, n).value, bars, xs, m, fs, n)
    decreases n
  {
    hide Minute, InStep, StateRight;
    if n > 0 {
      RunShadows(c, capital, equity, bars, xs, m, fs, n - 1);
      RunIsRight(c, capital, equity, bars, xs, fs, n - 1);
      MinuteShadows(c, capital, Run(c, equity, bars, xs, fs, n - 1).value, bars, xs, m, fs, n - 1);
    }
  }

  lemma {:induction false} HoldPersists(c: Config, capital: real, m: map<int, Bar>, fs: seq<Funding>, e: Event, a: nat, b: nat)
    requires Replayable(e) && a <= b && !Hold(c, capital, m, fs, e, a).Running?
    ensures Hold(c, capital, m, fs, e, b) == Hold(c, capital, m, fs, e, a)
    decreases b
  {
    if a < b { HoldPersists(c, capital, m, fs, e, a, b - 1); }
  }

  /** Main theorem. Take any replay with a fixed capital over contiguous minutes, and a trade of it that ended at
      an open by the strategy's exit or by liquidation. The executor, given the same fill and a holding time that
      ends where the strategy exits, ends the trade the same way: wallet, funding, time and kind of exit, although
      it entered through a restored snapshot with no target, no trail and a stop out of reach. */
  lemma PlaceboSimulatesReplay(c: Config, capital: real, equity: real, bars: seq<Bar>, xs: seq<Choice>, m: map<int, Bar>,
                               fs: seq<Funding>, n: nat, i: nat, hold: nat)
    requires n <= |bars| && n <= |xs| && Chart(bars, m) && FixedCapital(c, capital)
    requires Run(c, equity, bars, xs, fs, n).Some? && i < |Run(c, equity, bars, xs, fs, n).value.trades|
    ensures var tr := Run(c, equity, bars, xs, fs, n).value.trades[i];
      && Replayable(tr.entry.filled) && tr.closed.PositionClosed? && tr.entry.bar <= tr.bar < |xs|
      && (xs[tr.bar].exitAtOpen || tr.closed.reason.Liquidation? ==>
            hold >= tr.bar - tr.entry.bar && (xs[tr.bar].exitAtOpen <==> hold == tr.bar - tr.entry.bar) ==>
              Execute(c, capital, m, fs, tr.entry.filled, hold)
              == Done(Outcome(tr.closed.reason.TimeExit?, tr.closed.walletAfter, tr.closed.ts, tr.closed.fundingPaid)))
  {
    hide *;
    RunAgrees(c, capital, equity, bars, xs, m, fs, n, i);
    var tr := Run(c, equity, bars, xs, fs, n).value.trades[i];
    AgreedOutcome(c, capital, tr, xs[tr.bar].exitAtOpen, m, fs, hold);
  }

  lemma RunAgrees(c: Config, capital: real, equity: real, bars: seq<Bar>, xs: seq<Choice>, m: map<int, Bar>, fs: seq<Funding>, n: nat, i: nat)
    requires n <= |bars| && n <= |xs| && Chart(bars, m) && FixedCapital(c, capital)
    requires Run(c, equity, bars, xs, fs, n).Some? && i < |Run(c, equity, bars, xs, fs, n).value.trades|
    ensures var tr := Run(c, equity, bars, xs, fs, n).value.trades[i];
      tr.bar < |xs| && Agrees(c, capital, tr, xs[tr.bar].exitAtOpen, m, fs)
  {
    hide Run, InStep, Agrees, Chart;
    RunShadows(c, capital, equity, bars, xs, m, fs, n);
  }

  lemma AgreedOutcome(c: Config, capital: real, tr: Trade, exitAtOpen: bool, m: map<int, Bar>, fs: seq<Funding>, hold: nat)
    requires Agrees(c, capital, tr, exitAtOpen, m, fs)
    ensures Replayable(tr.entry.filled) && tr.closed.PositionClosed? && tr.entry.bar <= tr.bar
    ensures exitAtOpen || tr.closed.reason.Liquidation? ==>
      hold >= tr.bar - tr.entry.bar && (exitAtOpen <==> hold == tr.bar - tr.entry.bar) ==>
        Execute(c, capital, m, fs, tr.entry.filled, hold)
        == Done(Outcome(tr.closed.reason.TimeExit?, tr.closed.walletAfter, tr.closed.ts, tr.closed.fundingPaid))
  {
    hide Hold;
    if !exitAtOpen && tr.closed.reason.Liquidation? && hold > tr.bar - tr.entry.bar {
      HoldPersists(c, capital, m, fs, tr.entry.filled, tr.bar - tr.entry.bar + 1, hold);
    }
  }

  // ---------------------------------------------------------------- the loop

  /** A dictionary of bars, by the time they open. */
  predicate Keyed(bars: map<int, Bar>) {
    forall t :: t in bars ==> bars[t].openMs == t
  }

  lemma CutHere(fs: seq<Funding>, i: nat, before: int)
    requires Sorted(fs) && i <= |fs| && (forall k :: 0 <= k < i ==> fs[k].ms < before) && (i < |fs| ==> fs[i].ms >= before)
    ensures CutAt(fs, i, before)
  {}

  /** `settle`: the index moves on past minute `t`. */
  method SettleFrom(eng: EngineObject.Engine, fs: seq<Funding>, start: nat, t: int, ghost entry: bool) returns (i: nat)
    requires eng.Valid() && Sorted(fs) && CutAt(fs, start, if entry then t + MINUTE_MS else t)
    modifies eng, eng.position
    ensures eng.Valid() && eng.position == old(eng.position)
    ensures eng.State() == SettleHeldMinute(eng.c, old(eng.State()), fs, t, entry)
    ensures CutAt(fs, i, t + MINUTE_MS)
  {
    hide Sorted, SettleFunding;
    i := start;
    ghost var s := eng.State();
    if s.position.Some? && !entry { SettleEarly(eng.c, s, fs[..i], t, t + MINUTE_MS); }
    while i < |fs| && fs[i].ms < t + MINUTE_MS
      invariant start <= i <= |fs| && eng.Valid() && eng.position == old(eng.position)
      invariant forall k :: 0 <= k < i ==> fs[k].ms < t + MINUTE_MS
      invariant eng.State() == if entry then s else SettleFirst(eng.c, s, fs, i, t)
      invariant entry ==> i == start
    {
      SettleNext(eng.c, s, fs, i, t);
      var ev := eng.OnFunding(fs[i].ms, fs[i].rate, fs[i].mark);
      i := i + 1;
    }
    CutHere(fs, i, t + MINUTE_MS);
    if s.position.Some? && !entry { SettleLate(eng.c, s, fs, i, t, t + MINUTE_MS); }
  }

  /** The last close among the events wins. */
  method Closing(evs: seq<Event>) returns (r: Option<Event>)
    ensures r == LastClose(evs)
  {
    r := None;
    for k := 0 to |evs|
      invariant r == LastClose(evs[..k])
    {
      assert evs[..k + 1][..k] == evs[..k];
      if evs[k].PositionClosed? { r := Some(evs[k]); }
    }
    assert evs[..|evs|] == evs;
  }

  method Ended(eng: EngineObject.Engine, evs: seq<Event>, raised: bool) returns (out: Progress)
    requires eng.Valid()
    ensures out == After(Step(eng.State(), evs, raised))
    ensures out.Running? ==> out.s == eng.State()
  {
    if raised { return Failed; }
    if eng.position != null { return Running(eng.State()); }
    var closed := Closing(evs);
    out := match closed case None => Failed case Some(e) => Finish(e);
  }

  /** One turn of the loop. */
  method HeldTurn(eng: EngineObject.Engine, bars: map<int, Bar>, fs: seq<Funding>, start: nat, t: int, ghost c: Config, ghost entry: bool)
    returns (out: Progress, i: nat)
    requires eng.Valid() && Sorted(fs) && Keyed(bars) && CutAt(fs, start, if entry then t + MINUTE_MS else t) && eng.c == Executor(c)
    modifies eng, eng.position
    ensures eng.Valid() && (eng.position == null || eng.position == old(eng.position) || fresh(eng.position))
    ensures out == if t !in bars then Failed else HoldMinute(c, old(eng.State()), bars[t], fs, entry)
    ensures out.Running? ==> out.s == eng.State()
    ensures CutAt(fs, i, t + MINUTE_MS)
  {
    hide Sorted, OnBar, SettleMinute, After, CutAt;
    i := SettleFrom(eng, fs, start, t, entry);
    if t !in bars { return Failed, i; }
    var ev, raised := eng.OnBar(MarkBarOf(bars[t]), NO_SCRIPT);
    out := Ended(eng, ev, raised);
  }

  /** `execute` over the engine object, with the index that only moves forward. */
  method ExecuteSlot(c: Config, capital: real, bars: map<int, Bar>, fs: seq<Funding>, e: Event, hold: nat) returns (out: Progress)
    requires Replayable(e) && Sorted(fs) && Keyed(bars)
    ensures out == Execute(c, capital, bars, fs, e, hold)
  {
    hide Sorted, HoldMinute, LastMinute, ExitAtOpen, SettleMinute, SettleHeldMinute, After, NextDue, CutAt, RestorePosition, Keyed;
    var eng := new EngineObject.Engine(Executor(c), capital);
    var i := StartAfterMinute(fs, e.ts);
    StartCuts(fs, e.ts);
    var ev, raised := eng.RestorePosition(Restorable(c, fs, e), e.ts);
    if raised {
      HoldPersists(c, capital, bars, fs, e, 0, hold);
      return Failed;
    }
    eng.wallet := capital - TakerFee(c, e.qty, e.entryPrice);
    var n := 0;
    while n < hold
      invariant n <= hold && eng.Valid() && fresh(eng) && (eng.position != null ==> fresh(eng.position)) && eng.c == Executor(c)
      invariant Hold(c, capital, bars, fs, e, n) == Running(eng.State())
      invariant CutAt(fs, i, e.ts + (if n == 0 then 1 else n) * MINUTE_MS)
    {
      out, i := HeldTurn(eng, bars, fs, i, e.ts + n * MINUTE_MS, c, n == 0);
      if !out.Running? {
        HoldPersists(c, capital, bars, fs, e, n + 1, hold);
        return;
      }
      n := n + 1;
    }
    out := ExitSlot(eng, bars, fs, e, hold, i, c);
  }

  /** The exit at the open of the minute after the holding period. */
  method ExitSlot(eng: EngineObject.Engine, bars: map<int, Bar>, fs: seq<Funding>, e: Event, hold: nat, start: nat, ghost c: Config)
    returns (out: Progress)
    requires Replayable(e) && Sorted(fs) && Keyed(bars) && eng.Valid() && eng.c == Executor(c)
    requires CutAt(fs, start, e.ts + (if hold == 0 then 1 else hold) * MINUTE_MS)
    modifies eng, eng.position
    ensures
      var t := e.ts + hold * MINUTE_MS;
      out == if t !in bars then Failed else LastMinute(c, old(eng.State()), bars[t], fs, hold == 0)
  {
    hide Sorted, LiquidateIfOpenBeyond, CloseNow, SettleMinute, After, CutAt;
    var t := e.ts + hold * MINUTE_MS;
    var i := SettleFrom(eng, fs, start, t, hold == 0);
    if t !in bars { return Failed; }
    var ev, raised := eng.LiquidateIfOpenBeyond(bars[t].open, t);
    if !raised && eng.position != null {
      var closed;
      closed, raised := eng.CloseNow(bars[t].open, t, TimeExit, NO_EXIT);
      ev := ev + closed;
    }
    out := Ended(eng, ev, raised);
    if out.Running? { return Failed; }
  }
}
