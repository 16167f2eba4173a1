/** Which liquidation price a held PAPER position is judged by (paper/engine.py:329-354, 402-431, 526-544). A position of
    notional N at leverage L has N/L in its isolated wallet, less the fee and the funding paid. A fee rate t with
    t * N == taker * N + funding takes the same from it, so the estimate is asked at that rate. */
module LiqPrices {
  import opened Types
  import opened Steps
  import opened EngineTypes
  import opened EngineModel
  import opened Accounting
  import opened PaperRuns
  import opened ExitPrices
  import opened EntryRules
  import opened Restore
  import opened Runtime

  /** The rate that takes fee and funding from the isolated wallet together. */
  predicate RateFor(c: Config, p: Position, paid: real, rate: real) {
    rate * p.Notional() == c.taker * p.Notional() + paid
  }

  /** `est` is what the estimate says of the position once that much funding has been paid. */
  ghost predicate EstimateIs(c: Config, p: Position, paid: real, est: Option<LiqEstimate>) {
    exists rate :: RateFor(c, p, paid, rate) && c.liquidation(p.direction, p.entryPrice, p.Notional(), p.leverage, rate) == est
  }

  /** `price` is the estimate at the last of these funding totals for which there is one. */
  ghost predicate AsOf(c: Config, p: Position, totals: seq<real>, price: real) {
    exists k: nat, est: Option<LiqEstimate> :: 0 <= k < |totals| && est.Some? && EstimateIs(c, p, totals[k], est) && est.value.price == price
                     && forall j :: k < j < |totals| ==> EstimateIs(c, p, totals[j], None)
  }

  /** The totals end with what has been paid so far, and the liquidation price is as of the last that has an estimate. */
  ghost predicate LiqRight(c: Config, p: Position, totals: seq<real>) {
    totals != [] && totals[|totals| - 1] == p.fundingPaid && AsOf(c, p, totals, p.liqPrice)
  }

  lemma RateIs(c: Config, p: Position, paid: real)
    ensures p.Notional() != 0.0 && RateFor(c, p, paid, c.taker + paid / p.Notional())
  {
    NotionalIsNonzero(p);
    var n := p.Notional();
    var q := paid / n;
    assert q * n == paid;
    assert (c.taker + q) * n == c.taker * n + q * n;
  }

  lemma EstimateThere(c: Config, p: Position, paid: real)
    ensures p.Notional() != 0.0
    ensures EstimateIs(c, p, paid, c.liquidation(p.direction, p.entryPrice, p.Notional(), p.leverage, c.taker + paid / p.Notional()))
  {
    RateIs(c, p, paid);
  }

  /** The estimate asks about nothing else of a position. */
  predicate SameTerms(p: Position, q: Position) {
    q.direction == p.direction && q.entryPrice == p.entryPrice && q.qty == p.qty && q.leverage == p.leverage
  }

  lemma SameEstimate(c: Config, p: Position, q: Position, paid: real, est: Option<LiqEstimate>)
    requires SameTerms(p, q) && EstimateIs(c, p, paid, est)
    ensures EstimateIs(c, q, paid, est)
  {
    assert q.Notional() == p.Notional();
    var rate :| RateFor(c, p, paid, rate) && c.liquidation(p.direction, p.entryPrice, p.Notional(), p.leverage, rate) == est;
    assert RateFor(c, q, paid, rate);
  }

  /** One more total: a new estimate replaces the price, and without one the price stays. */
  lemma OneMore(c: Config, p: Position, totals: seq<real>, q: Position, est: Option<LiqEstimate>)
    requires LiqRight(c, p, totals) && SameTerms(p, q) && EstimateIs(c, q, q.fundingPaid, est)
    requires q.liqPrice == if est.Some? then est.value.price else p.liqPrice
    ensures LiqRight(c, q, totals + [q.fundingPaid])
  {
    hide EstimateIs;
    var all, n := totals + [q.fundingPaid], |totals|;
    assert all[n] == q.fundingPaid;
    if est.Some? {
      assert EstimateIs(c, q, all[n], est);
    } else {
      var k: nat, e: Option<LiqEstimate> :| 0 <= k < |totals| && e.Some? && EstimateIs(c, p, totals[k], e) && e.value.price == p.liqPrice
                  && forall j :: k < j < |totals| ==> EstimateIs(c, p, totals[j], None);
      SameEstimate(c, p, q, totals[k], e);
      assert EstimateIs(c, q, all[k], e);
      forall j | k < j < |all| ensures EstimateIs(c, q, all[j], None) {
        if j < n { SameEstimate(c, p, q, totals[j], None); }
      }
    }
  }

  /** Nothing paid and nothing re-estimated. */
  lemma SameTotal(c: Config, p: Position, totals: seq<real>, q: Position)
    requires LiqRight(c, p, totals) && SameTerms(p, q) && q.fundingPaid == p.fundingPaid && q.liqPrice == p.liqPrice
    ensures LiqRight(c, q, totals + [q.fundingPaid])
  {
    hide EstimateIs;
    var k: nat, e: Option<LiqEstimate> :| 0 <= k < |totals| && e.Some? && EstimateIs(c, p, totals[k], e) && e.value.price == p.liqPrice
                && forall j :: k < j < |totals| ==> EstimateIs(c, p, totals[j], None);
    var n := |totals| - 1;
    if k == n {
      SameEstimate(c, p, q, totals[n], e);
      OneMore(c, p, totals, q, e);
    } else {
      SameEstimate(c, p, q, totals[n], None);
      OneMore(c, p, totals, q, None);
    }
  }

  /** A settlement estimates anew. */
  lemma SettledRight(c: Config, s: EngineState, totals: seq<real>, ts: int, rate: real, mark: real)
    requires s.position.Some? && LiqRight(c, s.position.value, totals)
    ensures
      var q := SettleFunding(c, s, ts, rate, mark).st.position;
      q.Some? && LiqRight(c, q.value, totals + [q.value.fundingPaid])
  {
    hide LiqRight, EstimateIs, FundingDue;
    var p := s.position.value;
    var paid: Position := p.(fundingPaid := p.fundingPaid + FundingDue(p, rate, mark));
    EstimateThere(c, paid, paid.fundingPaid);
    var est := c.liquidation(p.direction, p.entryPrice, paid.Notional(), p.leverage, c.taker + paid.fundingPaid / paid.Notional());
    var q := RefreshLiquidation(c, paid);
    SameEstimate(c, paid, q, paid.fundingPaid, est);
    OneMore(c, p, totals, q, est);
  }

  /** What the judgement of a tick or bar leaves open is the same as far as the estimate goes, even when the exit raises. */
  lemma JudgedSame(c: Config, s: EngineState, ts: int, low: real, high: real, slRef: real, tpRef: real, mark: real)
    requires c.mode.Paper? && s.position.Some?
    ensures
      var q := Judge(c, s, ts, low, high, slRef, tpRef, mark, NO_EXIT).st.position;
      q.Some? ==>
        SameTerms(s.position.value, q.value) && q.value.fundingPaid == s.position.value.fundingPaid && q.value.liqPrice == s.position.value.liqPrice
  {
    hide DoExit, Multiple, LiquidationLoss, Pnl, TakerFee;
    var p := s.position.value;
    PaperExitEnds(c, s, StopReason(p), slRef, ts);
    PaperExitEnds(c, s, TakeProfit, tpRef, ts);
  }

  /** A paper exit leaves nothing, or raises and leaves everything. */
  lemma PaperExitEnds(c: Config, s: EngineState, reason: ExitReason, ref: real, ts: int)
    requires c.mode.Paper? && s.position.Some?
    ensures
      var step := DoExit(c, s, reason, ref, ts, NO_EXIT);
      if step.raised then step.st == s else step.st.position.None?
  {
    hide DoExit, Multiple;
    PaperExitRaises(c, s, reason, ref, ts);
    if Multiple(s.position.value.qty, c.rules.marketStep) { PaperExitCloses(c, s, reason, ref, ts, NO_EXIT); }
  }

  /** The totals after a step that leaves `q` open. */
  function More(totals: seq<real>, q: Option<Position>): seq<real> {
    if q.None? then [] else totals + [q.value.fundingPaid]
  }

  ghost predicate StateRight(c: Config, s: EngineState, totals: seq<real>) {
    s.position.Some? ==> LiqRight(c, s.position.value, totals)
  }

  lemma KeptRight(c: Config, p: Position, totals: seq<real>, st: EngineState)
    requires LiqRight(c, p, totals)
    requires st.position.Some? ==>
      SameTerms(p, st.position.value) && st.position.value.fundingPaid == p.fundingPaid && st.position.value.liqPrice == p.liqPrice
    ensures StateRight(c, st, More(totals, st.position))
  {
    hide LiqRight;
    if st.position.Some? { SameTotal(c, p, totals, st.position.value); }
  }

  lemma FundedRight(c: Config, s: EngineState, totals: seq<real>, t: MarkTick)
    requires s.position.Some? && LiqRight(c, s.position.value, totals)
    ensures var q := FundingOnTick(c, s, t).st.position; q.Some? && LiqRight(c, q.value, totals + [q.value.fundingPaid])
  {
    hide LiqRight, SettleFunding;
    SameTotal(c, s.position.value, totals, s.position.value);
    if s.lastTick.Some? {
      var prev := s.lastTick.value;
      SettledRight(c, s.(restoredFunding := None), totals, prev.nextFunding, prev.rate, prev.mark);
      SettleKeepsPosition(c, s.(restoredFunding := None), prev.nextFunding, prev.rate, prev.mark);
    }
  }

  lemma SettleKeepsPosition(c: Config, s: EngineState, ts: int, rate: real, mark: real)
    requires s.position.Some?
    ensures SettleFunding(c, s, ts, rate, mark).st.position.Some?
  {}

  /** A tick on a held position, whether it raises or not. */
  lemma TickRight(c: Config, s: EngineState, totals: seq<real>, t: MarkTick)
    requires c.mode.Paper? && s.pending.None? && s.position.Some? && LiqRight(c, s.position.value, totals)
    ensures StateRight(c, OnTick(c, s, t, NO_SCRIPT).st, More(totals, OnTick(c, s, t, NO_SCRIPT).st.position))
  {
    hide LiqRight, FundingOnTick, Judge, OnTick;
    if GridOk(c, t) {
      TickIsFundThenJudge(c, s, t, NO_SCRIPT);
      FundedRight(c, s, totals, t);
      var funded := FundingOnTick(c, s, t).st.(lastTick := Some(t));
      var judged := Judge(c, funded, t.ts, t.mark, t.mark, t.mark, t.mark, t.mark, NO_EXIT).st;
      JudgedSame(c, funded, t.ts, t.mark, t.mark, t.mark, t.mark, t.mark);
      if judged.position.Some? {
        Merge(c, s.position.value, totals, funded.position.value, judged.position.value);
      }
    } else {
      OffGridTick(c, s, t, NO_SCRIPT);
      SameTotal(c, s.position.value, totals, s.position.value);
    }
  }

  lemma Merge(c: Config, p: Position, totals: seq<real>, funded: Position, q: Position)
    requires LiqRight(c, funded, totals + [funded.fundingPaid])
    requires SameTerms(funded, q) && q.fundingPaid == funded.fundingPaid && q.liqPrice == funded.liqPrice
    ensures LiqRight(c, q, totals + [q.fundingPaid])
  {
    hide EstimateIs;
    var all := totals + [funded.fundingPaid];
    var k: nat, e: Option<LiqEstimate> :| 0 <= k < |all| && e.Some? && EstimateIs(c, funded, all[k], e) && e.value.price == funded.liqPrice
                && forall j :: k < j < |all| ==> EstimateIs(c, funded, all[j], None);
    SameEstimate(c, funded, q, all[k], e);
    forall j | k < j < |all| ensures EstimateIs(c, q, all[j], None) { SameEstimate(c, funded, q, all[j], None); }
  }

  // ---------------------------------------------------------------- runs of the engine

  lemma FeedRight(c: Config, s: EngineState, totals: seq<real>, f: Feed)
    requires Holding(c, s) && LiqRight(c, s.position.value, totals)
    ensures StateRight(c, FeedStep(c, s, f).st, More(totals, FeedStep(c, s, f).st.position))
  {
    hide LiqRight, OnTick, Judge, SettleFunding, Multiple, BarSlRef, LiquidationLoss;
    var p := s.position.value;
    match f
    case Tick(t) => TickRight(c, s, totals, t);
    case Bar(b) =>
      BarHeld(c, s, b);
      JudgedSame(c, s, b.closeMs, b.low, b.high, BarSlRef(p, b.open), TargetOf(p), b.close);
      JudgeHeld(c, s, b.closeMs, b.low, b.high, BarSlRef(p, b.open), TargetOf(p), b.close);
      BarIsJudge(c, s, b, NO_SCRIPT);
      KeptRight(c, p, totals, FeedStep(c, s, f).st);
    case Funding(ts, rate, mark) => SettledRight(c, s, totals, ts, rate, mark);
    case Gap(open, ts) => KeptRight(c, p, totals, FeedStep(c, s, f).st);
  }

  /** The funding totals along a feed, the one before it first. */
  function Totals(c: Config, s: EngineState, fs: seq<Feed>): seq<real>
    decreases |fs|
  {
    if fs == [] then More([], s.position) else More(Totals(c, s, fs[..|fs| - 1]), FeedRun(c, s, fs).position)
  }

  /** Main theorem on the engine. Along a surviving run the liquidation price is the estimate at the last funding total of the
      run for which there was one. */
  lemma {:induction false} LiqPriceOverRun(c: Config, s: EngineState, fs: seq<Feed>)
    requires Survives(c, s, fs) && LiqRight(c, s.position.value, [s.position.value.fundingPaid])
    ensures FeedRun(c, s, fs).position.Some? && LiqRight(c, FeedRun(c, s, fs).position.value, Totals(c, s, fs))
    decreases |fs|
  {
    hide LiqRight, FeedStep;
    SurvivingRun(c, s, fs);
    if fs != [] {
      var n := |fs| - 1;
      SurvivingRun(c, s, fs[..n]);
      LiqPriceOverRun(c, s, fs[..n]);
      FeedRight(c, FeedRun(c, s, fs[..n]), Totals(c, s, fs[..n]), fs[n]);
    } else {
      assert More([], s.position) == [s.position.value.fundingPaid];
    }
  }

  // ---------------------------------------------------------------- runs of the bot, entries and restarts included

  /** An entry starts from the estimate for no funding. */
  lemma EntryRight(c: Config, s: EngineState, mark: real, ts: int)
    requires c.mode.Paper? && s.pending.Some? && s.position.None?
    ensures
      var st := ExecuteEntry(c, s, mark, ts, NO_ENTRY, NO_EXIT).st;
      && st.pending.None? && (st.position.Some? ==> LiqRight(c, st.position.value, [0.0]) && st.position.value.fundingPaid == 0.0)
  {
    hide ExecuteEntry, QuotedAt, StopIs, TargetIs, TrailIs, Announces, ClosedAt, Opens, LiqRight, EntryEstimate;
    var quote, sl := PaperEntry(c, s, mark, ts);
    var i := s.pending.value;
    var step, asked := ExecuteEntry(c, s, mark, ts, NO_ENTRY, NO_EXIT), Asked(c, s, i, quote, sl);
    if step.st.position.Some? {
      var p: Position :| FreshPosition(i, asked.value, p, Sum(asked.value.chunks[..GoodPrefix(asked.value.chunks, c.rules)]), quote, ts)
                         && p.entryCommission == p.qty * quote * c.taker && OpenedAs(c, s, p, mark, step);
      FreshIsRight(c, p);
    }
  }

  lemma FreshIsRight(c: Config, p: Position)
    requires PassesGate(c, p) && p.fundingPaid == 0.0 && Some(p.liqPrice) == EstimatedPrice(EntryEstimate(c, p))
    ensures LiqRight(c, p, [0.0])
  {
    assert RateFor(c, p, 0.0, c.taker);
    assert EstimateIs(c, p, 0.0, EntryEstimate(c, p));
    assert [0.0][0] == 0.0;
  }

  /** A tick on a flat engine leaves nothing, or a fresh position. */
  lemma FlatTickRight(c: Config, s: EngineState, t: MarkTick)
    requires EngineOk(c, s) && s.position.None?
    ensures
      var q := OnTick(c, s, t, NO_SCRIPT).st.position;
      q.Some? ==> LiqRight(c, q.value, [q.value.fundingPaid])
  {
    hide ExecuteEntry, Judge, LiqRight;
    var s1 := FundingOnTick(c, s, t).st.(lastTick := Some(t));
    if GridOk(c, t) && s1.pending.Some? && t.ts > s1.pending.value.decidedMs {
      EntryRight(c, s1, t.mark, t.ts);
      var entered := ExecuteEntry(c, s1, t.mark, t.ts, NO_ENTRY, NO_EXIT).st;
      if entered.position.Some? {
        JudgedSame(c, entered, t.ts, t.mark, t.mark, t.mark, t.mark, t.mark);
        var q := Judge(c, entered, t.ts, t.mark, t.mark, t.mark, t.mark, t.mark, NO_EXIT).st.position;
        if q.Some? {
          assert [] + [entered.position.value.fundingPaid] == [0.0];
          Merge(c, entered.position.value, [], entered.position.value, q.value);
          assert [] + [q.value.fundingPaid] == [q.value.fundingPaid];
        }
      } else {
        JudgeFlat(c, entered, t.ts, t.mark, t.mark, t.mark, t.mark, t.mark);
      }
    } else {
      JudgeFlat(c, s1, t.ts, t.mark, t.mark, t.mark, t.mark, t.mark);
    }
  }

  /** A restored position starts from the estimate for what it has paid, under the rules of now. */
  lemma RestoredRight(c: Config, s: EngineState, st: PosState, ts: int)
    requires !RestorePosition(c, s, st, ts).raised
    ensures
      var q := RestorePosition(c, s, st, ts).st.position;
      q.Some? && q.value.fundingPaid == st.position.fundingPaid && LiqRight(c, q.value, [q.value.fundingPaid])
  {
    var p := st.position;
    EstimateThere(c, p, p.fundingPaid);
    var est := c.liquidation(p.direction, p.entryPrice, p.Notional(), p.leverage, c.taker + p.fundingPaid / p.Notional());
    var q: Position := p.(liqPrice := est.value.price);
    SameEstimate(c, p, q, p.fundingPaid, est);
    assert [q.fundingPaid][0] == q.fundingPaid;
  }

  /** The funding totals of the position a bot holds: they start anew with each position and each restart. */
  function TotalsAfter(bot: Bot, i: Input, totals: seq<real>): seq<real>
    requires i.Restart? ==> i.rules.Valid()
  {
    var p := Step1(bot, i).engine.position;
    More(if i.Restart? || bot.engine.position.None? then [] else totals, p)
  }

  lemma StepRight(bot: Bot, i: Input, totals: seq<real>)
    requires EngineOk(bot.c, bot.engine) && InputOk(i) && StateRight(bot.c, bot.engine, totals)
    ensures StateRight(Step1(bot, i).c, Step1(bot, i).engine, TotalsAfter(bot, i, totals))
  {
    hide LiqRight, OnTick, CloseNow, RequestEntry, Deliver, Record, Flush;
    var s := bot.engine;
    forall x: real ensures [] + [x] == [x] {}
    match i
    case Mark(t, ok) => if s.position.Some? { TickRight(bot.c, s, totals, t); } else { FlatTickRight(bot.c, s, t); }
    case BarClose(ts, ok) => StaysRight(bot.c, s, totals);
    case Close(mark, ts, reason, ok) => ClosedRight(bot.c, s, totals, mark, ts, reason);
    case Submit(intent) => RequestIff(bot.c, s, intent); StaysRight(bot.c, s, totals);
    case Cancel(ts, ok) => StaysRight(bot.c, s, totals);
    case Unblock => StaysRight(bot.c, s, totals);
    case Retry(n) => StaysRight(bot.c, s, totals);
    case Restart(ts, rules, arith, capital, blocked, ok1, ok2) => RebootRight(bot, i);
  }

  lemma StaysRight(c: Config, s: EngineState, totals: seq<real>)
    requires StateRight(c, s, totals)
    ensures s.position.Some? ==> LiqRight(c, s.position.value, totals + [s.position.value.fundingPaid])
  {
    hide LiqRight;
    if s.position.Some? { SameTotal(c, s.position.value, totals, s.position.value); }
  }

  lemma ClosedRight(c: Config, s: EngineState, totals: seq<real>, mark: real, ts: int, reason: ExitReason)
    requires c.mode.Paper? && StateRight(c, s, totals)
    ensures
      var q := CloseNow(c, s, mark, ts, reason, NO_EXIT).st.position;
      q.Some? ==> s.position.Some? && LiqRight(c, q.value, totals + [q.value.fundingPaid])
  {
    hide LiqRight, DoExit;
    if s.position.Some? {
      PaperExitEnds(c, s, reason, mark, ts);
      StaysRight(c, s, totals);
    }
  }

  lemma RebootRight(bot: Bot, i: Input)
    requires i.Restart? && InputOk(i)
    ensures StateRight(Step1(bot, i).c, Step1(bot, i).engine, TotalsAfter(bot, i, []))
  {
    hide LiqRight, Decide, RestorePosition, Deliver, Record, DbOpenPosition;
    RebootCases(bot, i.rules, i.arith, i.capital, i.blocked, i.ts, i.ok1, i.ok2);
    var b := Rebooted(bot, i.rules, i.arith, i.capital, i.blocked);
    forall x: real ensures [] + [x] == [x] {}
    if !MustAbandon(bot, i.rules, i.arith, i.capital, i.blocked, i.ts) && !Decide(bot.db, i.arith).NoPosition? {
      RestoredRight(b.c, b.engine, Decide(bot.db, i.arith).state, i.ts);
    }
  }

  function RunTotals(bot: Bot, inputs: seq<Input>, totals: seq<real>): seq<real>
    requires forall k :: 0 <= k < |inputs| && inputs[k].Restart? ==> inputs[k].rules.Valid()
    decreases |inputs|
  {
    if inputs == [] then totals else RunTotals(Step1(bot, inputs[0]), inputs[1..], TotalsAfter(bot, inputs[0], totals))
  }

  lemma {:induction false} RunRight(bot: Bot, l: Option<LedgerPos>, root: nat, inputs: seq<Input>, totals: seq<real>)
    requires Inv(bot, l, root) && RunOk(inputs) && StateRight(bot.c, bot.engine, totals)
    ensures StateRight(Run(bot, inputs).c, Run(bot, inputs).engine, RunTotals(bot, inputs, totals))
    decreases |inputs|
  {
    hide Stored, QueueOk, Shows, LiqRight, Step1, TotalsAfter, EngineOk;
    if inputs != [] {
      var l1, r1 := StepKeeps(bot, l, root, inputs[0]);
      StepRight(bot, inputs[0], totals);
      RunRight(Step1(bot, inputs[0]), l1, r1, inputs[1..], TotalsAfter(bot, inputs[0], totals));
    }
  }

  /** Main theorem on the bot. After any run, with any failures, crashes and restarts under any PAPER rules, the liquidation
      price a position is judged by is the estimate, by the rules of now, at the last funding total since its entry or the
      last restart for which there is one. */
  lemma LiqPriceIsRight(bot: Bot, inputs: seq<Input>)
    requires Fresh(bot) && RunOk(inputs)
    ensures
      var b := Run(bot, inputs);
      b.engine.position.Some? ==> LiqRight(b.c, b.engine.position.value, RunTotals(bot, inputs, []))
  {
    FreshKeeps(bot);
    RunRight(bot, None, 0, inputs, []);
  }
}
