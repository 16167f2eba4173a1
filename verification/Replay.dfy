module Replay {
  // The back-test drivers over the engine (backtest/engine_replay.py, backtest/evaluate_t4.py): the per-minute replay
  // loop and the independent ledger check of the trades it emits, in fixed-capital mode. Strategies are arbitrary:
  // each minute brings any hook answer and any entry request.

  import opened Types
  import opened Steps
  import opened EngineTypes
  import opened EngineModel
  import opened PaperRuns
  import EngineObject

  datatype Bar = Bar(openMs: int, open: real, high: real, low: real, close: real)

  datatype Funding = Funding(ms: int, rate: real, mark: real)

  function MarkBarOf(b: Bar): MarkBar {
    MarkBar(b.openMs, b.openMs + MINUTE_MS - 1, b.open, b.high, b.low, b.close)
  }

  predicate Minutes(bars: seq<Bar>) {
    && (forall i :: 0 <= i < |bars| ==> bars[i].openMs % MINUTE_MS == 0)
    && (forall i, j :: 0 <= i < j < |bars| ==> bars[i].openMs + MINUTE_MS <= bars[j].openMs)
  }

  /** What the strategy answers for one minute. */
  datatype Choice = Choice(exitAtOpen: bool, intent: Option<EntryIntent>)

  datatype OpenTrade = OpenTrade(bar: nat, entryMs: int, entryMark: real, walletBefore: real, filled: Event)

  datatype Trade = Trade(entry: OpenTrade, closed: Event, exitRef: real, bar: nat)

  datatype ReplayState = ReplayState(eng: EngineState, trades: seq<Trade>, held: Option<OpenTrade>)

  // ---------------------------------------------------------------- the loop, minute by minute

  predicate Due(f: Funding, lo: int, hi: int) {
    lo <= f.ms < hi
  }

  /** Settle the fundings of one minute, oldest first. */
  function SettleDue(c: Config, s: EngineState, fs: seq<Funding>, lo: int, hi: int): (r: EngineState)
    requires s.position.Some?
    ensures r.position.Some?
    decreases |fs|
  {
    if fs == [] then s
    else
      var f := fs[|fs| - 1];
      var before := SettleDue(c, s, fs[..|fs| - 1], lo, hi);
      if Due(f, lo, hi) then SettleFunding(c, before, f.ms, f.rate, f.mark).st else before
  }

  function SettleMinute(c: Config, s: EngineState, fs: seq<Funding>, t: int): EngineState {
    if s.position.None? then s else SettleDue(c, s, fs, t, t + MINUTE_MS)
  }

  /** The time exit: a gap through the liquidation price liquidates at the open, anything else closes there. */
  function ExitAtOpen(c: Config, s: EngineState, open: real, ts: int): Step {
    var gap := LiquidateIfOpenBeyond(c, s, open, ts);
    if gap.raised || gap.st.position.None? then gap else Then(gap, CloseNow(c, gap.st, open, ts, TimeExit, NO_EXIT))
  }

  function LiqPriceNow(s: EngineState): Option<real> {
    if s.position.None? then None else Some(s.position.value.liqPrice)
  }

  datatype Book = Book(trades: seq<Trade>, held: Option<OpenTrade>, liqNow: Option<real>)

  /** Mark the exit is measured against: the common reference of its fills, or the liquidation price. */
  function ExitRef(bk: Book, e: Event): real
    requires bk.held.Some? && bk.held.value.filled.EntryFilled? && e.PositionClosed?
  {
    if e.fills != [] then e.fills[0].refMark else if bk.liqNow.Some? then bk.liqNow.value else bk.held.value.filled.sl
  }

  function BookEvent(bk: Book, e: Event, k: nat, b: Bar, walletBefore: real): Book {
    match e
    case EntryFilled(_, _, _, _, _, _, liqPrice, _, _, _) =>
      Book(bk.trades, Some(OpenTrade(k, b.openMs, b.open, walletBefore, e)), Some(liqPrice))
    case PositionClosed(_, _, _, _, _, _, _, _, _, _, _) =>
      if bk.held.Some? && bk.held.value.filled.EntryFilled? then
        Book(bk.trades + [Trade(bk.held.value, e, ExitRef(bk, e), k)], None, bk.liqNow)
      else bk
    case _ => bk
  }

  function BookAll(bk: Book, evs: seq<Event>, k: nat, b: Bar, walletBefore: real): Book
    decreases |evs|
  {
    if evs == [] then bk
    else BookEvent(BookAll(bk, evs[..|evs| - 1], k, b, walletBefore), evs[|evs| - 1], k, b, walletBefore)
  }

  /** The engine's part of minute `k`. */
  function EngineMinute(c: Config, s: EngineState, b: Bar, exitAtOpen: bool): Step {
    if exitAtOpen then (if s.pending.Some? then Step(s, [], true) else ExitAtOpen(c, s, b.open, b.openMs))
    else OnBar(c, s, MarkBarOf(b), NO_SCRIPT)
  }

  /** One minute; `None` is an exception that ends the replay. */
  function Minute(c: Config, st: ReplayState, k: nat, b: Bar, x: Choice, fs: seq<Funding>): Option<ReplayState> {
    var s := SettleMinute(c, st.eng, fs, b.openMs);
    var step := EngineMinute(c, s, b, x.exitAtOpen);
    if step.raised then None
    else
      var before := if c.sizingCapital.None? then s.wallet else c.sizingCapital.value;
      var bk := BookAll(Book(st.trades, st.held, LiqPriceNow(s)), step.events, k, b, before);
      var asked := if x.intent.None? then step.st else RequestEntry(c, step.st, x.intent.value).st;
      if x.intent.Some? && InvalidIntent(c, step.st, x.intent.value) then None
      else if x.exitAtOpen && asked.pending.Some? then None else Some(ReplayState(asked, bk.trades, bk.held))
  }

  function Begin(equity: real): ReplayState {
    ReplayState(EngineState(equity, None, None, [], None, None, None), [], None)
  }

  function Run(c: Config, equity: real, bars: seq<Bar>, xs: seq<Choice>, fs: seq<Funding>, n: nat): Option<ReplayState>
    requires n <= |bars| && n <= |xs|
  {
    if n == 0 then Some(Begin(equity))
    else
      match Run(c, equity, bars, xs, fs, n - 1)
      case None => None
      case Some(st) => Minute(c, st, n - 1, bars[n - 1], xs[n - 1], fs)
  }

  // ---------------------------------------------------------------- the ledger check

  /** Funding recomputed from the table: buckets after the entry up to the exit minute. */
  function Recomputed(signed: real, fs: seq<Funding>, entryMs: int, exitMinute: int): real
    decreases |fs|
  {
    if fs == [] then 0.0
    else
      var f := fs[|fs| - 1];
      Recomputed(signed, fs[..|fs| - 1], entryMs, exitMinute)
      + (if entryMs < MinuteStart(f.ms) <= exitMinute then signed * f.mark * f.rate else 0.0)
  }

  predicate OneReference(fills: seq<Fill>, mark: real) {
    fills != [] && forall f :: f in fills ==> f.refMark == mark
  }

  predicate SameTimes(tr: Trade)
    requires tr.entry.filled.EntryFilled? && tr.closed.PositionClosed?
  {
    && tr.entry.entryMs == tr.entry.filled.ts
    && tr.closed.direction == tr.entry.filled.direction && tr.closed.entryPrice == tr.entry.filled.entryPrice
  }

  /** Both wallet identities and the funding identity. */
  predicate LedgerPasses(tr: Trade, fs: seq<Funding>, liqFee: real, capital: real)
    requires tr.entry.filled.EntryFilled? && tr.closed.PositionClosed?
  {
    var fi, ex := tr.entry.filled, tr.closed;
    var signed := if fi.direction.Long? then fi.qty else -fi.qty;
    && SameTimes(tr)
    && tr.entry.walletBefore == capital
    && Recomputed(signed, fs, tr.entry.entryMs, MinuteStart(ex.ts)) == ex.fundingPaid
    && WalletIdentity(tr, liqFee, capital)
  }

  predicate WalletIdentity(tr: Trade, liqFee: real, capital: real)
    requires tr.entry.filled.EntryFilled? && tr.closed.PositionClosed?
  {
    var fi, ex := tr.entry.filled, tr.closed;
    if ex.reason.Liquidation? then
      var loss := fi.qty * fi.entryPrice / fi.leverage as real - fi.entryCommission - ex.fundingPaid + fi.qty * tr.exitRef * liqFee;
      ex.pnl == -loss && ex.walletAfter == capital - fi.entryCommission - ex.fundingPaid - loss
    else
      && OneReference(ex.fills, tr.exitRef)
      && FillQty(ex.fills) == fi.qty
      && ex.exitPrice == Some(Vwap(ex.fills))
      && ex.pnl == (if fi.direction.Long? then (Vwap(ex.fills) - fi.entryPrice) * fi.qty else (fi.entryPrice - Vwap(ex.fills)) * fi.qty)
      && ex.walletAfter == capital - fi.entryCommission - ex.fundingPaid + ex.pnl - ex.exitCommission
  }

  predicate IsTrade(tr: Trade) {
    tr.entry.filled.EntryFilled? && tr.closed.PositionClosed?
  }

  /** Amounts a trade could be misreported by. */
  datatype Slip = Slip(entryFee: real, exitFee: real, pnl: real, funding: real, wallet: real)

  function Misreported(tr: Trade, off: Slip): (r: Trade)
    requires IsTrade(tr)
    ensures IsTrade(r)
  {
    match (tr.entry.filled, tr.closed)
    case (EntryFilled(ts, d, q, price, lev, sl, liqPrice, fills, fee, adopted),
          PositionClosed(cts, cd, reason, cq, cprice, exitPrice, cfills, pnl, exitFee, funding, wallet)) =>
      Trade(tr.entry.(filled := EntryFilled(ts, d, q, price, lev, sl, liqPrice, fills, fee + off.entryFee, adopted)),
            PositionClosed(cts, cd, reason, cq, cprice, exitPrice, cfills, pnl + off.pnl, exitFee + off.exitFee, funding + off.funding, wallet + off.wallet),
            tr.exitRef, tr.bar)
  }

  /** The check is sharp: a misreport of a trade that passes is passed too only if the funding is right and the errors cancel.
      After a liquidation the result must be off by the entry fee and the wallet by nothing; after any other exit the result
      by nothing and the wallet by both fees. */
  lemma MisreportPassesIff(tr: Trade, fs: seq<Funding>, liqFee: real, capital: real, off: Slip)
    requires IsTrade(tr) && LedgerPasses(tr, fs, liqFee, capital)
    ensures
      LedgerPasses(Misreported(tr, off), fs, liqFee, capital)
      <==> off.funding == 0.0
           && (if tr.closed.reason.Liquidation? then off.pnl == off.entryFee && off.wallet == 0.0
               else off.pnl == 0.0 && off.wallet == -off.entryFee - off.exitFee)
  {
    hide Recomputed, Vwap, FillQty, OneReference, WalletIdentity;
    MisreportedTimes(tr, off);
    if off.funding == 0.0 {
      if tr.closed.reason.Liquidation? {
        LiquidationMisreport(tr, liqFee, capital, off);
      } else {
        ExitMisreport(tr, liqFee, capital, off);
      }
    }
  }

  lemma MisreportedTimes(tr: Trade, off: Slip)
    requires IsTrade(tr)
    ensures
      var r := Misreported(tr, off);
      && (SameTimes(r) <==> SameTimes(tr))
      && r.entry == tr.entry.(filled := r.entry.filled) && r.closed.fundingPaid == tr.closed.fundingPaid + off.funding
      && r.entry.filled.qty == tr.entry.filled.qty && r.entry.filled.direction == tr.entry.filled.direction && r.closed.ts == tr.closed.ts
  {}

  lemma LiquidationMisreport(tr: Trade, liqFee: real, capital: real, off: Slip)
    requires IsTrade(tr) && tr.closed.reason.Liquidation? && WalletIdentity(tr, liqFee, capital) && off.funding == 0.0
    ensures WalletIdentity(Misreported(tr, off), liqFee, capital) <==> off.pnl == off.entryFee && off.wallet == 0.0
  {}

  lemma ExitMisreport(tr: Trade, liqFee: real, capital: real, off: Slip)
    requires IsTrade(tr) && !tr.closed.reason.Liquidation? && WalletIdentity(tr, liqFee, capital) && off.funding == 0.0
    ensures WalletIdentity(Misreported(tr, off), liqFee, capital) <==> off.pnl == 0.0 && off.wallet == -off.entryFee - off.exitFee
  {
    hide Vwap, FillQty, OneReference;
  }

  // ---------------------------------------------------------------- sums of funding

  function Paid(signed: real, fs: seq<Funding>, lo: int, hi: int): real
    decreases |fs|
  {
    if fs == [] then 0.0
    else
      var f := fs[|fs| - 1];
      Paid(signed, fs[..|fs| - 1], lo, hi) + (if Due(f, lo, hi) then signed * f.mark * f.rate else 0.0)
  }

  lemma {:induction false} PaidSplits(signed: real, fs: seq<Funding>, lo: int, mid: int, hi: int)
    requires lo <= mid <= hi
    ensures Paid(signed, fs, lo, hi) == Paid(signed, fs, lo, mid) + Paid(signed, fs, mid, hi)
    decreases |fs|
  {
    if fs != [] {
      PaidSplits(signed, fs[..|fs| - 1], lo, mid, hi);
    }
  }

  lemma {:induction false} PaidNothing(signed: real, fs: seq<Funding>, lo: int, hi: int)
    requires forall i :: 0 <= i < |fs| ==> !Due(fs[i], lo, hi)
    ensures Paid(signed, fs, lo, hi) == 0.0
    decreases |fs|
  {
    if fs != [] {
      PaidNothing(signed, fs[..|fs| - 1], lo, hi);
    }
  }

  lemma MinuteCell(ms: int, entryMs: int, exitMinute: int)
    requires entryMs % MINUTE_MS == 0 && exitMinute % MINUTE_MS == 0
    ensures (entryMs < MinuteStart(ms) <= exitMinute) <==> entryMs + MINUTE_MS <= ms < exitMinute + MINUTE_MS
  {}

  lemma {:induction false} RecomputedIsPaid(signed: real, fs: seq<Funding>, entryMs: int, exitMinute: int)
    requires entryMs % MINUTE_MS == 0 && exitMinute % MINUTE_MS == 0
    ensures Recomputed(signed, fs, entryMs, exitMinute) == Paid(signed, fs, entryMs + MINUTE_MS, exitMinute + MINUTE_MS)
    decreases |fs|
  {
    if fs != [] {
      RecomputedIsPaid(signed, fs[..|fs| - 1], entryMs, exitMinute);
      MinuteCell(fs[|fs| - 1].ms, entryMs, exitMinute);
    }
  }

  /** Paid in the minutes that have a bar, after bar `first` up to bar `last`. */
  function Settled(signed: real, fs: seq<Funding>, bars: seq<Bar>, first: nat, last: nat): real
    requires first <= last < |bars|
  {
    if first == last then 0.0
    else Settled(signed, fs, bars, first, last - 1) + Paid(signed, fs, bars[last].openMs, bars[last].openMs + MINUTE_MS)
  }

  /** Due between bars, where no minute was replayed. */
  function Skipped(signed: real, fs: seq<Funding>, bars: seq<Bar>, first: nat, last: nat): real
    requires first <= last < |bars|
  {
    if first == last then 0.0
    else Skipped(signed, fs, bars, first, last - 1) + Paid(signed, fs, bars[last - 1].openMs + MINUTE_MS, bars[last].openMs)
  }

  lemma {:induction false} SettledAndSkipped(signed: real, fs: seq<Funding>, bars: seq<Bar>, first: nat, last: nat)
    requires first <= last < |bars| && Minutes(bars)
    ensures Paid(signed, fs, bars[first].openMs + MINUTE_MS, bars[last].openMs + MINUTE_MS)
         == Settled(signed, fs, bars, first, last) + Skipped(signed, fs, bars, first, last)
    decreases last
  {
    var lo := bars[first].openMs + MINUTE_MS;
    if first == last {
      PaidNothing(signed, fs, lo, lo);
    } else {
      SettledAndSkipped(signed, fs, bars, first, last - 1);
      assert bars[first].openMs <= bars[last - 1].openMs;
      PaidSplits(signed, fs, lo, bars[last - 1].openMs + MINUTE_MS, bars[last].openMs + MINUTE_MS);
      PaidSplits(signed, fs, bars[last - 1].openMs + MINUTE_MS, bars[last].openMs, bars[last].openMs + MINUTE_MS);
    }
  }

  /** Every funding minute of the holding period has a bar. */
  predicate Covered(fs: seq<Funding>, bars: seq<Bar>, first: nat, last: nat)
    requires first <= last < |bars|
  {
    forall i, j :: 0 <= i < |fs| && first < j <= last ==> !Due(fs[i], bars[j - 1].openMs + MINUTE_MS, bars[j].openMs)
  }

  lemma {:induction false} CoveredSkipsNothing(signed: real, fs: seq<Funding>, bars: seq<Bar>, first: nat, last: nat)
    requires first <= last < |bars| && Covered(fs, bars, first, last)
    ensures Skipped(signed, fs, bars, first, last) == 0.0
    decreases last
  {
    if first < last {
      CoveredSkipsNothing(signed, fs, bars, first, last - 1);
      PaidNothing(signed, fs, bars[last - 1].openMs + MINUTE_MS, bars[last].openMs);
    }
  }

  // ---------------------------------------------------------------- what one minute does to a held position

  lemma SettleOne(c: Config, s: EngineState, f: Funding)
    requires Holding(c, s)
    ensures var st := SettleFunding(c, s, f.ms, f.rate, f.mark).st;
      && Holding(c, st) && SameTrade(s.position.value, st.position.value) && Stake(st) == Stake(s)
      && st.position.value.fundingPaid == s.position.value.fundingPaid + s.position.value.Signed() * f.mark * f.rate
  {}

  lemma {:induction false} SettleHeld(c: Config, s: EngineState, fs: seq<Funding>, lo: int, hi: int)
    requires Holding(c, s)
    ensures var st := SettleDue(c, s, fs, lo, hi);
      && Holding(c, st) && SameTrade(s.position.value, st.position.value) && Stake(st) == Stake(s)
      && st.position.value.fundingPaid == s.position.value.fundingPaid + Paid(s.position.value.Signed(), fs, lo, hi)
      && st == s.(wallet := st.wallet, position := st.position)
    decreases |fs|
  {
    hide SettleFunding, Multiple;
    if fs != [] {
      var before := SettleDue(c, s, fs[..|fs| - 1], lo, hi);
      SettleHeld(c, s, fs[..|fs| - 1], lo, hi);
      SettleOne(c, before, fs[|fs| - 1]);
      SettleFrame(c, before, fs[|fs| - 1]);
    }
  }

  lemma SettleFrame(c: Config, s: EngineState, f: Funding)
    requires s.position.Some?
    ensures var st := SettleFunding(c, s, f.ms, f.rate, f.mark).st; st == s.(wallet := st.wallet, position := st.position)
  {}

  /** The close event of a held paper position accounts for the wallet. */
  predicate ClosedRight(c: Config, s: EngineState, e: Event, st: EngineState)
    requires s.position.Some?
  {
    var p := s.position.value;
    && st == s.(wallet := st.wallet, position := None)
    && e.PositionClosed? && e.direction == p.direction && e.entryPrice == p.entryPrice
    && e.fundingPaid == p.fundingPaid && e.walletAfter == st.wallet
    && if e.reason.Liquidation? then e.fills == [] && e.pnl == -LiquidationLoss(c, p) && st.wallet == s.wallet - LiquidationLoss(c, p)
       else
         && e.fills != [] && (forall f :: f in e.fills ==> f.refMark == e.fills[0].refMark)
         && FillQty(e.fills) == p.qty && e.exitPrice == Some(Vwap(e.fills))
         && e.pnl == Pnl(p, Vwap(e.fills), p.qty)
         && st.wallet == s.wallet + (e.pnl - e.exitCommission)
  }

  lemma ExitClosesRight(c: Config, s: EngineState, reason: ExitReason, refMark: real, ts: int)
    requires Holding(c, s) && !reason.Liquidation?
    ensures var step := DoExit(c, s, reason, refMark, ts, NO_EXIT);
      && !step.raised && |step.events| == 1 && ClosedRight(c, s, step.events[0], step.st)
      && step.events[0].reason == reason && step.events[0].ts == ts && step.events[0].fills[0].refMark == refMark
  {
    hide Multiple, Quote, Vwap, Pnl, TakerFee, ExitSent, DoExit;
    var p := s.position.value;
    PaperExitCloses(c, s, reason, refMark, ts, NO_EXIT);
    PaperExitFills(c, p.direction, p.qty, refMark, NO_EXIT);
  }

  lemma LiquidateClosesRight(c: Config, s: EngineState, ts: int)
    requires Holding(c, s)
    ensures var step := Liquidate(c, s, ts);
      && !step.raised && |step.events| == 1 && ClosedRight(c, s, step.events[0], step.st)
      && step.events[0].reason.Liquidation? && step.events[0].ts == ts
  {
    hide LiquidationLoss, Multiple;
  }

  predicate Opens(e: Event) { e.EntryFilled? || e.PositionClosed? }

  predicate NoneOpens(evs: seq<Event>) {
    forall i :: 0 <= i < |evs| ==> !Opens(evs[i])
  }

  /** A judgement of a held position leaves it, or emits exactly one right close event. */
  ghost predicate Judged1(c: Config, s: EngineState, step: Step, ts: int)
    requires s.position.Some?
  {
    && !step.raised
    && (if step.st.position.Some? then
          && NoneOpens(step.events) && step.st == s.(position := step.st.position)
          && SameTrade(s.position.value, step.st.position.value)
          && step.st.position.value.fundingPaid == s.position.value.fundingPaid
          && step.st.position.value.liqPrice == s.position.value.liqPrice
        else |step.events| == 1 && ClosedRight(c, s, step.events[0], step.st) && step.events[0].ts == ts)
  }

  lemma TrailKeeps(c: Config, s: EngineState, ts: int, low: real, high: real)
    requires s.position.Some?
    ensures var step := TrailStep(s, ts, low, high);
      && !step.raised && NoneOpens(step.events) && step.st == s.(position := step.st.position) && step.st.position.Some?
      && SameTrade(s.position.value, step.st.position.value)
      && step.st.position.value.fundingPaid == s.position.value.fundingPaid
      && step.st.position.value.liqPrice == s.position.value.liqPrice
  {}

  lemma JudgeIsRight(c: Config, s: EngineState, ts: int, low: real, high: real, slRef: real, tpRef: real, mark: real)
    requires Holding(c, s)
    ensures Judged1(c, s, Judge(c, s, ts, low, high, slRef, tpRef, mark, NO_EXIT), ts)
  {
    hide DoExit, Liquidate, TrailStep, Multiple, ClosedRight;
    var p := s.position.value;
    var why := if p.trail.Some? && p.trail.value.moved then TrailStop else StopLoss;
    LiquidateClosesRight(c, s, ts);
    ExitClosesRight(c, s, why, slRef, ts);
    ExitClosesRight(c, s, TakeProfit, tpRef, ts);
    var e := Evaluate(c, s, ts, low, high, slRef, tpRef, mark, NO_EXIT);
    ClosedIsFlat(c, s, e);
    if e.st.position.None? {
      TrailFlat(e.st, ts, low, high);
      assert e.events + [] == e.events;
    } else {
      assert e == Step(s, [], false);
      TrailKeeps(c, s, ts, low, high);
      NothingFirst(s, TrailStep(s, ts, low, high));
    }
  }

  lemma ClosedIsFlat(c: Config, s: EngineState, step: Step)
    requires s.position.Some?
    ensures |step.events| == 1 && ClosedRight(c, s, step.events[0], step.st) ==> step.st.position.None?
  {}

  lemma TrailFlat(s: EngineState, ts: int, low: real, high: real)
    requires s.position.None?
    ensures TrailStep(s, ts, low, high) == Step(s, [], false)
  {}

  lemma ExitAtOpenIsRight(c: Config, s: EngineState, open: real, ts: int)
    requires Holding(c, s)
    ensures var step := ExitAtOpen(c, s, open, ts);
      && Judged1(c, s, step, ts) && step.st.position.None?
      && step.events[0].reason == (if OpenBeyond(s.position.value, open) then Liquidation else TimeExit)
  {
    hide DoExit, Liquidate, Multiple, ClosedRight, OpenBeyond;
    LiquidateClosesRight(c, s, ts);
    ExitClosesRight(c, s, TimeExit, open, ts);
    ClosedIsFlat(c, s, Liquidate(c, s, ts));
    ClosedIsFlat(c, s, DoExit(c, s, TimeExit, open, ts, NO_EXIT));
    NothingFirst(s, DoExit(c, s, TimeExit, open, ts, NO_EXIT));
  }

  // ---------------------------------------------------------------- what one minute does with a waiting entry

  datatype Opening = Opening(p: Position, fills: seq<Fill>, notes: seq<Event>, st: EngineState)

  function Capital(c: Config, s: EngineState): real {
    if c.sizingCapital.Some? then c.sizingCapital.value else s.wallet
  }

  /** A fresh position: nothing paid but the entry commission. */
  predicate OpenedAs(c: Config, s: EngineState, o: Opening, ts: int) {
    && Holding(c, o.st) && o.st.position == Some(o.p)
    && o.p.openedMs == ts && o.p.fundingPaid == 0.0
    && o.st.wallet == Capital(c, s) - o.p.entryCommission
    && o.p.entryCommission == TakerFee(c, o.p.qty, o.p.entryPrice) && !o.p.liqAlerted
    && NoneOpens(o.notes)
  }

  function OpeningOf(c: Config, s: EngineState, o: Opening, ts: int): seq<Event> {
    OpeningEvents(c, s, o.p, o.fills, false, ts) + o.notes
  }

  /** The liquidation price is the estimate of an entry that has paid no funding yet. */
  predicate EstimateKnown(c: Config, p: Position) {
    var est := c.liquidation(p.direction, p.entryPrice, p.Notional(), p.leverage, c.taker);
    est.Some? && est.value.price == p.liqPrice
  }

  /** The entry opened `o`, and the gate either let it stand or closed it in the same call. */
  ghost predicate EnteredAs(c: Config, s: EngineState, o: Opening, step: Step, ts: int) {
    && OpenedAs(c, s, o, ts)
    && (if step.st.position.Some? then step == Step(o.st, OpeningOf(c, s, o, ts), false) && EstimateKnown(c, o.p)
        else exists e :: step.events == OpeningOf(c, s, o, ts) + [e] && ClosedRight(c, o.st, e, step.st) && GateClosed(e, ts))
  }

  predicate GateClosed(e: Event, ts: int) {
    e.PositionClosed? && e.ts == ts && e.reason.PostFillGate?
  }

  lemma BookedAs(c: Config, s: EngineState, p: Position, gateOk: bool, f: Filled, fills: seq<Fill>, refMark: real, ts: int)
    returns (o: Opening)
    requires c.mode.Paper? && f.st == s.(pending := None, blocked := f.st.blocked) && !f.adopted && NoneOpens(f.notes)
    requires p.openedMs == ts && p.fundingPaid == 0.0 && p.entryCommission == f.commission && Multiple(p.qty, c.rules.marketStep)
    requires p.entryCommission == TakerFee(c, p.qty, p.entryPrice) && !p.liqAlerted && (gateOk ==> EstimateKnown(c, p))
    ensures EnteredAs(c, s, o, BookEntry(c, p, gateOk, f, fills, refMark, ts, NO_ENTRY, NO_EXIT), ts)
  {
    hide DoExit, Multiple, TakerFee, EstimateKnown;
    var s1 := f.st.(wallet := Capital(c, s) - f.commission, position := Some(p), lastEntryTp := p.tp);
    o := Opening(p, fills, f.notes, s1);
    var filled := Announce(c, p, f, fills, LiveCheck(c, s1, ts, NO_ENTRY), ts);
    assert OpeningEvents(c, f.st, p, fills, f.adopted, ts) + f.notes + [] == OpeningOf(c, s, o, ts);
    assert filled == Step(s1, OpeningOf(c, s, o, ts), false);
    if !gateOk {
      ExitClosesRight(c, s1, PostFillGate, refMark, ts);
      var x := DoExit(c, s1, PostFillGate, refMark, ts, NO_EXIT);
      assert x.events == [x.events[0]];
    }
  }

  lemma OpenedFrom(c: Config, s: EngineState, i: EntryIntent, d: SizingDecision, lev: Leverage, refMark: real, ts: int)
    returns (o: Option<Opening>)
    requires c.mode.Paper? && s.position.None? && s.pending.None? && Quoted(c, i, refMark)
    requires !OpenPosition(c, s, i, d, lev, refMark, ts, NO_ENTRY, NO_EXIT).raised
    ensures var step := OpenPosition(c, s, i, d, lev, refMark, ts, NO_ENTRY, NO_EXIT);
      if o.None? then step.st.position.None? && NoneOpens(step.events) && step.st == s.(blocked := step.st.blocked)
      else EnteredAs(c, s, o.value, step, ts)
  {
    hide BookEntry, NewPosition, CheckFill, EnteredAs, Multiple;
    var (f, fills) := Fills(c, s, i, d, refMark, ts, NO_ENTRY);
    PaperEntryQty(c, s, i, d, refMark, ts);
    PaperNotes(c, s, i, d, refMark, ts);
    if f.qty <= 0.0 {
      o := None;
    } else {
      var post := CheckFill(c, i, d, lev, f.entry, f.qty);
      var p := NewPosition(i, d, lev, f, post.liqPrice, ts);
      NewPositionFacts(c, i, d, lev, f, ts);
      PaperEntryPrice(c, s, i, d, refMark, ts);
      var entered := BookedAs(c, s, p, post.gateOk, f, fills, refMark, ts);
      o := Some(entered);
    }
  }

  lemma NewPositionFacts(c: Config, i: EntryIntent, d: SizingDecision, lev: Leverage, f: Filled, ts: int)
    requires f.qty > 0.0 && f.entry != 0.0
    ensures var post := CheckFill(c, i, d, lev, f.entry, f.qty);
      var p := NewPosition(i, d, lev, f, post.liqPrice, ts);
      && p.openedMs == ts && p.fundingPaid == 0.0 && p.entryCommission == f.commission && p.qty == f.qty
      && p.entryPrice == f.entry && !p.liqAlerted && (post.gateOk ==> EstimateKnown(c, p))
  {
    var p := NewPosition(i, d, lev, f, CheckFill(c, i, d, lev, f.entry, f.qty).liqPrice, ts);
    assert p.Notional() == f.qty * f.entry;
    GateMeansEstimate(c, i, d, lev, f.entry, f.qty, p.Notional());
    hide CheckFill;
  }

  lemma GateMeansEstimate(c: Config, i: EntryIntent, d: SizingDecision, lev: Leverage, entry: real, qty: real, notional: real)
    requires entry != 0.0 && notional == qty * entry
    ensures var est := c.liquidation(i.direction, entry, notional, lev, c.taker);
      CheckFill(c, i, d, lev, entry, qty).gateOk ==> est.Some? && CheckFill(c, i, d, lev, entry, qty).liqPrice == est.value.price
  {
    var est := c.liquidation(i.direction, entry, notional, lev, c.taker);
    assert CheckFill(c, i, d, lev, entry, qty).gateOk ==> est.Some?;
  }

  /** All chunks fill at one quote, so the commission is the taker fee on the whole quantity. */
  lemma PaperEntryPrice(c: Config, s: EngineState, i: EntryIntent, d: SizingDecision, refMark: real, ts: int)
    requires c.mode.Paper? && Quoted(c, i, refMark)
    ensures var f := Fills(c, s, i, d, refMark, ts, NO_ENTRY).0; f.qty > 0.0 ==> f.commission == TakerFee(c, f.qty, f.entry)
  {
    hide Quote, TakerFee, AdoptLarger;
    var n, side := GoodPrefix(d.chunks, c.rules), SideFor(i.direction, Entry);
    var chunks := d.chunks[..n];
    PaperFillQty(c, side, chunks, refMark, false);
    PaperFillCosts(c, side, chunks, refMark, false);
    var fills := PaperFills(c, side, chunks, refMark, false);
    if FillQty(fills) > 0.0 {
      VwapOf(fills, FillQty(fills), Quote(c, side, refMark));
    }
  }

  lemma PaperNotes(c: Config, s: EngineState, i: EntryIntent, d: SizingDecision, refMark: real, ts: int)
    requires c.mode.Paper? && Quoted(c, i, refMark)
    ensures NoneOpens(Fills(c, s, i, d, refMark, ts, NO_ENTRY).0.notes)
  {}

  lemma EntryShape(c: Config, s: EngineState, refMark: real, ts: int) returns (o: Option<Opening>)
    requires c.mode.Paper? && s.pending.Some? && s.position.None?
    requires !ExecuteEntry(c, s, refMark, ts, NO_ENTRY, NO_EXIT).raised
    ensures var step := ExecuteEntry(c, s, refMark, ts, NO_ENTRY, NO_EXIT);
      if o.None? then step.st.position.None? && NoneOpens(step.events) && step.st.pending.None?
      else EnteredAs(c, s, o.value, step, ts)
  {
    hide OpenPosition, Quote, EntrySl, SlCrossed, OpeningEvents, OpenedAs;
    var i, s1 := s.pending.value, s.(pending := None);
    var quote := Quote(c, SideFor(i.direction, Entry), refMark);
    var sl := EntrySl(i, quote);
    var d := c.size(quote, sl, i.direction, if c.sizingCapital.Some? then c.sizingCapital.value else s.wallet, i.regime);
    o := None;
    if !SlCrossed(i.direction, refMark, sl) && d.Some? && d.value.ok && d.value.leverage.Some? {
      o := OpenedFrom(c, s1, i, d.value, d.value.leverage.value, refMark, ts);
      if o.Some? { SameCapital(c, s, s1, o.value, OpenPosition(c, s1, i, d.value, d.value.leverage.value, refMark, ts, NO_ENTRY, NO_EXIT), ts); }
    }
  }

  lemma SameCapital(c: Config, s: EngineState, s1: EngineState, o: Opening, step: Step, ts: int)
    requires s1 == s.(pending := None) && EnteredAs(c, s1, o, step, ts)
    ensures EnteredAs(c, s, o, step, ts)
  {
    assert OpeningEvents(c, s1, o.p, o.fills, false, ts) == OpeningEvents(c, s, o.p, o.fills, false, ts);
  }

  // ---------------------------------------------------------------- the book

  lemma {:induction false} BookAppend(bk: Book, xs: seq<Event>, ys: seq<Event>, k: nat, b: Bar, w: real)
    ensures BookAll(bk, xs + ys, k, b, w) == BookAll(BookAll(bk, xs, k, b, w), ys, k, b, w)
    decreases |ys|
  {
    hide BookEvent;
    if ys == [] {
      assert xs + ys == xs;
    } else {
      var n := |ys| - 1;
      assert (xs + ys)[..|xs + ys| - 1] == xs + ys[..n];
      BookAppend(bk, xs, ys[..n], k, b, w);
    }
  }

  lemma {:induction false} BookQuiet(bk: Book, evs: seq<Event>, k: nat, b: Bar, w: real)
    requires NoneOpens(evs)
    ensures BookAll(bk, evs, k, b, w) == bk
    decreases |evs|
  {
    if evs != [] {
      BookQuiet(bk, evs[..|evs| - 1], k, b, w);
    }
  }

  lemma BookSingle(bk: Book, e: Event, k: nat, b: Bar, w: real)
    ensures BookAll(bk, [e], k, b, w) == BookEvent(bk, e, k, b, w)
  {
    assert [e][..0] == [];
  }

  function FilledEvent(o: Opening, ts: int): Event {
    EntryFilled(ts, o.p.direction, o.p.qty, o.p.entryPrice, o.p.leverage, o.p.sl, o.p.liqPrice, o.fills, o.p.entryCommission, false)
  }

  lemma BookOpening(c: Config, s: EngineState, bk: Book, o: Opening, ts: int, k: nat, b: Bar, w: real)
    requires NoneOpens(o.notes)
    ensures BookAll(bk, OpeningOf(c, s, o, ts), k, b, w)
         == Book(bk.trades, Some(OpenTrade(k, b.openMs, b.open, w, FilledEvent(o, ts))), Some(o.p.liqPrice))
  {
    var reset := if c.sizingCapital.Some? then [WalletResynced(ts, s.wallet, c.sizingCapital.value)] else [];
    var trail := if o.p.trail.Some? then [TrailSet(ts, o.p.trail.value.armR, o.p.trail.value.dist, o.p.trail.value.r)] else [];
    var one := [FilledEvent(o, ts)];
    assert OpeningOf(c, s, o, ts) == ((reset + one) + trail) + o.notes;
    BookAppend(bk, (reset + one) + trail, o.notes, k, b, w);
    BookAppend(bk, reset + one, trail, k, b, w);
    BookAppend(bk, reset, one, k, b, w);
    BookQuiet(bk, reset, k, b, w);
    BookSingle(bk, FilledEvent(o, ts), k, b, w);
    var after := BookEvent(bk, FilledEvent(o, ts), k, b, w);
    BookQuiet(after, trail, k, b, w);
    BookQuiet(after, o.notes, k, b, w);
  }

  // ---------------------------------------------------------------- the invariant

  /** The record of the open trade describes the position held, whose costs so far are all accounted for. */
  predicate HeldRight(c: Config, capital: real, s: EngineState, h: OpenTrade, bars: seq<Bar>, fs: seq<Funding>, last: nat)
    requires last < |bars|
  {
    && Holding(c, s) && Stake(s) == capital
    && h.bar <= last && h.entryMs == bars[h.bar].openMs && h.walletBefore == capital && h.filled.EntryFilled?
    && Describes(h.filled, h.entryMs, s.position.value)
    && s.position.value.fundingPaid == Settled(s.position.value.Signed(), fs, bars, h.bar, last)
  }

  predicate Describes(e: Event, ts: int, p: Position)
    requires e.EntryFilled?
  {
    && e.ts == ts && e.direction == p.direction && e.qty == p.qty && e.entryPrice == p.entryPrice
    && e.leverage == p.leverage && e.entryCommission == p.entryCommission
  }

  function SignedOf(e: Event): real
    requires e.EntryFilled?
  {
    if e.direction.Long? then e.qty else -e.qty
  }

  predicate TradeRight(c: Config, capital: real, tr: Trade, bars: seq<Bar>, fs: seq<Funding>) {
    && tr.entry.filled.EntryFilled? && tr.closed.PositionClosed?
    && tr.entry.bar <= tr.bar < |bars|
    && tr.entry.entryMs == bars[tr.entry.bar].openMs && tr.entry.walletBefore == capital
    && bars[tr.bar].openMs <= tr.closed.ts < bars[tr.bar].openMs + MINUTE_MS
    && SameTimes(tr) && WalletIdentity(tr, c.liquidationFee, capital)
    && tr.closed.fundingPaid == Settled(SignedOf(tr.entry.filled), fs, bars, tr.entry.bar, tr.bar)
  }

  predicate TradesRight(c: Config, capital: real, trs: seq<Trade>, bars: seq<Bar>, fs: seq<Funding>) {
    forall i :: 0 <= i < |trs| ==> TradeRight(c, capital, trs[i], bars, fs)
  }

  predicate StateRight(c: Config, capital: real, st: ReplayState, bars: seq<Bar>, fs: seq<Funding>, n: nat)
    requires n <= |bars|
  {
    && TradesRight(c, capital, st.trades, bars, fs)
    && (st.eng.position.Some? <==> st.held.Some?)
    && (st.held.Some? ==> n > 0 && HeldRight(c, capital, st.eng, st.held.value, bars, fs, n - 1))
  }

  predicate FixedCapital(c: Config, capital: real) {
    c.mode.Paper? && c.sizingCapital == Some(capital) && c.liqFeeOnLiqPrice
  }

  /** The close of a right position makes a right trade. */
  lemma CloseIsRight(c: Config, capital: real, s: EngineState, h: OpenTrade, e: Event, st: EngineState, liqNow: Option<real>,
                     bars: seq<Bar>, fs: seq<Funding>, k: nat, trades: seq<Trade>)
    requires k < |bars| && FixedCapital(c, capital)
    requires HeldRight(c, capital, s, h, bars, fs, k) && ClosedRight(c, s, e, st) && liqNow == Some(s.position.value.liqPrice)
    requires bars[k].openMs <= e.ts < bars[k].openMs + MINUTE_MS
    ensures var bk := BookEvent(Book(trades, Some(h), liqNow), e, k, bars[k], capital);
      && bk.held.None? && |bk.trades| == |trades| + 1 && bk.trades[..|trades|] == trades
      && TradeRight(c, capital, bk.trades[|trades|], bars, fs)
  {
    hide Vwap, FillQty, Multiple, Settled;
    var bk := BookEvent(Book(trades, Some(h), liqNow), e, k, bars[k], capital);
    var tr := bk.trades[|trades|];
    assert tr == Trade(h, e, ExitRef(Book(trades, Some(h), liqNow), e), k);
    if e.reason.Liquidation? {
      assert tr.exitRef == s.position.value.liqPrice;
      LossIsIdentity(c, s.position.value);
    } else {
      assert e.fills[0] in e.fills;
    }
  }

  lemma LossIsIdentity(c: Config, p: Position)
    requires c.liqFeeOnLiqPrice
    ensures LiquidationLoss(c, p)
         == p.qty * p.entryPrice / p.leverage as real - p.entryCommission - p.fundingPaid + p.qty * p.liqPrice * c.liquidationFee
  {}

  /** Judging a right position: it stays right, or its trade is booked right. */
  lemma JudgedIsRight(c: Config, capital: real, s: EngineState, h: OpenTrade, step: Step, ts: int,
                      bars: seq<Bar>, fs: seq<Funding>, k: nat, trades: seq<Trade>)
    requires k < |bars| && FixedCapital(c, capital) && TradesRight(c, capital, trades, bars, fs)
    requires HeldRight(c, capital, s, h, bars, fs, k) && Judged1(c, s, step, ts)
    requires bars[k].openMs <= ts < bars[k].openMs + MINUTE_MS
    ensures var bk := BookAll(Book(trades, Some(h), Some(s.position.value.liqPrice)), step.events, k, bars[k], capital);
      StateRight(c, capital, ReplayState(step.st, bk.trades, bk.held), bars, fs, k + 1)
  {
    hide ClosedRight, TradeRight, Settled, Multiple;
    var bk0 := Book(trades, Some(h), Some(s.position.value.liqPrice));
    if step.st.position.Some? {
      BookQuiet(bk0, step.events, k, bars[k], capital);
    } else {
      var e := step.events[0];
      assert step.events == [e];
      BookSingle(bk0, e, k, bars[k], capital);
      CloseIsRight(c, capital, s, h, e, step.st, Some(s.position.value.liqPrice), bars, fs, k, trades);
      MoreTrades(c, capital, trades, BookEvent(bk0, e, k, bars[k], capital).trades, bars, fs);
    }
  }

  lemma MoreTrades(c: Config, capital: real, trs: seq<Trade>, more: seq<Trade>, bars: seq<Bar>, fs: seq<Funding>)
    requires TradesRight(c, capital, trs, bars, fs) && |more| == |trs| + 1 && more[..|trs|] == trs
    requires TradeRight(c, capital, more[|trs|], bars, fs)
    ensures TradesRight(c, capital, more, bars, fs)
  {
    forall i | 0 <= i < |more| ensures TradeRight(c, capital, more[i], bars, fs) {
      if i < |trs| { assert more[i] == trs[i]; }
    }
  }

  lemma OnBarHeld(c: Config, s: EngineState, b: Bar)
    requires Holding(c, s)
    ensures Judged1(c, s, OnBar(c, s, MarkBarOf(b), NO_SCRIPT), b.openMs + MINUTE_MS - 1)
  {
    hide Judge, OnBar, Judged1, Multiple;
    var m, p := MarkBarOf(b), s.position.value;
    BarIsJudge(c, s, m, NO_SCRIPT);
    JudgeIsRight(c, s, m.closeMs, m.low, m.high, BarSlRef(p, m.open), if p.tp.Some? then p.tp.value else 0.0, m.close);
    JudgedNotRaised(c, s, JudgeBar(c, s, m, NO_EXIT), m.closeMs);
  }

  lemma JudgedNotRaised(c: Config, s: EngineState, step: Step, ts: int)
    requires s.position.Some? && Judged1(c, s, step, ts)
    ensures !step.raised
  {}

  /** A bar that starts flat: an entry that opened is described by its record, whatever happens next. */
  lemma OnBarFlat(c: Config, capital: real, s: EngineState, b: Bar, bars: seq<Bar>, fs: seq<Funding>, k: nat, trades: seq<Trade>)
    requires k < |bars| && bars[k] == b && FixedCapital(c, capital) && TradesRight(c, capital, trades, bars, fs)
    requires s.position.None? && !OnBar(c, s, MarkBarOf(b), NO_SCRIPT).raised
    ensures var step := OnBar(c, s, MarkBarOf(b), NO_SCRIPT);
      var bk := BookAll(Book(trades, None, None), step.events, k, b, capital);
      StateRight(c, capital, ReplayState(step.st, bk.trades, bk.held), bars, fs, k + 1)
  {
    hide ExecuteEntry, JudgeBar, EnteredAs, TradesRight, BookAll;
    var m, bk0 := MarkBarOf(b), Book(trades, None, None);
    var entered := EntryOnTick(c, s, m.openMs, m.open, NO_ENTRY, NO_EXIT);
    var step := OnBar(c, s, m, NO_SCRIPT);
    if s.pending.None? || m.openMs <= s.pending.value.decidedMs {
      FlatBar(c, s, m);
      assert step.events == [];
      BookQuiet(bk0, step.events, k, b, capital);
    } else {
      var o := EntryShape(c, s, m.open, m.openMs);
      if o.None? {
        FlatBar(c, entered.st, m);
        assert entered.events + [] == entered.events;
        BookQuiet(bk0, step.events, k, b, capital);
      } else {
        EnteredBar(c, capital, s, o.value, entered, b, bars, fs, k, trades);
      }
    }
  }

  lemma FlatBar(c: Config, s: EngineState, m: MarkBar)
    requires s.position.None?
    ensures JudgeBar(c, s, m, NO_EXIT) == Step(s, [], false)
  {}

  lemma EnteredBar(c: Config, capital: real, s: EngineState, o: Opening, entered: Step, b: Bar, bars: seq<Bar>, fs: seq<Funding>,
                   k: nat, trades: seq<Trade>)
    requires k < |bars| && bars[k] == b && FixedCapital(c, capital) && TradesRight(c, capital, trades, bars, fs)
    requires EnteredAs(c, s, o, entered, b.openMs) && !entered.raised
    ensures var step := Then(entered, JudgeBar(c, entered.st, MarkBarOf(b), NO_EXIT));
      var bk := BookAll(Book(trades, None, None), step.events, k, b, capital);
      StateRight(c, capital, ReplayState(step.st, bk.trades, bk.held), bars, fs, k + 1)
  {
    hide JudgeBar, TradesRight, BookAll, ClosedRight, Judged1, Holding, Stake, OpeningOf;
    var m, bk0 := MarkBarOf(b), Book(trades, None, None);
    var step := Then(entered, JudgeBar(c, entered.st, m, NO_EXIT));
    var h := OpenTrade(k, b.openMs, b.open, capital, FilledEvent(o, b.openMs));
    var bk1 := Book(trades, Some(h), Some(o.p.liqPrice));
    BookOpening(c, s, bk0, o, b.openMs, k, b, capital);
    FreshIsRight(c, capital, s, o, b, bars, fs, k);
    if entered.st.position.Some? {
      JudgeBarIsRight(c, o.st, b);
      JudgedNotRaised(c, o.st, JudgeBar(c, o.st, m, NO_EXIT), m.closeMs);
      BookAppend(bk0, OpeningOf(c, s, o, b.openMs), JudgeBar(c, o.st, m, NO_EXIT).events, k, b, capital);
      JudgedIsRight(c, capital, o.st, h, JudgeBar(c, o.st, m, NO_EXIT), m.closeMs, bars, fs, k, trades);
    } else {
      var e :| entered.events == OpeningOf(c, s, o, b.openMs) + [e] && ClosedRight(c, o.st, e, entered.st) && GateClosed(e, b.openMs);
      FlatBar(c, entered.st, m);
      assert step.events == OpeningOf(c, s, o, b.openMs) + [e];
      BookAppend(bk0, OpeningOf(c, s, o, b.openMs), [e], k, b, capital);
      BookSingle(bk1, e, k, b, capital);
      CloseIsRight(c, capital, o.st, h, e, entered.st, Some(o.p.liqPrice), bars, fs, k, trades);
      MoreTrades(c, capital, trades, BookEvent(bk1, e, k, b, capital).trades, bars, fs);
    }
  }

  lemma JudgeBarIsRight(c: Config, s: EngineState, b: Bar)
    requires Holding(c, s)
    ensures Judged1(c, s, JudgeBar(c, s, MarkBarOf(b), NO_EXIT), b.openMs + MINUTE_MS - 1)
  {
    hide Judge, Judged1, Multiple;
    var m, p := MarkBarOf(b), s.position.value;
    JudgeIsRight(c, s, m.closeMs, m.low, m.high, BarSlRef(p, m.open), if p.tp.Some? then p.tp.value else 0.0, m.close);
  }

  lemma FreshIsRight(c: Config, capital: real, s: EngineState, o: Opening, b: Bar, bars: seq<Bar>, fs: seq<Funding>, k: nat)
    requires k < |bars| && bars[k] == b && FixedCapital(c, capital) && OpenedAs(c, s, o, b.openMs)
    ensures HeldRight(c, capital, o.st, OpenTrade(k, b.openMs, b.open, capital, FilledEvent(o, b.openMs)), bars, fs, k)
  {
    hide Multiple;
  }

  lemma SettledMinuteIsRight(c: Config, capital: real, s: EngineState, h: OpenTrade, bars: seq<Bar>, fs: seq<Funding>, k: nat)
    requires 0 < k < |bars| && HeldRight(c, capital, s, h, bars, fs, k - 1)
    ensures HeldRight(c, capital, SettleMinute(c, s, fs, bars[k].openMs), h, bars, fs, k)
  {
    hide Multiple, SettleDue;
    SettleHeld(c, s, fs, bars[k].openMs, bars[k].openMs + MINUTE_MS);
  }

  lemma AskKeepsRight(c: Config, capital: real, st: ReplayState, x: Option<EntryIntent>, bars: seq<Bar>, fs: seq<Funding>, n: nat)
    requires n <= |bars| && StateRight(c, capital, st, bars, fs, n)
    ensures var asked := if x.None? then st.eng else RequestEntry(c, st.eng, x.value).st;
      StateRight(c, capital, st.(eng := asked), bars, fs, n) && (st.eng.position.Some? ==> asked == st.eng)
  {
    hide Multiple, TradesRight;
  }

  /** Every minute of every replay keeps the records right. */
  lemma MinuteKeepsRight(c: Config, capital: real, st: ReplayState, bars: seq<Bar>, x: Choice, fs: seq<Funding>, k: nat)
    requires k < |bars| && FixedCapital(c, capital) && StateRight(c, capital, st, bars, fs, k)
    requires Minute(c, st, k, bars[k], x, fs).Some?
    ensures StateRight(c, capital, Minute(c, st, k, bars[k], x, fs).value, bars, fs, k + 1)
  {
    hide OnBar, ExitAtOpen, SettleDue, BookAll, TradesRight, HeldRight, Judged1;
    var b := bars[k];
    var s := SettleMinute(c, st.eng, fs, b.openMs);
    var step := EngineMinute(c, s, b, x.exitAtOpen);
    var bk := BookAll(Book(st.trades, st.held, LiqPriceNow(s)), step.events, k, b, capital);
    if st.held.Some? {
      SettledMinuteIsRight(c, capital, st.eng, st.held.value, bars, fs, k);
      RightIsHeld(c, capital, s, st.held.value, bars, fs, k);
      if x.exitAtOpen {
        ExitAtOpenIsRight(c, s, b.open, b.openMs);
        JudgedIsRight(c, capital, s, st.held.value, step, b.openMs, bars, fs, k, st.trades);
      } else {
        OnBarHeld(c, s, b);
        JudgedIsRight(c, capital, s, st.held.value, step, b.openMs + MINUTE_MS - 1, bars, fs, k, st.trades);
      }
    } else if x.exitAtOpen {
      FlatExit(c, s, b.open, b.openMs);
      BookQuiet(Book(st.trades, None, None), step.events, k, b, capital);
    } else {
      OnBarFlat(c, capital, s, b, bars, fs, k, st.trades);
    }
    AskKeepsRight(c, capital, ReplayState(step.st, bk.trades, bk.held), x.intent, bars, fs, k + 1);
  }

  lemma RightIsHeld(c: Config, capital: real, s: EngineState, h: OpenTrade, bars: seq<Bar>, fs: seq<Funding>, k: nat)
    requires k < |bars| && HeldRight(c, capital, s, h, bars, fs, k)
    ensures Holding(c, s)
  {}

  lemma FlatExit(c: Config, s: EngineState, open: real, ts: int)
    requires c.mode.Paper? && s.position.None?
    ensures ExitAtOpen(c, s, open, ts) == Step(s, [], false)
  {}

  lemma {:induction false} RunIsRight(c: Config, capital: real, equity: real, bars: seq<Bar>, xs: seq<Choice>, fs: seq<Funding>, n: nat)
    requires n <= |bars| && n <= |xs| && FixedCapital(c, capital) && Run(c, equity, bars, xs, fs, n).Some?
    ensures StateRight(c, capital, Run(c, equity, bars, xs, fs, n).value, bars, fs, n)
    decreases n
  {
    hide Minute, HeldRight;
    if n > 0 {
      RunIsRight(c, capital, equity, bars, xs, fs, n - 1);
      MinuteKeepsRight(c, capital, Run(c, equity, bars, xs, fs, n - 1).value, bars, xs[n - 1], fs, n - 1);
    }
  }

  // ---------------------------------------------------------------- the evaluator agrees

  lemma ExitMinute(ts: int, open: int)
    requires open % MINUTE_MS == 0 && open <= ts < open + MINUTE_MS
    ensures MinuteStart(ts) == open
  {}

  /** A right trade passes the independent check exactly when nothing was due in the minutes without a bar. */
  lemma RightTradePasses(c: Config, capital: real, tr: Trade, bars: seq<Bar>, fs: seq<Funding>)
    requires Minutes(bars) && TradeRight(c, capital, tr, bars, fs)
    ensures LedgerPasses(tr, fs, c.liquidationFee, capital)
       <==> Skipped(SignedOf(tr.entry.filled), fs, bars, tr.entry.bar, tr.bar) == 0.0
  {
    hide WalletIdentity, Settled, Skipped, MinuteStart;
    var signed := SignedOf(tr.entry.filled);
    var entryMs, exitMs := bars[tr.entry.bar].openMs, bars[tr.bar].openMs;
    ExitMinute(tr.closed.ts, exitMs);
    RecomputedIsPaid(signed, fs, entryMs, exitMs);
    SettledAndSkipped(signed, fs, bars, tr.entry.bar, tr.bar);
  }

  /** Main theorem. Every trade any replay emits with a fixed capital satisfies both wallet identities of the
      checker, and its funding identity if and only if the fundings due in minutes without a bar add up to zero;
      in particular when every funding minute of the holding period has a bar. */
  lemma EveryTradePassesTheLedger(c: Config, capital: real, equity: real, bars: seq<Bar>, xs: seq<Choice>, fs: seq<Funding>, n: nat, i: nat)
    requires n <= |bars| && n <= |xs| && FixedCapital(c, capital) && Minutes(bars)
    requires Run(c, equity, bars, xs, fs, n).Some? && i < |Run(c, equity, bars, xs, fs, n).value.trades|
    ensures var tr := Run(c, equity, bars, xs, fs, n).value.trades[i];
      && tr.entry.filled.EntryFilled? && tr.closed.PositionClosed? && tr.entry.bar <= tr.bar < |bars|
      && WalletIdentity(tr, c.liquidationFee, capital)
      && (LedgerPasses(tr, fs, c.liquidationFee, capital)
          <==> Skipped(SignedOf(tr.entry.filled), fs, bars, tr.entry.bar, tr.bar) == 0.0)
      && (Covered(fs, bars, tr.entry.bar, tr.bar) ==> LedgerPasses(tr, fs, c.liquidationFee, capital))
  {
    hide LedgerPasses, WalletIdentity, Skipped, Covered, Run;
    RunIsRight(c, capital, equity, bars, xs, fs, n);
    var tr := Run(c, equity, bars, xs, fs, n).value.trades[i];
    assert TradeRight(c, capital, tr, bars, fs);
    RightTradePasses(c, capital, tr, bars, fs);
    if Covered(fs, bars, tr.entry.bar, tr.bar) {
      CoveredSkipsNothing(SignedOf(tr.entry.filled), fs, bars, tr.entry.bar, tr.bar);
    }
  }

  // ---------------------------------------------------------------- the loop as written

  predicate Sorted(fs: seq<Funding>) {
    forall i, j :: 0 <= i < j < |fs| ==> fs[i].ms <= fs[j].ms
  }

  lemma {:induction false} SettleEarly(c: Config, s: EngineState, fs: seq<Funding>, lo: int, hi: int)
    requires s.position.Some? && forall i :: 0 <= i < |fs| ==> fs[i].ms < lo
    ensures SettleDue(c, s, fs, lo, hi) == s
    decreases |fs|
  {
    if fs != [] {
      SettleEarly(c, s, fs[..|fs| - 1], lo, hi);
    }
  }

  lemma {:induction false} SettleLate(c: Config, s: EngineState, fs: seq<Funding>, n: nat, lo: int, hi: int)
    requires s.position.Some? && n <= |fs| && forall i :: n <= i < |fs| ==> fs[i].ms >= hi
    ensures SettleDue(c, s, fs, lo, hi) == SettleDue(c, s, fs[..n], lo, hi)
    decreases |fs|
  {
    if n == |fs| {
      assert fs[..n] == fs;
    } else {
      var m := |fs| - 1;
      SettleLate(c, s, fs[..m], n, lo, hi);
      assert fs[..m][..n] == fs[..n];
    }
  }

  /** Settling with the first `n` fundings. */
  function SettleFirst(c: Config, s: EngineState, fs: seq<Funding>, n: nat, t: int): EngineState
    requires n <= |fs|
  {
    SettleMinute(c, s, fs[..n], t)
  }

  lemma SettleNext(c: Config, s: EngineState, fs: seq<Funding>, n: nat, t: int)
    requires n < |fs|
    ensures var before, f := SettleFirst(c, s, fs, n, t), fs[n];
      && before.position.Some? == s.position.Some?
      && SettleFirst(c, s, fs, n + 1, t)
         == if s.position.Some? && Due(f, t, t + MINUTE_MS) then SettleFunding(c, before, f.ms, f.rate, f.mark).st else before
  {
    assert fs[..n + 1][..n] == fs[..n];
  }

  /** Fundings before the index belong to earlier minutes, those from it on do not. */
  predicate CutAt(fs: seq<Funding>, fi: nat, before: int) {
    fi <= |fs| && (forall i :: 0 <= i < fi ==> fs[i].ms < before) && (forall i :: fi <= i < |fs| ==> fs[i].ms >= before)
  }

  method SettleLoop(eng: EngineObject.Engine, fs: seq<Funding>, start: nat, t: int, ghost since: int) returns (fi: nat)
    requires eng.Valid() && Sorted(fs) && start <= |fs| && since <= t
    requires (start > 0 ==> CutAt(fs, start, since))
    modifies eng, eng.position
    ensures eng.Valid() && eng.position == old(eng.position)
    ensures eng.State() == SettleMinute(eng.c, old(eng.State()), fs, t)
    ensures CutAt(fs, fi, t + MINUTE_MS)
  {
    fi := start;
    ghost var s := eng.State();
    if s.position.Some? { SettleEarly(eng.c, s, fs[..fi], t, t + MINUTE_MS); }
    while fi < |fs| && fs[fi].ms < t + MINUTE_MS
      invariant start <= fi <= |fs| && eng.Valid() && eng.position == old(eng.position)
      invariant forall i :: 0 <= i < fi ==> fs[i].ms < t + MINUTE_MS
      invariant eng.State() == SettleFirst(eng.c, s, fs, fi, t)
    {
      SettleNext(eng.c, s, fs, fi, t);
      if fs[fi].ms >= t && eng.position != null {
        var ev := eng.OnFunding(fs[fi].ms, fs[fi].rate, fs[fi].mark);
      }
      fi := fi + 1;
    }
    if s.position.Some? { SettleLate(eng.c, s, fs, fi, t, t + MINUTE_MS); }
  }

  method BookLoop(bk: Book, evs: seq<Event>, k: nat, b: Bar, walletBefore: real) returns (out: Book)
    ensures out == BookAll(bk, evs, k, b, walletBefore)
  {
    out := bk;
    for i := 0 to |evs|
      invariant out == BookAll(bk, evs[..i], k, b, walletBefore)
    {
      assert evs[..i + 1][..i] == evs[..i];
      out := BookEvent(out, evs[i], k, b, walletBefore);
    }
    assert evs[..|evs|] == evs;
  }

  method EngineBar(eng: EngineObject.Engine, b: Bar, exitAtOpen: bool) returns (ev: seq<Event>, raised: bool)
    requires eng.Valid()
    modifies eng, eng.position
    ensures eng.Valid() && (eng.position == null || eng.position == old(eng.position) || fresh(eng.position))
    ensures Step(eng.State(), ev, raised) == EngineMinute(eng.c, old(eng.State()), b, exitAtOpen)
  {
    if !exitAtOpen {
      ev, raised := eng.OnBar(MarkBarOf(b), NO_SCRIPT);
      return;
    }
    if eng.pending.Some? { return [], true; }
    ev, raised := eng.LiquidateIfOpenBeyond(b.open, b.openMs);
    if !raised && eng.position != null {
      var closed;
      closed, raised := eng.CloseNow(b.open, b.openMs, TimeExit, NO_EXIT);
      ev := if raised then [] else ev + closed;
    }
  }

  /** One turn of the loop; the book comes back unless the replay stops here. */
  method MinuteBody(eng: EngineObject.Engine, trades: seq<Trade>, held: Option<OpenTrade>, k: nat, b: Bar, x: Choice,
                    fs: seq<Funding>, start: nat, ghost since: int)
    returns (next: Option<Book>, fi: nat)
    requires eng.Valid() && Sorted(fs) && start <= |fs| && since <= b.openMs && (start > 0 ==> CutAt(fs, start, since))
    modifies eng, eng.position
    ensures eng.Valid() && (eng.position == null || eng.position == old(eng.position) || fresh(eng.position))
    ensures CutAt(fs, fi, b.openMs + MINUTE_MS)
    ensures Minute(eng.c, ReplayState(old(eng.State()), trades, held), k, b, x, fs)
         == if next.None? then None else Some(ReplayState(eng.State(), next.value.trades, next.value.held))
  {
    hide EngineMinute, SettleMinute, BookAll, InvalidIntent, RequestEntry, Sorted;
    fi := SettleLoop(eng, fs, start, b.openMs, since);
    var before := if eng.c.sizingCapital.None? then eng.wallet else eng.c.sizingCapital.value;
    var liqNow := if eng.position == null then None else Some(eng.position.liqPrice);
    var ev, raised := EngineBar(eng, b, x.exitAtOpen);
    if raised { return None, fi; }
    var bk := BookLoop(Book(trades, held, liqNow), ev, k, b, before);
    if x.intent.Some? {
      if InvalidIntent(eng.c, eng.State(), x.intent.value) { return None, fi; }
      var none, refused := eng.RequestEntry(x.intent.value);
    }
    next := if x.exitAtOpen && eng.pending.Some? then None else Some(bk);
  }

  method ReplayBars(c: Config, equity: real, bars: seq<Bar>, xs: seq<Choice>, fs: seq<Funding>) returns (out: Option<ReplayState>)
    requires |xs| == |bars| && Minutes(bars) && Sorted(fs)
    ensures out == Run(c, equity, bars, xs, fs, |bars|)
  {
    hide Minute, Sorted;
    var eng := new EngineObject.Engine(c, equity);
    var trades: seq<Trade>, held: Option<OpenTrade>, fi: nat := [], None, 0;
    var k := 0;
    while k < |bars|
      invariant k <= |bars| && eng.Valid() && fresh(eng) && (eng.position != null ==> fresh(eng.position)) && eng.c == c
      invariant Run(c, equity, bars, xs, fs, k) == Some(ReplayState(eng.State(), trades, held))
      invariant if k == 0 then fi == 0 else CutAt(fs, fi, bars[k - 1].openMs + MINUTE_MS)
    {
      ghost var since := if k == 0 then bars[k].openMs else bars[k - 1].openMs + MINUTE_MS;
      var next;
      next, fi := MinuteBody(eng, trades, held, k, bars[k], xs[k], fs, fi, since);
      if next.None? {
        RunStops(c, equity, bars, xs, fs, k + 1, |bars|);
        return None;
      }
      trades, held, k := next.value.trades, next.value.held, k + 1;
    }
    out := Some(ReplayState(eng.State(), trades, held));
  }

  lemma {:induction false} RunStops(c: Config, equity: real, bars: seq<Bar>, xs: seq<Choice>, fs: seq<Funding>, k: nat, n: nat)
    requires k <= n <= |bars| && n <= |xs|
    ensures Run(c, equity, bars, xs, fs, k).None? ==> Run(c, equity, bars, xs, fs, n).None?
    decreases n
  {
    hide Minute;
    if k < n { RunStops(c, equity, bars, xs, fs, k, n - 1); }
  }
}
