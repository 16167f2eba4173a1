/** When a pending entry is skipped, refused or filled, and what a fresh position is (paper/engine.py:433-544). */
module EntryRules {
  import opened Types
  import opened Steps
  import opened Normalize
  import opened EngineTypes
  import opened EngineModel
  import opened Accounting
  import opened PaperRuns
  import opened ExitPrices

  /** The price an entry is sized at: the mark moved against the taker by the slippage, and on to the next tick. */
  predicate QuotedAt(c: Config, d: Direction, mark: real, quote: real) {
    var ideal := if d.Long? then mark * (1.0 + c.slippage) else mark * (1.0 - c.slippage);
    Multiple(quote, c.rules.tick) && Gain(d, ideal, quote) >= 0.0 && Gain(d, ideal, quote) < c.rules.tick
  }

  /** The stop of an entry: the intent's own, the anchor of its rule, or as far beyond the quote as the anchor is short of it. */
  predicate StopIs(i: EntryIntent, quote: real, sl: real) {
    match i.slRule
    case None => sl == i.sl
    case Some(rule) => if rule.mirror then sl - quote == quote - rule.anchor else sl == rule.anchor
  }

  /** The mark is still on the winning side of the stop. */
  predicate Alive(d: Direction, mark: real, sl: real) {
    Gain(d, sl, mark) > 0.0
  }

  /** What sizing is asked about: the fixed capital, or else the wallet. */
  function Asked(c: Config, s: EngineState, i: EntryIntent, quote: real, sl: real): Option<SizingDecision> {
    c.size(quote, sl, i.direction, if c.sizingCapital.Some? then c.sizingCapital.value else s.wallet, i.regime)
  }

  predicate Usable(answer: Option<SizingDecision>) {
    answer.Some? && answer.value.ok
  }

  lemma EntryQuote(c: Config, d: Direction, mark: real)
    ensures QuotedAt(c, d, mark, Quote(c, SideFor(d, Entry), mark))
  {
    hide Multiple, AdverseFill;
    Rounded(SideFor(d, Entry), mark, c.rules.tick, c.slippage);
  }

  /** A positive mark still clear of the stop is quoted clear of it as well. */
  lemma QuoteIsAlive(c: Config, d: Direction, mark: real, quote: real, sl: real)
    requires QuotedAt(c, d, mark, quote) && mark >= 0.0 && Alive(d, mark, sl)
    ensures Alive(d, quote, sl)
  {
    hide Multiple;
    SlipIsAdverse(mark, c.slippage);
  }

  function Skipped(s: EngineState, ts: int, why: SkipReason): Step {
    Step(s.(pending := None), [EntrySkipped(ts, why)], false)
  }

  /** Main theorem on the decision, both modes and both directions. The stop and the mark decide first, then sizing, then in
      LIVE the exchange's echo of the leverage; only then are orders sent. */
  lemma EntryDecided(c: Config, s: EngineState, mark: real, ts: int, x: EntryScript, gx: ExitScript) returns (quote: real, sl: real)
    requires s.pending.Some?
    ensures
      var i := s.pending.value;
      var step, asked := ExecuteEntry(c, s, mark, ts, x, gx), Asked(c, s, i, quote, sl);
      && QuotedAt(c, i.direction, mark, quote) && StopIs(i, quote, sl)
      && (!Alive(i.direction, mark, sl) ==> step == Skipped(s, ts, SlCrossedBeforeFill))
      && (Alive(i.direction, mark, sl) ==>
            if asked.None? then step == Step(s.(pending := None), [], true)
            else if asked.value.wrongSide then step == Skipped(s, ts, SlCrossedBeforeFill)
            else if !asked.value.ok then step == Skipped(s, ts, SizingRejected)
            else if c.mode.Live? && x.echo != asked.value.leverage then step == Skipped(s, ts, LeverageNotConfirmed)
            else Quoted(c, i, mark) && step == OpenPosition(c, s.(pending := None), i, asked.value, asked.value.leverage.value, mark, ts, x, gx))
      && (Alive(i.direction, mark, sl) && asked.Some? && mark >= 0.0 ==> !asked.value.wrongSide)
      && quote == Quote(c, SideFor(i.direction, Entry), mark)
  {
    hide OpenPosition, Quote, QuotedAt;
    var i := s.pending.value;
    quote := Quote(c, SideFor(i.direction, Entry), mark);
    sl := EntrySl(i, quote);
    EntryQuote(c, i.direction, mark);
    if mark >= 0.0 && Alive(i.direction, mark, sl) { QuoteIsAlive(c, i.direction, mark, quote, sl); }
  }

  // ---------------------------------------------------------------- the request

  /** The engine is flat and unblocked with nothing pending, and the leverages lie in the limits. */
  predicate Available(c: Config, s: EngineState, i: EntryIntent) {
    && s.position.None? && s.pending.None? && s.blocked == []
    && c.levLo <= i.regime.lMin && i.regime.lMin <= i.regime.lMax && i.regime.lMax <= c.levHi
  }

  /** Stop and rule agree, a trail has positive terms, there is one target at most, and a target by rule has positive terms. */
  predicate InOrder(i: EntryIntent) {
    && (i.slRule.None? || i.slRule.value.anchor == i.sl)
    && (i.trail.None? || (i.trail.value.armR > 0.0 && TrailTerm(i.trail.value.distance) > 0.0))
    && (i.tp.None? || i.tpRule.None?)
    && (i.tpRule.None? || Min(i.tpRule.value.minR, i.tpRule.value.fallbackR) > 0.0)
  }

  /** An intent the engine takes; a target of its own lies beyond the mark it was decided at. */
  predicate Welcome(c: Config, s: EngineState, i: EntryIntent) {
    Available(c, s, i) && InOrder(i) && (i.tp.None? || Gain(i.direction, i.decisionMark, i.tp.value) > 0.0)
  }

  function TrailTerm(d: TrailDistance): real {
    match d case Fixed(x) => x case TimesR(k) => k
  }

  /** A request is taken exactly then, and changes nothing but what is pending; otherwise it raises and changes nothing: as an
      error rather than a refusal exactly if the engine was available and the intent not in order. */
  lemma RequestIff(c: Config, s: EngineState, i: EntryIntent)
    ensures
      RequestEntry(c, s, i) == if Welcome(c, s, i) then Step(s.(pending := Some(i)), [], false) else Step(s, [], true)
    ensures InvalidIntent(c, s, i) <==> Available(c, s, i) && !InOrder(i)
  {}

  // ---------------------------------------------------------------- the fresh position

  /** The target: the intent's own, or by its rule the given level if that is worth its least multiple of the risk, else
      the fallback multiple. */
  predicate TargetIs(i: EntryIntent, entry: real, sl: real, tp: Option<real>) {
    match i.tpRule
    case None => tp == i.tp
    case Some(rule) =>
      var d, risk := i.direction, Abs(entry - sl);
      && tp.Some?
      && if rule.level.Some? && Gain(d, entry, rule.level.value) >= rule.minR * risk then tp == rule.level
         else Gain(d, entry, tp.value) == rule.fallbackR * risk
  }

  /** The trail: its distance as given, or a multiple of the risk; neither armed nor moved yet. */
  predicate TrailIs(i: EntryIntent, entry: real, sl: real, trail: Option<TrailState>) {
    && (trail.Some? <==> i.trail.Some?)
    && (trail.Some? ==>
          var t, risk := trail.value, Abs(entry - sl);
          && t.armR == i.trail.value.armR && t.r == risk && !t.armed && !t.moved
          && (match i.trail.value.distance case Fixed(d) => t.dist == d case TimesR(k) => t.dist == k * risk))
  }

  predicate FreshPosition(i: EntryIntent, answer: SizingDecision, p: Position, qty: real, entry: real, ts: int) {
    && p.direction == i.direction && p.qty == qty && p.entryPrice == entry && answer.leverage == Some(p.leverage)
    && p.sl == answer.sl && TargetIs(i, entry, p.sl, p.tp) && TrailIs(i, entry, p.sl, p.trail)
    && p.fundingPaid == 0.0 && p.openedMs == ts && !p.liqAlerted
  }

  /** The liquidation estimate for a position without funding. */
  function EntryEstimate(c: Config, p: Position): Option<LiqEstimate> {
    c.liquidation(p.direction, p.entryPrice, p.Notional(), p.leverage, c.taker)
  }

  /** The gate on what was actually filled: the stop lies on the losing side, far enough from the liquidation price estimated
      for this quantity at this price, and the leverage is one its notional allows. */
  predicate PassesGate(c: Config, p: Position) {
    var est, cap := EntryEstimate(c, p), c.leverageCap(p.Notional());
    && est.Some? && cap.Some? && p.leverage <= cap.value
    && Gain(p.direction, p.sl, p.entryPrice) > 0.0
    && c.gatePasses(Gain(p.direction, p.sl, p.entryPrice) / p.entryPrice, est.value.dist)
  }

  lemma TargetOfFill(i: EntryIntent, entry: real, sl: real)
    ensures TargetIs(i, entry, sl, if i.tpRule.None? then i.tp else Some(TpFromFill(i.tpRule.value, i.direction, entry, sl)))
  {}

  lemma TrailOfFill(i: EntryIntent, entry: real, sl: real)
    ensures TrailIs(i, entry, sl, OpenTrail(i, entry, sl))
  {}

  /** What a PAPER entry sends: the leading chunks the parameter check passes, all at the quote. */
  lemma PaperFilled(c: Config, s: EngineState, i: EntryIntent, d: SizingDecision, mark: real, ts: int)
    requires c.mode.Paper? && Quoted(c, i, mark)
    ensures
      var (f, fills) := Fills(c, s, i, d, mark, ts, NO_ENTRY);
      var n, quote := GoodPrefix(d.chunks, c.rules), Quote(c, SideFor(i.direction, Entry), mark);
      && f.qty == Sum(d.chunks[..n]) && (f.qty > 0.0 <==> n > 0) && f.qty >= 0.0
      && (n > 0 ==> f.entry == quote) && f.commission == f.qty * quote * c.taker && !f.adopted
      && f.st == (if n < |d.chunks| then Block(s, EntrySendFailed(n, |d.chunks|)) else s)
      && f.notes == (if n < |d.chunks| then [EntriesBlocked(ts, EntrySendFailed(n, |d.chunks|))] else [])
      && f.failure == (if n < |d.chunks| then Some(OtherSendError) else None)
  {
    hide Quote, Multiple;
    var n := GoodPrefix(d.chunks, c.rules);
    var side := SideFor(i.direction, Entry);
    PaperFillQty(c, side, d.chunks[..n], mark, false);
    PaperFillCosts(c, side, d.chunks[..n], mark, false);
    var fills := PaperFills(c, side, d.chunks[..n], mark, false);
    FillsArePositive(fills);
    if n > 0 { VwapOf(fills, Sum(d.chunks[..n]), Quote(c, side, mark)); }
  }

  /** How a fresh position is announced. */
  predicate Announces(evs: seq<Event>, p: Position) {
    exists e :: e in evs && e.EntryFilled? && e.direction == p.direction && e.qty == p.qty && e.entryPrice == p.entryPrice
                && e.leverage == p.leverage && e.sl == p.sl && e.liqPrice == p.liqPrice && e.entryCommission == p.entryCommission && e.ts == p.openedMs
  }

  /** What the wallet is before the commission: the fixed capital, or what it was. */
  function Base(c: Config, s: EngineState): real {
    if c.sizingCapital.Some? then c.sizingCapital.value else s.wallet
  }

  /** The entry opened `p`: it stays if it passes the gate, at the liquidation price estimated for it, and is closed at once
      at the mark if it does not. */
  ghost predicate OpenedAs(c: Config, s: EngineState, p: Position, mark: real, step: Step) {
    var n, paid := |step.events|, Base(c, s) - p.entryCommission;
    && !step.raised && Announces(step.events, p)
    && if PassesGate(c, p) then
         && step.st.position == Some(p) && step.st.wallet == paid && step.st.lastEntryTp == p.tp
         && Some(p.liqPrice) == EstimatedPrice(EntryEstimate(c, p))
       else
         && step.st.position.None? && n >= 1 && ClosedAt(c, p, paid, step, step.events[n - 1], PostFillGate, mark)
  }

  function EstimatedPrice(est: Option<LiqEstimate>): Option<real> {
    if est.None? then None else Some(est.value.price)
  }

  lemma CheckCases(c: Config, i: EntryIntent, d: SizingDecision, lev: Leverage, entry: real, qty: real, notional: real, slDist: real)
    requires entry > 0.0 && notional == qty * entry && slDist == Gain(i.direction, d.sl, entry) / entry
    ensures
      var est, cap := c.liquidation(i.direction, entry, notional, lev, c.taker), c.leverageCap(notional);
      CheckFill(c, i, d, lev, entry, qty)
      == if est.None? then PostFill(d.liqPrice, false)
         else if Gain(i.direction, d.sl, entry) > 0.0 && c.gatePasses(slDist, est.value.dist) then
           (if cap.None? then PostFill(d.liqPrice, false) else PostFill(est.value.price, lev <= cap.value))
         else PostFill(est.value.price, false)
  {
    PositiveQuotient(Gain(i.direction, d.sl, entry), entry);
  }

  lemma CheckIsGate(c: Config, i: EntryIntent, d: SizingDecision, lev: Leverage, f: Filled, ts: int)
    requires f.qty > 0.0 && f.entry > 0.0
    ensures
      var post := CheckFill(c, i, d, lev, f.entry, f.qty);
      var p := NewPosition(i, d, lev, f, post.liqPrice, ts);
      && (post.gateOk <==> PassesGate(c, p))
      && (post.gateOk ==> Some(p.liqPrice) == EstimatedPrice(EntryEstimate(c, p)))
  {
    hide Gain, CheckFill;
    var p := NewPosition(i, d, lev, f, CheckFill(c, i, d, lev, f.entry, f.qty).liqPrice, ts);
    CheckCases(c, i, d, lev, f.entry, f.qty, p.Notional(), Gain(p.direction, p.sl, p.entryPrice) / p.entryPrice);
  }

  lemma PositiveQuotient(x: real, y: real)
    requires y > 0.0
    ensures x / y > 0.0 <==> x > 0.0
  {
    DivMul(x, y);
    if x / y > 0.0 {
      assert (x / y) * y > 0.0;
    } else {
      assert (x / y) * y <= 0.0;
    }
  }

  lemma NewIsFresh(i: EntryIntent, d: SizingDecision, lev: Leverage, f: Filled, liqPrice: real, ts: int)
    requires f.qty > 0.0 && f.entry > 0.0 && d.leverage == Some(lev)
    ensures FreshPosition(i, d, NewPosition(i, d, lev, f, liqPrice, ts), f.qty, f.entry, ts)
  {
    hide TargetIs, TrailIs, TpFromFill, OpenTrail;
    TargetOfFill(i, f.entry, d.sl);
    TrailOfFill(i, f.entry, d.sl);
  }

  lemma BookedAs(c: Config, s: EngineState, p: Position, gateOk: bool, f: Filled, fills: seq<Fill>, mark: real, ts: int)
    requires c.mode.Paper? && gateOk == PassesGate(c, p) && p.entryCommission == f.commission && p.openedMs == ts
    requires f.st.pending.None? && f.st.wallet == s.wallet && Multiple(p.qty, c.rules.marketStep)
    requires gateOk ==> Some(p.liqPrice) == EstimatedPrice(EntryEstimate(c, p))
    ensures OpenedAs(c, s, p, mark, BookEntry(c, p, gateOk, f, fills, mark, ts, NO_ENTRY, NO_EXIT))
  {
    hide PassesGate, ClosedAt, DoExit, Multiple, EstimatedPrice, EntryEstimate;
    var s1 := f.st.(wallet := Base(c, s) - f.commission, position := Some(p), lastEntryTp := p.tp);
    var filled := Announce(c, p, f, fills, Step(s1, [], false), ts);
    var e := EntryFilled(ts, p.direction, p.qty, p.entryPrice, p.leverage, p.sl, p.liqPrice, fills, p.entryCommission, f.adopted);
    assert e in OpeningEvents(c, f.st, p, fills, f.adopted, ts);
    assert e in filled.events;
    if gateOk {
      assert BookEntry(c, p, gateOk, f, fills, mark, ts, NO_ENTRY, NO_EXIT) == filled;
      assert Announces(filled.events, p);
    } else {
      ExitClosesAt(c, s1, PostFillGate, mark, ts);
      var closed := DoExit(c, s1, PostFillGate, mark, ts, NO_EXIT);
      LastClosed(c, p, s1.wallet, filled.events, closed, mark);
      var all := closed.(events := filled.events + closed.events);
      assert e in all.events;
      assert Announces(all.events, p);
      assert BookEntry(c, p, gateOk, f, fills, mark, ts, NO_ENTRY, NO_EXIT) == all;
    }
  }

  lemma LastClosed(c: Config, p: Position, wallet: real, before: seq<Event>, closed: Step, mark: real)
    requires |closed.events| == 1 && ClosedAt(c, p, wallet, closed, closed.events[0], PostFillGate, mark)
    ensures
      var all := closed.(events := before + closed.events);
      ClosedAt(c, p, wallet, all, all.events[|all.events| - 1], PostFillGate, mark)
  {
    hide Multiple;
  }

  predicate Opens(c: Config, chunks: seq<real>) {
    chunks != [] && ParamsOk(chunks[0], c.rules)
  }

  /** Sending a sized PAPER entry: nothing at all without chunks, a failed send if the first is refused, and otherwise a fresh
      position of the leading chunks that are not. */
  ghost predicate SentAs(c: Config, s: EngineState, i: EntryIntent, answer: SizingDecision, quote: real, mark: real, ts: int, step: Step) {
    if answer.chunks == [] then step == Step(s.(pending := None), [], false)
    else if !Opens(c, answer.chunks) then
      step == Step(Block(s.(pending := None), EntrySendFailed(0, |answer.chunks|)),
                   [EntriesBlocked(ts, EntrySendFailed(0, |answer.chunks|)), EntrySkipped(ts, SendFailed)], false)
    else
      exists p: Position ::
        && FreshPosition(i, answer, p, Sum(answer.chunks[..GoodPrefix(answer.chunks, c.rules)]), quote, ts)
        && p.entryCommission == p.qty * quote * c.taker
        && OpenedAs(c, s, p, mark, step)
  }

  lemma PaperSent(c: Config, s: EngineState, i: EntryIntent, d: SizingDecision, mark: real, ts: int)
    requires c.mode.Paper? && s.position.None? && s.pending == Some(i) && Quoted(c, i, mark) && d.leverage.Some?
    ensures SentAs(c, s, i, d, Quote(c, SideFor(i.direction, Entry), mark), mark, ts,
                   OpenPosition(c, s.(pending := None), i, d, d.leverage.value, mark, ts, NO_ENTRY, NO_EXIT))
  {
    hide Fills, CheckFill, BookEntry, Quote, FreshPosition, OpenedAs, PassesGate, ParamsOk, Multiple;
    var s1 := s.(pending := None);
    var (f, fills) := Fills(c, s1, i, d, mark, ts, NO_ENTRY);
    PaperFilled(c, s1, i, d, mark, ts);
    if f.qty > 0.0 {
      var post := CheckFill(c, i, d, d.leverage.value, f.entry, f.qty);
      var p := NewPosition(i, d, d.leverage.value, f, post.liqPrice, ts);
      PaperEntryQty(c, s1, i, d, mark, ts);
      CheckIsGate(c, i, d, d.leverage.value, f, ts);
      NewIsFresh(i, d, d.leverage.value, f, post.liqPrice, ts);
      BookedAs(c, s, p, post.gateOk, f, fills, mark, ts);
    }
  }

  /** Main theorem on PAPER entries, for both directions: when each skip, the refusal and the opening happens, and what is
      opened. */
  lemma PaperEntry(c: Config, s: EngineState, mark: real, ts: int) returns (quote: real, sl: real)
    requires c.mode.Paper? && s.pending.Some? && s.position.None?
    ensures
      var i := s.pending.value;
      var step, asked := ExecuteEntry(c, s, mark, ts, NO_ENTRY, NO_EXIT), Asked(c, s, i, quote, sl);
      && QuotedAt(c, i.direction, mark, quote) && StopIs(i, quote, sl)
      && step.st.pending.None?
      && (step.raised <==> Alive(i.direction, mark, sl) && asked.None?)
      && (step.raised ==> step == Step(s.(pending := None), [], true))
      && (step == Skipped(s, ts, SlCrossedBeforeFill) <==>
            !Alive(i.direction, mark, sl) || (asked.Some? && Gain(i.direction, sl, quote) <= 0.0))
      && (mark >= 0.0 && Alive(i.direction, mark, sl) ==> Gain(i.direction, sl, quote) > 0.0)
      && (step == Skipped(s, ts, SizingRejected) <==>
            Alive(i.direction, mark, sl) && asked.Some? && Gain(i.direction, sl, quote) > 0.0 && !asked.value.ok)
      && (Alive(i.direction, mark, sl) && Usable(asked) ==> asked.value.sl == sl && SentAs(c, s, i, asked.value, quote, mark, ts, step))
      && (HasEntry(step.events) <==> Alive(i.direction, mark, sl) && Usable(asked) && Opens(c, asked.value.chunks))
      && (step.st.position.Some? ==> HasEntry(step.events))
  {
    hide ExecuteEntry, OpenPosition, QuotedAt, StopIs, SentAs, Quote, Opens;
    quote, sl := EntryDecided(c, s, mark, ts, NO_ENTRY, NO_EXIT);
    var i := s.pending.value;
    var asked := Asked(c, s, i, quote, sl);
    if mark >= 0.0 && Alive(i.direction, mark, sl) { QuoteIsAlive(c, i.direction, mark, quote, sl); }
    if Alive(i.direction, mark, sl) && Usable(asked) {
      PaperSent(c, s, i, asked.value, mark, ts);
      SentFills(c, s, i, asked.value, quote, mark, ts, ExecuteEntry(c, s, mark, ts, NO_ENTRY, NO_EXIT));
    }
  }

  lemma SentFills(c: Config, s: EngineState, i: EntryIntent, d: SizingDecision, quote: real, mark: real, ts: int, step: Step)
    requires SentAs(c, s, i, d, quote, mark, ts, step) && s.pending.Some?
    requires s.position.None?
    ensures HasEntry(step.events) <==> Opens(c, d.chunks)
    ensures !step.raised && (step.st.position.Some? ==> Opens(c, d.chunks))
    ensures step != Skipped(s, ts, SlCrossedBeforeFill) && step != Skipped(s, ts, SizingRejected)
  {
    hide PassesGate, ClosedAt, FreshPosition, ParamsOk;
  }
}
