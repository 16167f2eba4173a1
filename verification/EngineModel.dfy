/** What every engine call does to the engine's state and which events it emits (paper/engine.py).
    `Config` is fixed for a run. In PAPER mode the LIVE script arguments are ignored. */
module EngineModel {
  import opened Types
  import opened Steps
  import opened Normalize
  import opened EngineTypes

  type Config = c: ConfigData | c.Valid() ghost witness Plain()

  ghost function Plain(): (c: ConfigData)
    ensures c.Valid()
  {
    PlainRulesAreUsable();
    ConfigData(Paper, PLAIN_RULES, 0.0, 0.0, 0.0, 8, None, false, 1, 100,
               (e: real, s: real, d: Direction, q: real, r: Regime) => None,
               (d: Direction, e: real, n: real, l: Leverage, t: real) => None,
               (a: real, b: real) => false, (n: real) => None)
  }

  const NO_ENTRY := EntryScript(None, Sent([], None), None, None, false)
  const NO_EXIT := ExitScript(None, Sent([], None), None)
  const NO_SCRIPT := TickScript(NO_ENTRY, NO_EXIT, NO_EXIT)

  /** Judging and exiting touch only the wallet, the position and the block list. */
  predicate Frame(s: EngineState, st: EngineState) {
    st.lastEntryTp == s.lastEntryTp && st.pending == s.pending && st.lastTick == s.lastTick && st.restoredFunding == s.restoredFunding
  }

  // ---------------------------------------------------------------- blocks

  function Block(s: EngineState, why: BlockReason): EngineState {
    if why in s.blocked then s else s.(blocked := s.blocked + [why])
  }

  // ---------------------------------------------------------------- requests

  predicate TrailIntentOk(t: TrailIntent) {
    t.armR > 0.0 && (match t.distance case Fixed(d) => d > 0.0 case TimesR(k) => k > 0.0)
  }

  predicate Accepts(c: Config, s: EngineState, i: EntryIntent) {
    && s.blocked == []
    && s.position.None? && s.pending.None?
    && c.levLo <= i.regime.lMin <= i.regime.lMax <= c.levHi
    && (i.slRule.Some? ==> i.sl == i.slRule.value.anchor)
    && (i.trail.Some? ==> TrailIntentOk(i.trail.value))
    && (i.tpRule.Some? ==> i.tp.None? && i.tpRule.value.minR > 0.0 && i.tpRule.value.fallbackR > 0.0)
    && (i.tp.Some? ==> if i.direction.Long? then i.tp.value > i.decisionMark else i.tp.value < i.decisionMark)
  }

  /** The request fails with a `ValueError`, which callers do not take for a refusal. */
  predicate InvalidIntent(c: Config, s: EngineState, i: EntryIntent) {
    && s.blocked == [] && s.position.None? && s.pending.None?
    && c.levLo <= i.regime.lMin <= i.regime.lMax <= c.levHi
    && ((i.slRule.Some? && i.sl != i.slRule.value.anchor)
        || (i.trail.Some? && !TrailIntentOk(i.trail.value))
        || (i.tpRule.Some? && (i.tp.Some? || i.tpRule.value.minR <= 0.0 || i.tpRule.value.fallbackR <= 0.0)))
  }

  function RequestEntry(c: Config, s: EngineState, i: EntryIntent): Step {
    if Accepts(c, s, i) then Step(s.(pending := Some(i)), [], false) else Step(s, [], true)
  }

  // ---------------------------------------------------------------- senders

  function Quote(c: Config, side: Side, refMark: real): real {
    AdverseFill(side, refMark, c.rules.tick, c.slippage)
  }

  function TakerFee(c: Config, qty: real, price: real): real {
    qty * price * c.taker
  }

  /** Orders of one paper call: each valid chunk fills in full at the quoted price. */
  function PaperFills(c: Config, side: Side, chunks: seq<real>, refMark: real, reduceOnly: bool): (fills: seq<Fill>)
    requires forall i :: 0 <= i < |chunks| ==> chunks[i] > 0.0
    ensures forall i :: 0 <= i < |fills| ==> fills[i].price == Quote(c, side, refMark)
  {
    if chunks == [] then []
    else
      var price := Quote(c, side, refMark);
      [FillData.Fill(side, chunks[0], price, TakerFee(c, chunks[0], price), reduceOnly, refMark)]
      + PaperFills(c, side, chunks[1..], refMark, reduceOnly)
  }

  /** How many leading chunks pass the parameter check; the first bad one stops the entry. */
  function GoodPrefix(chunks: seq<real>, r: SymbolRules): (n: nat)
    ensures n <= |chunks|
    ensures forall i :: 0 <= i < n ==> ParamsOk(chunks[i], r)
    ensures n < |chunks| ==> !ParamsOk(chunks[n], r)
  {
    if chunks == [] || !ParamsOk(chunks[0], r) then 0 else 1 + GoodPrefix(chunks[1..], r)
  }

  function EntrySent(c: Config, d: Direction, chunks: seq<real>, refMark: real, x: EntryScript): Sent {
    if c.mode.Live? then x.sent
    else
      var n := GoodPrefix(chunks, c.rules);
      Sent(PaperFills(c, SideFor(d, Entry), chunks[..n], refMark, false), if n < |chunks| then Some(OtherSendError) else None)
  }

  function ExitSent(c: Config, d: Direction, qty: real, refMark: real, x: ExitScript): Sent {
    if c.mode.Live? then x.sent
    else
      SplitExit(qty, c.rules);
      Sent(PaperFills(c, SideFor(d, Exit), Split(qty, c.rules, None, true).value, refMark, true), None)
  }

  lemma {:induction false} FillsArePositive(fills: seq<Fill>)
    ensures FillQty(fills) >= 0.0 && (fills != [] ==> FillQty(fills) > 0.0)
  {
    if fills != [] {
      FillsArePositive(fills[1..]);
    }
  }

  lemma {:induction false} PositivePrices(fills: seq<Fill>)
    requires forall i :: 0 <= i < |fills| ==> fills[i].price > 0.0
    ensures FillNotional(fills) >= 0.0 && (fills != [] ==> FillNotional(fills) > 0.0)
    ensures fills != [] ==> Vwap(fills) > 0.0
  {
    if fills != [] {
      PositivePrices(fills[1..]);
      FillsArePositive(fills);
      assert fills[0].qty * fills[0].price > 0.0;
      assert FillNotional(fills) / FillQty(fills) > 0.0;
    }
  }

  function Vwap(fills: seq<Fill>): real
    requires fills != []
  {
    FillsArePositive(fills);
    FillNotional(fills) / FillQty(fills)
  }

  // ---------------------------------------------------------------- funding and liquidation

  function GridOk(c: Config, t: MarkTick): bool {
    c.fundingHours == 0 || t.nextFunding % (c.fundingHours * HOUR_MS) == 0
  }

  /** `range(first, upTo + 1, step)`. */
  function Boundaries(first: int, upTo: int, step: int): seq<int>
    requires step > 0
    decreases upTo - first + 1
  {
    if first > upTo then [] else [first] + Boundaries(first + step, upTo, step)
  }

  function MissedBoundaries(c: Config, settled: int, now: int): seq<int> {
    if c.fundingHours == 0 then [] else Boundaries(settled + c.fundingHours * HOUR_MS, now, c.fundingHours * HOUR_MS)
  }

  lemma NotionalIsNonzero(p: Position)
    ensures p.Notional() != 0.0
  {}

  function RefreshLiquidation(c: Config, p: Position): (q: Position)
    ensures q == p.(liqPrice := q.liqPrice)
  {
    NotionalIsNonzero(p);
    match c.liquidation(p.direction, p.entryPrice, p.Notional(), p.leverage, c.taker + p.fundingPaid / p.Notional())
    case Some(e) => p.(liqPrice := e.price)
    case None => p
  }

  /** What the holder pays; negative when it receives. */
  function FundingDue(p: PositionData, rate: real, mark: real): real {
    p.Signed() * mark * rate
  }

  function SettleFunding(c: Config, s: EngineState, ts: int, rate: real, mark: real): Step
    requires s.position.Some?
  {
    var p := s.position.value;
    var paid := FundingDue(p, rate, mark);
    var w := s.wallet - paid;
    Step(s.(wallet := w, position := Some(RefreshLiquidation(c, p.(fundingPaid := p.fundingPaid + paid)))),
         [FundingSettled(ts, rate, mark, p.Signed(), paid, w)], false)
  }

  function LiquidationLoss(c: Config, p: Position): real {
    var n := p.Notional();
    var feeBase := if c.liqFeeOnLiqPrice then p.qty * p.liqPrice else n;
    n / p.leverage as real - p.entryCommission - p.fundingPaid + feeBase * c.liquidationFee
  }

  function Liquidate(c: Config, s: EngineState, ts: int): Step
    requires s.position.Some?
  {
    var p := s.position.value;
    var loss := LiquidationLoss(c, p);
    var w := s.wallet - loss;
    Step(s.(wallet := w, position := None),
         [PositionClosed(ts, p.direction, Liquidation, p.qty, p.entryPrice, None, [], -loss, 0.0, p.fundingPaid, w)], false)
  }

  function Pnl(p: Position, price: real, qty: real): real {
    if p.direction.Long? then (price - p.entryPrice) * qty else (p.entryPrice - price) * qty
  }

  // ---------------------------------------------------------------- exits

  /** Account for the fills of an exit: close, or reduce and report the failure. */
  function BookExit(s: EngineState, reason: ExitReason, ts: int, fills: seq<Fill>): (r: Step)
    requires s.position.Some?
    ensures Frame(s, r.st)
  {
    if fills == [] then Step(s, [], false)
    else
      var p := s.position.value;
      var q := FillQty(fills);
      var px := Vwap(fills);
      var pnl := Pnl(p, px, q);
      var comm := FillCommission(fills);
      var w := s.wallet + (pnl - comm);
      if q >= p.qty then
        Step(s.(wallet := w, position := None),
             [PositionClosed(ts, p.direction, reason, q, p.entryPrice, Some(px), fills, pnl, comm, p.fundingPaid, w)], false)
      else
        Step(s.(wallet := w, position := Some(p.(qty := p.qty - q))),
             [PositionReduced(ts, p.direction, reason, q, p.qty - q, p.entryPrice, Some(px), fills, pnl, comm, w),
              ExitFailed(ts, reason)], false)
  }

  /** Before a LIVE exit the engine adopts the exchange's quantity of the same sign. */
  function ResyncQty(c: Config, s: EngineState, refMark: real, ts: int, pr: PositionRisk): (r: Step)
    requires s.position.Some? && pr.amt != 0.0
    ensures Frame(s, r.st) && r.st.position.Some?
  {
    var p := s.position.value;
    var held := Abs(pr.amt);
    var entry := if pr.entryPrice > 0.0 then pr.entryPrice else p.entryPrice;
    var why := ResyncBeforeExit(p.Signed(), pr.amt);
    var s1 := Block(s, why);
    if held > p.qty then
      var extra := TakerFee(c, held - p.qty, if pr.entryPrice > 0.0 then pr.entryPrice else refMark);
      Step(s1.(wallet := s.wallet - extra,
               position := Some(p.(qty := held, entryPrice := entry, entryCommission := p.entryCommission + extra))),
           [EntriesBlocked(ts, why), PositionSynced(ts, p.direction, p.qty, held, entry, extra)], false)
    else
      Step(s1.(position := Some(p.(qty := held, entryPrice := entry))),
           [EntriesBlocked(ts, why), PositionVanished(ts, p.direction, p.qty - held, p.entryPrice)], false)
  }

  function SendExit(c: Config, s: EngineState, reason: ExitReason, refMark: real, ts: int, x: ExitScript): (r: Step)
    requires s.position.Some?
    ensures Frame(s, r.st) && (r.raised ==> r.events == [])
  {
    var p := s.position.value;
    if !Multiple(p.qty, c.rules.marketStep) then Step(s, [], true)      // RulesError is not caught here
    else
      var sent := ExitSent(c, p.direction, p.qty, refMark, x);
      var booked := BookExit(s, reason, ts, sent.fills);
      if sent.failure.None? then booked
      else Step(Block(booked.st, ExitSendFailed), booked.events + [ExitFailed(ts, reason), EntriesBlocked(ts, ExitSendFailed)], false)
  }

  /** After a LIVE exit that left the engine flat the exchange is read once more. */
  function AfterExit(c: Config, done: Step, ts: int, x: ExitScript): (r: Step)
    ensures Frame(done.st, r.st)
  {
    if c.mode.Paper? || done.raised || done.st.position.Some? then done
    else
      match x.afterRead
      case None => Step(Block(done.st, ReadFailed), done.events + [EntriesBlocked(ts, ReadFailed)], false)
      case Some(pr) =>
        if pr.amt == 0.0 then done
        else Step(Block(done.st, ExitLeftover(pr.amt)), done.events + [EntriesBlocked(ts, ExitLeftover(pr.amt))], false)
  }

  /** When the second part raises, the events of both are lost to the caller; the step keeps them for the record. */
  function Then(first: Step, second: Step): Step {
    Step(second.st, first.events + second.events, second.raised)
  }

  lemma NothingFirst(st: EngineState, b: Step)
    ensures Then(Step(st, [], false), b) == b
  {
    assert [] + b.events == b.events;
  }

  function DoExit(c: Config, s: EngineState, reason: ExitReason, refMark: real, ts: int, x: ExitScript): (r: Step)
    requires s.position.Some?
    ensures Frame(s, r.st)
  {
    var p := s.position.value;
    if c.mode.Paper? then SendExit(c, s, reason, refMark, ts, x)
    else
      match x.read
      case None =>
        var failed := Step(Block(s, ReadFailed), [EntriesBlocked(ts, ReadFailed)], false);
        AfterExit(c, Then(failed, SendExit(c, failed.st, reason, refMark, ts, x)), ts, x)
      case Some(pr) =>
        if pr.amt == 0.0 then
          Step(Block(s.(position := None), AlreadyFlat),
               [PositionVanished(ts, p.direction, p.qty, p.entryPrice), ExitFailed(ts, reason), EntriesBlocked(ts, AlreadyFlat)], false)
        else if (pr.amt > 0.0) != p.direction.Long? then
          Step(Block(s, OppositeSign), [ExitFailed(ts, reason), EntriesBlocked(ts, OppositeSign)], false)
        else if pr.amt != p.Signed() then
          var synced := ResyncQty(c, s, refMark, ts, pr);
          AfterExit(c, Then(synced, SendExit(c, synced.st, reason, refMark, ts, x)), ts, x)
        else AfterExit(c, SendExit(c, s, reason, refMark, ts, x), ts, x)
  }

  // ---------------------------------------------------------------- entries

  function TpFromFill(rule: TpRule, d: Direction, entry: real, sl: real): real {
    var r := Abs(entry - sl);
    if rule.level.Some? && Sign(d) * (rule.level.value - entry) >= rule.minR * r then rule.level.value
    else entry + Sign(d) * (rule.fallbackR * r)
  }

  function EntrySl(i: EntryIntent, quote: real): real {
    match i.slRule
    case None => i.sl
    case Some(rule) => if rule.mirror then 2.0 * quote - rule.anchor else rule.anchor
  }

  predicate SlCrossed(d: Direction, refMark: real, sl: real) {
    if d.Long? then refMark <= sl else refMark >= sl
  }

  datatype PostFill = PostFill(liqPrice: real, gateOk: bool)

  /** Recheck of the liquidation gate on the price and quantity actually filled. */
  function CheckFill(c: Config, i: EntryIntent, d: SizingDecision, lev: Leverage, entry: real, qty: real): PostFill
    requires entry != 0.0
  {
    var notional := qty * entry;
    var slDist := Sign(i.direction) * (entry - d.sl) / entry;
    match c.liquidation(i.direction, entry, notional, lev, c.taker)
    case None => PostFill(d.liqPrice, false)
    case Some(est) =>
      if slDist > 0.0 && c.gatePasses(slDist, est.dist) then
        (match c.leverageCap(notional)
         case None => PostFill(d.liqPrice, false)
         case Some(cap) => PostFill(est.price, lev <= cap))
      else PostFill(est.price, false)
  }

  datatype Filled = Filled(st: EngineState, notes: seq<Event>, qty: real, entry: real, commission: real, adopted: bool, failure: Option<SendFailure>)

  /** After a LIVE failure some chunk may have filled unseen: adopt a larger exchange position of the same side. */
  function AdoptLarger(c: Config, i: EntryIntent, ts: int, f: Filled, x: EntryScript): (r: Filled)
    ensures r.st == f.st.(blocked := r.st.blocked)
  {
    match x.adoptRead
    case None => f.(st := Block(f.st, ReadFailed), notes := f.notes + [EntriesBlocked(ts, ReadFailed)])
    case Some(pr) =>
      if pr.amt * Sign(i.direction) > 0.0 && Abs(pr.amt) > f.qty && pr.entryPrice > 0.0 then
        f.(qty := Abs(pr.amt), entry := pr.entryPrice,
           commission := f.commission + TakerFee(c, Abs(pr.amt) - f.qty, pr.entryPrice), adopted := true)
      else if Abs(pr.amt) != f.qty then
        var odd := EntryQtyMismatch(pr.amt, f.qty);
        f.(st := Block(f.st, odd), notes := f.notes + [EntriesBlocked(ts, odd)])
      else f
  }

  /** The price an entry was sized at is positive. */
  predicate Quoted(c: Config, i: EntryIntent, refMark: real) {
    Quote(c, SideFor(i.direction, Entry), refMark) > 0.0
  }

  /** Send the chunks, then see to a failure. */
  function Fills(c: Config, s: EngineState, i: EntryIntent, d: SizingDecision, refMark: real, ts: int, x: EntryScript): (r: (Filled, seq<Fill>))
    requires Quoted(c, i, refMark)
    ensures r.0.st == s.(blocked := r.0.st.blocked)
    ensures r.0.qty > 0.0 ==> r.0.entry > 0.0
  {
    var sent := EntrySent(c, i.direction, d.chunks, refMark, x);
    PositivePrices(sent.fills);
    var qty := FillQty(sent.fills);
    var commission := FillCommission(sent.fills);
    var entry := if sent.fills == [] then refMark else Vwap(sent.fills);
    if sent.failure.None? then (Filled(s, [], qty, entry, commission, false, None), sent.fills)
    else
      var why := EntrySendFailed(|sent.fills|, |d.chunks|);
      var f := Filled(Block(s, why), [EntriesBlocked(ts, why)], qty, entry, commission, false, sent.failure);
      (if c.mode.Paper? then f else AdoptLarger(c, i, ts, f, x), sent.fills)
  }

  function OpenTrail(i: EntryIntent, entry: real, sl: real): Option<TrailState> {
    match i.trail
    case None => None
    case Some(t) =>
      var r := Abs(entry - sl);
      Some(TrailState(t.armR, match t.distance case Fixed(d) => d case TimesR(k) => k * r, r, false, false))
  }

  function LiveCheck(c: Config, s: EngineState, ts: int, x: EntryScript): (r: Step)
    requires s.position.Some?
    ensures r.st == s.(blocked := r.st.blocked) && !r.raised
  {
    if c.mode.Paper? then Step(s, [], false)
    else
      match x.checkRead
      case None => Step(Block(s, ReadFailed), [EntriesBlocked(ts, ReadFailed)], false)
      case Some(pr) =>
        var a := if x.checkFails then Step(Block(s, LiquidationCheckFailed), [EntriesBlocked(ts, LiquidationCheckFailed)], false)
                 else Step(s, [], false);
        var signed := s.position.value.Signed();
        if pr.amt == signed then a
        else Step(Block(a.st, LiveMismatch(signed, pr.amt)), a.events + [EntriesBlocked(ts, LiveMismatch(signed, pr.amt))], false)
  }

  function NewPosition(i: EntryIntent, d: SizingDecision, lev: Leverage, f: Filled, liqPrice: real, ts: int): Position
    requires f.qty > 0.0 && f.entry != 0.0
  {
    var tp := if i.tpRule.None? then i.tp else Some(TpFromFill(i.tpRule.value, i.direction, f.entry, d.sl));
    PositionData.Position(i.direction, f.qty, f.entry, lev, d.sl, tp, liqPrice, f.commission, ts, 0.0, false, OpenTrail(i, f.entry, d.sl))
  }

  /** Events that announce a new position, in the order the source inserts them. */
  function OpeningEvents(c: Config, s: EngineState, p: Position, fills: seq<Fill>, adopted: bool, ts: int): seq<Event> {
    (if c.sizingCapital.Some? then [WalletResynced(ts, s.wallet, c.sizingCapital.value)] else [])
    + [EntryFilled(ts, p.direction, p.qty, p.entryPrice, p.leverage, p.sl, p.liqPrice, fills, p.entryCommission, adopted)]
    + (if p.trail.Some? then [TrailSet(ts, p.trail.value.armR, p.trail.value.dist, p.trail.value.r)] else [])
  }

  /** Book a new position; if the gate fails on the actual fill, close it at once. */
  function BookEntry(c: Config, p: Position, gateOk: bool, f: Filled, fills: seq<Fill>, refMark: real, ts: int,
                     x: EntryScript, gx: ExitScript): (r: Step)
    ensures r.st.pending == f.st.pending && r.st.lastTick == f.st.lastTick
  {
    var base := if c.sizingCapital.Some? then c.sizingCapital.value else f.st.wallet;
    var s1 := f.st.(wallet := base - f.commission, position := Some(p), lastEntryTp := p.tp);
    var filled := Announce(c, p, f, fills, LiveCheck(c, s1, ts, x), ts);
    if gateOk then filled else ThenExit(c, filled, PostFillGate, refMark, ts, gx)
  }

  function Announce(c: Config, p: Position, f: Filled, fills: seq<Fill>, checked: Step, ts: int): Step {
    Step(checked.st, OpeningEvents(c, f.st, p, fills, f.adopted, ts) + f.notes + checked.events, false)
  }

  function ThenExit(c: Config, a: Step, reason: ExitReason, refMark: real, ts: int, x: ExitScript): Step
    requires a.st.position.Some?
  {
    Then(a, DoExit(c, a.st, reason, refMark, ts, x))
  }

  function OpenFilled(c: Config, i: EntryIntent, d: SizingDecision, lev: Leverage, f: Filled, fills: seq<Fill>, refMark: real, ts: int,
                      x: EntryScript, gx: ExitScript): (r: Step)
    requires f.qty > 0.0 ==> f.entry > 0.0
    ensures r.st.pending == f.st.pending && r.st.lastTick == f.st.lastTick
  {
    if f.qty <= 0.0 then
      Step(f.st, f.notes + (if f.failure == Some(OtherSendError) then [EntrySkipped(ts, SendFailed)] else []), false)
    else
      var post := CheckFill(c, i, d, lev, f.entry, f.qty);
      BookEntry(c, NewPosition(i, d, lev, f, post.liqPrice, ts), post.gateOk, f, fills, refMark, ts, x, gx)
  }

  function OpenPosition(c: Config, s: EngineState, i: EntryIntent, d: SizingDecision, lev: Leverage, refMark: real, ts: int,
                        x: EntryScript, gx: ExitScript): (r: Step)
    requires Quoted(c, i, refMark)
    ensures r.st.pending == s.pending && r.st.lastTick == s.lastTick
  {
    var (f, fills) := Fills(c, s, i, d, refMark, ts, x);
    OpenFilled(c, i, d, lev, f, fills, refMark, ts, x, gx)
  }

  function ExecuteEntry(c: Config, s: EngineState, refMark: real, ts: int, x: EntryScript, gx: ExitScript): (r: Step)
    requires s.pending.Some?
    ensures r.st.pending.None? && r.st.lastTick == s.lastTick
  {
    var i := s.pending.value;
    var s1 := s.(pending := None);
    var quote := Quote(c, SideFor(i.direction, Entry), refMark);
    var sl := EntrySl(i, quote);
    if SlCrossed(i.direction, refMark, sl) then Step(s1, [EntrySkipped(ts, SlCrossedBeforeFill)], false)
    else
      match c.size(quote, sl, i.direction, if c.sizingCapital.Some? then c.sizingCapital.value else s.wallet, i.regime)
      case None => Step(s1, [], true)
      case Some(d) =>
        if !d.ok || d.leverage.None? then
          Step(s1, [EntrySkipped(ts, if d.wrongSide then SlCrossedBeforeFill else SizingRejected)], false)
        else if c.mode.Live? && x.echo != Some(d.leverage.value) then Step(s1, [EntrySkipped(ts, LeverageNotConfirmed)], false)
        else OpenPosition(c, s1, i, d, d.leverage.value, refMark, ts, x, gx)
  }

  // ---------------------------------------------------------------- judging one tick or bar

  /** Priority liquidation, then stop, then target. */
  function Evaluate(c: Config, s: EngineState, ts: int, low: real, high: real, slRef: real, tpRef: real, mark: real, x: ExitScript): (r: Step)
    requires s.position.Some?
    ensures Frame(s, r.st)
  {
    var p := s.position.value;
    var isLong := p.direction.Long?;
    var liqHit := if isLong then low <= p.liqPrice else high >= p.liqPrice;
    if liqHit && c.mode.Paper? then Liquidate(c, s, ts)
    else
      var alert := if liqHit && !p.liqAlerted
                   then Step(s.(position := Some(p.(liqAlerted := true))), [LiquidationThresholdCrossed(ts, mark, p.liqPrice)], false)
                   else Step(s, [], false);
      var slHit := if isLong then low <= p.sl else high >= p.sl;
      if slHit then
        Then(alert, DoExit(c, alert.st, if p.trail.Some? && p.trail.value.moved then TrailStop else StopLoss, slRef, ts, x))
      else if p.tp.Some? && (if isLong then high >= p.tp.value else low <= p.tp.value) then
        Then(alert, DoExit(c, alert.st, TakeProfit, tpRef, ts, x))
      else alert
  }

  function TrailStep(s: EngineState, ts: int, low: real, high: real): (r: Step)
    ensures Frame(s, r.st)
  {
    if s.position.None? || s.position.value.trail.None? then Step(s, [], false)
    else
      var p := s.position.value;
      var t := p.trail.value;
      var isLong := p.direction.Long?;
      var best := if isLong then high else low;
      var gain := if isLong then best - p.entryPrice else p.entryPrice - best;
      if !t.armed && gain < t.armR * t.r then Step(s, [], false)
      else
        var armEv := if t.armed then [] else [TrailArmed(ts, best)];
        var cand := if isLong then best - t.dist else best + t.dist;
        if (if isLong then cand <= p.sl else cand >= p.sl) then
          Step(s.(position := Some(p.(trail := Some(t.(armed := true))))), armEv, false)
        else
          Step(s.(position := Some(p.(sl := cand, trail := Some(t.(armed := true, moved := true))))),
               armEv + [StopTrailed(ts, p.sl, cand)], false)
  }

  // ---------------------------------------------------------------- public calls

  /** Funding part of a tick: the boundary crossed since the last tick, or boundaries passed while the bot was down. */
  function FundingOnTick(c: Config, s: EngineState, t: MarkTick): Step {
    var s0 := s.(restoredFunding := None);
    if s.position.None? then Step(s0, [], false)
    else if s.lastTick.None? then
      if s.restoredFunding.None? || t.ts < s.restoredFunding.value then Step(s0, [], false)
      else
        var missed := [s.restoredFunding.value] + MissedBoundaries(c, s.restoredFunding.value, t.ts);
        Step(Block(s0, FundingMissedOnRestart(|missed|)),
             [FundingMissed(t.ts, missed, s.position.value.Signed()), EntriesBlocked(t.ts, FundingMissedOnRestart(|missed|))], false)
    else
      var prev := s.lastTick.value;
      if !(prev.ts < prev.nextFunding <= t.ts) then Step(s0, [], false)
      else
        var settled := SettleFunding(c, s0, prev.nextFunding, prev.rate, prev.mark);
        var missed := MissedBoundaries(c, prev.nextFunding, t.ts);
        if missed == [] then settled
        else Step(Block(settled.st, FundingMissedInGap(|missed|)),
                  settled.events + [FundingMissed(t.ts, missed, s.position.value.Signed()), EntriesBlocked(t.ts, FundingMissedInGap(|missed|))], false)
  }

  function EntryOnTick(c: Config, s: EngineState, ts: int, mark: real, x: EntryScript, gx: ExitScript): Step {
    if s.pending.Some? && ts > s.pending.value.decidedMs then ExecuteEntry(c, s, mark, ts, x, gx) else Step(s, [], false)
  }

  function Judge(c: Config, s: EngineState, ts: int, low: real, high: real, slRef: real, tpRef: real, mark: real, x: ExitScript): (r: Step)
    ensures Frame(s, r.st)
  {
    if s.position.None? then Step(s, [], false)
    else
      var e := Evaluate(c, s, ts, low, high, slRef, tpRef, mark, x);
      if e.raised then e else Then(e, TrailStep(e.st, ts, low, high))
  }

  function OnTick(c: Config, s: EngineState, t: MarkTick, x: TickScript): Step {
    if !GridOk(c, t) then Step(s, [], true)
    else
      var funded := FundingOnTick(c, s, t);
      var entered := EntryOnTick(c, funded.st.(lastTick := Some(t)), t.ts, t.mark, x.entry, x.gateExit);
      if entered.raised then Then(funded, entered)
      else Then(funded, Then(entered, Judge(c, entered.st, t.ts, t.mark, t.mark, t.mark, t.mark, t.mark, x.exit)))
  }

  function BarSlRef(p: Position, open: real): real {
    if p.direction.Long? then Min(p.sl, open) else Max(p.sl, open)
  }

  function JudgeBar(c: Config, s: EngineState, b: MarkBar, x: ExitScript): (r: Step)
    ensures Frame(s, r.st)
  {
    if s.position.None? then Step(s, [], false)
    else
      var p := s.position.value;
      Judge(c, s, b.closeMs, b.low, b.high, BarSlRef(p, b.open), if p.tp.Some? then p.tp.value else 0.0, b.close, x)
  }

  function OnBar(c: Config, s: EngineState, b: MarkBar, x: TickScript): Step {
    var entered := EntryOnTick(c, s, b.openMs, b.open, x.entry, x.gateExit);
    if entered.raised then entered
    else Then(entered, JudgeBar(c, entered.st, b, x.exit))
  }

  function OnFunding(c: Config, s: EngineState, ts: int, rate: real, mark: real): Step {
    if s.position.None? then Step(s, [], false) else SettleFunding(c, s, ts, rate, mark)
  }

  predicate OpenBeyond(p: Position, open: real) {
    if p.direction.Long? then open <= p.liqPrice else open >= p.liqPrice
  }

  function LiquidateIfOpenBeyond(c: Config, s: EngineState, open: real, ts: int): Step {
    if c.mode.Live? then Step(s, [], true)
    else if s.position.Some? && OpenBeyond(s.position.value, open) then Liquidate(c, s, ts)
    else Step(s, [], false)
  }

  function CloseNow(c: Config, s: EngineState, refMark: real, ts: int, reason: ExitReason, x: ExitScript): Step {
    if s.position.None? then Step(s, [], false) else DoExit(c, s, reason, refMark, ts, x)
  }

  function Vanish(s: EngineState, ts: int): Step {
    if s.position.None? then Step(s, [], false)
    else
      var p := s.position.value;
      Step(Block(s.(position := None), Vanished),
           [PositionVanished(ts, p.direction, p.qty, p.entryPrice), EntriesBlocked(ts, Vanished)], false)
  }

  function SyncWallet(s: EngineState, ts: int, wallet: real): Step {
    Step(s.(wallet := wallet), [WalletResynced(ts, s.wallet, wallet)], false)
  }

  function CancelPending(s: EngineState, ts: int): Step {
    if s.pending.None? then Step(s, [], false) else Step(s.(pending := None), [EntrySkipped(ts, EntriesAreBlocked)], false)
  }

  function ClearBlocks(s: EngineState): Step {
    Step(s.(blocked := []), [], false)
  }

  // ---------------------------------------------------------------- snapshot and restore

  /** The position part of an engine snapshot. */
  datatype PosState = PosState(position: Position, nextFunding: Option<int>)

  function NextFunding(s: EngineState): Option<int> {
    if s.lastTick.None? then s.restoredFunding else Some(s.lastTick.value.nextFunding)
  }

  function PositionState(s: EngineState): Option<PosState> {
    if s.position.None? then None else Some(PosState(s.position.value, NextFunding(s)))
  }

  /** Restoring recomputes the liquidation price with the current rules and refuses when it cannot. */
  function RestorePosition(c: Config, s: EngineState, st: PosState, ts: int): Step {
    if s.position.Some? || s.pending.Some? || st.nextFunding.None? then Step(s, [], true)
    else
      var p := st.position;
      NotionalIsNonzero(p);
      match c.liquidation(p.direction, p.entryPrice, p.Notional(), p.leverage, c.taker + p.fundingPaid / p.Notional())
      case None => Step(s, [], true)
      case Some(e) =>
        Step(s.(position := Some(p.(liqPrice := e.price)), lastTick := None, restoredFunding := st.nextFunding),
             [PositionRestored(ts, p.direction, p.qty, p.entryPrice, e.price)], false)
  }
}
