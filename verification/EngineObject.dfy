module EngineObject {
  // The engine as the program runs it (paper/engine.py): one object whose fields every callback updates in place,
  // holding one mutable position record. Each method is proved to do exactly what the function of the same name in
  // `EngineModel` says, so every theorem about those functions is about this object. Where `raised` comes back, the
  // method stands for one that ended in an exception: the fields are as it left them, and its `ev` are the events it
  // had collected, which no caller sees.

  import opened Types
  import opened Steps
  import opened Normalize
  import opened EngineTypes
  import M = EngineModel

  datatype TrailTerms = TrailTerms(armR: real, dist: real, r: real)

  class OpenPosition {
    const direction: Direction
    var qty: real
    var entryPrice: real
    const leverage: Leverage
    var sl: real
    const tp: Option<real>
    var liqPrice: real
    var entryCommission: real
    const openedMs: int
    var fundingPaid: real
    var liqAlerted: bool
    const trail: Option<TrailTerms>
    var trailArmed: bool
    var trailMoved: bool

    constructor (p: Position)
      ensures Value() == p
    {
      direction, qty, entryPrice, leverage, sl, tp := p.direction, p.qty, p.entryPrice, p.leverage, p.sl, p.tp;
      liqPrice, entryCommission, openedMs := p.liqPrice, p.entryCommission, p.openedMs;
      fundingPaid, liqAlerted := p.fundingPaid, p.liqAlerted;
      match p.trail {
        case None => trail, trailArmed, trailMoved := None, false, false;
        case Some(t) => trail, trailArmed, trailMoved := Some(TrailTerms(t.armR, t.dist, t.r)), t.armed, t.moved;
      }
    }

    function Value(): PositionData
      reads this
    {
      PositionData.Position(
        direction, qty, entryPrice, leverage, sl, tp, liqPrice, entryCommission, openedMs, fundingPaid, liqAlerted,
        if trail.None? then None
        else Some(TrailState(trail.value.armR, trail.value.dist, trail.value.r, trailArmed, trailMoved)))
    }

    predicate Usable()
      reads this
    {
      qty > 0.0 && entryPrice != 0.0
    }
  }

  class Engine {
    const c: M.Config
    var wallet: real
    var position: OpenPosition?
    var pending: Option<EntryIntent>
    var blocked: seq<BlockReason>
    var lastTick: Option<MarkTick>
    var restoredFunding: Option<int>
    var lastEntryTp: Option<real>

    predicate Valid()
      reads this, position
    {
      position != null ==> position.Usable()
    }

    /** The abstract value every theorem speaks of. */
    function State(): EngineState
      requires Valid()
      reads this, position
    {
      EngineState(wallet, if position == null then None else Some(position.Value()), pending, blocked, lastTick,
                  restoredFunding, lastEntryTp)
    }

    /** The position record is never shared: it stays, goes, or is replaced by a new one. */
    twostate predicate Owned()
      reads this
    {
      position == null || position == old(position) || fresh(position)
    }

    constructor (c: M.Config, wallet: real)
      ensures Valid() && position == null && this.c == c
      ensures State() == EngineState(wallet, None, None, [], None, None, None)
    {
      this.c, this.wallet := c, wallet;
      position, pending, blocked, lastTick, restoredFunding, lastEntryTp := null, None, [], None, None, None;
    }

    // -------------------------------------------------------------- inputs

    method RequestEntry(i: EntryIntent) returns (ev: seq<Event>, raised: bool)
      requires Valid()
      modifies this
      ensures Valid() && position == old(position)
      ensures Step(State(), ev, raised) == M.RequestEntry(c, old(State()), i)
    {
      ev, raised := [], true;
      if blocked != [] { return; }
      if position != null || pending.Some? { return; }
      if !(c.levLo <= i.regime.lMin <= i.regime.lMax <= c.levHi) { return; }
      if i.slRule.Some? && i.sl != i.slRule.value.anchor { return; }
      if i.trail.Some? && !M.TrailIntentOk(i.trail.value) { return; }
      if i.tpRule.Some? && (i.tp.Some? || i.tpRule.value.minR <= 0.0 || i.tpRule.value.fallbackR <= 0.0) { return; }
      if i.tp.Some? && (if i.direction.Long? then i.tp.value <= i.decisionMark else i.tp.value >= i.decisionMark) { return; }
      pending, raised := Some(i), false;
    }

    method OnTick(t: MarkTick, x: TickScript) returns (ev: seq<Event>, raised: bool)
      requires Valid()
      modifies this, position
      ensures Valid() && Owned()
      ensures Step(State(), ev, raised) == M.OnTick(c, old(State()), t, x)
    {
      if !M.GridOk(c, t) { return [], true; }
      ev := FundingOnTick(t);
      lastTick := Some(t);
      var entered, judged;
      entered, raised := EntryIfDue(t.ts, t.mark, x.entry, x.gateExit);
      if raised { return ev + entered, true; }
      judged, raised := Judge(t.ts, t.mark, t.mark, t.mark, t.mark, t.mark, x.exit);
      ev := ev + (entered + judged);
    }

    method EntryIfDue(ts: int, mark: real, x: EntryScript, gx: ExitScript) returns (ev: seq<Event>, raised: bool)
      requires Valid()
      modifies this, position
      ensures Valid() && Owned()
      ensures Step(State(), ev, raised) == M.EntryOnTick(c, old(State()), ts, mark, x, gx)
    {
      ev, raised := [], false;
      if pending.Some? && ts > pending.value.decidedMs { ev, raised := ExecuteEntry(mark, ts, x, gx); }
    }

    method OnBar(b: MarkBar, x: TickScript) returns (ev: seq<Event>, raised: bool)
      requires Valid()
      modifies this, position
      ensures Valid() && Owned()
      ensures Step(State(), ev, raised) == M.OnBar(c, old(State()), b, x)
    {
      ev, raised := EntryIfDue(b.openMs, b.open, x.entry, x.gateExit);
      if raised { return; }
      if position != null {
        var slRef := if position.direction.Long? then Min(position.sl, b.open) else Max(position.sl, b.open);
        var tpRef := if position.tp.Some? then position.tp.value else 0.0;
        var judged;
        judged, raised := Judge(b.closeMs, b.low, b.high, slRef, tpRef, b.close, x.exit);
        ev := ev + judged;
      }
    }

    method OnFunding(ts: int, rate: real, mark: real) returns (ev: seq<Event>)
      requires Valid()
      modifies this, position
      ensures Valid() && position == old(position)
      ensures Step(State(), ev, false) == M.OnFunding(c, old(State()), ts, rate, mark)
    {
      if position == null { return []; }
      ev := SettleFunding(ts, rate, mark);
    }

    method LiquidateIfOpenBeyond(open: real, ts: int) returns (ev: seq<Event>, raised: bool)
      requires Valid()
      modifies this
      ensures Valid() && Owned()
      ensures Step(State(), ev, raised) == M.LiquidateIfOpenBeyond(c, old(State()), open, ts)
    {
      if c.mode.Live? { return [], true; }
      ev, raised := [], false;
      if position == null { return; }
      if if position.direction.Long? then open <= position.liqPrice else open >= position.liqPrice {
        ev := Liquidate(ts);
      }
    }

    method CloseNow(refMark: real, ts: int, reason: ExitReason, x: ExitScript) returns (ev: seq<Event>, raised: bool)
      requires Valid()
      modifies this, position
      ensures Valid() && Owned()
      ensures Step(State(), ev, raised) == M.CloseNow(c, old(State()), refMark, ts, reason, x)
    {
      ev, raised := [], false;
      if position != null { ev, raised := Exit(reason, refMark, ts, x); }
    }

    method Vanish(ts: int) returns (ev: seq<Event>)
      requires Valid()
      modifies this
      ensures Valid() && Owned()
      ensures Step(State(), ev, false) == M.Vanish(old(State()), ts)
    {
      if position == null { return []; }
      ev := [PositionVanished(ts, position.direction, position.qty, position.entryPrice)];
      position := null;
      var why := Block(ts, Vanished);
      ev := ev + [why];
    }

    method SyncWallet(ts: int, amount: real) returns (ev: seq<Event>)
      requires Valid()
      modifies this`wallet
      ensures Valid() && position == old(position)
      ensures Step(State(), ev, false) == M.SyncWallet(old(State()), ts, amount)
    {
      ev := [WalletResynced(ts, wallet, amount)];
      wallet := amount;
    }

    method CancelPending(ts: int) returns (ev: seq<Event>)
      requires Valid()
      modifies this`pending
      ensures Valid() && position == old(position)
      ensures Step(State(), ev, false) == M.CancelPending(old(State()), ts)
    {
      if pending.None? { return []; }
      pending := None;
      ev := [EntrySkipped(ts, EntriesAreBlocked)];
    }

    method ClearBlocks() returns (cleared: seq<BlockReason>)
      requires Valid()
      modifies this`blocked
      ensures Valid() && position == old(position) && cleared == old(blocked)
      ensures State() == M.ClearBlocks(old(State())).st
    {
      cleared, blocked := blocked, [];
    }

    method RestorePosition(st: M.PosState, ts: int) returns (ev: seq<Event>, raised: bool)
      requires Valid()
      modifies this
      ensures Valid() && Owned()
      ensures Step(State(), ev, raised) == M.RestorePosition(c, old(State()), st, ts)
    {
      ev, raised := [], true;
      if position != null || pending.Some? || st.nextFunding.None? { return; }
      var p := new OpenPosition(st.position);
      var n := st.position.Notional();
      M.NotionalIsNonzero(st.position);
      match c.liquidation(p.direction, p.entryPrice, n, p.leverage, c.taker + p.fundingPaid / n) {
        case None => return;
        case Some(e) => p.liqPrice := e.price;
      }
      position, lastTick, restoredFunding, raised := p, None, st.nextFunding, false;
      ev := [PositionRestored(ts, p.direction, p.qty, p.entryPrice, p.liqPrice)];
    }

    // -------------------------------------------------------------- blocks, funding and liquidation

    method Block(ts: int, why: BlockReason) returns (ev: Event)
      modifies this`blocked
      ensures blocked == if why in old(blocked) then old(blocked) else old(blocked) + [why]
      ensures ev == EntriesBlocked(ts, why)
    {
      if why !in blocked { blocked := blocked + [why]; }
      ev := EntriesBlocked(ts, why);
    }

    method FundingOnTick(t: MarkTick) returns (ev: seq<Event>)
      requires Valid()
      modifies this, position
      ensures Valid() && position == old(position)
      ensures Step(State(), ev, false) == M.FundingOnTick(c, old(State()), t)
    {
      ev := [];
      var nf := restoredFunding;
      restoredFunding := None;
      if position == null { return; }
      var signed := position.Value().Signed();
      if nf.Some? && lastTick.None? && t.ts >= nf.value {
        var missed := [nf.value] + M.MissedBoundaries(c, nf.value, t.ts);
        var why := Block(t.ts, FundingMissedOnRestart(|missed|));
        ev := [FundingMissed(t.ts, missed, signed), why];
      }
      if lastTick.Some? && lastTick.value.ts < lastTick.value.nextFunding <= t.ts {
        var prev := lastTick.value;
        ev := SettleFunding(prev.nextFunding, prev.rate, prev.mark);
        var missed := M.MissedBoundaries(c, prev.nextFunding, t.ts);
        if missed != [] {
          var why := Block(t.ts, FundingMissedInGap(|missed|));
          ev := ev + [FundingMissed(t.ts, missed, signed), why];
        }
      }
    }

    method SettleFunding(ts: int, rate: real, mark: real) returns (ev: seq<Event>)
      requires Valid() && position != null
      modifies this`wallet, position
      ensures Valid() && position == old(position)
      ensures Step(State(), ev, false) == M.SettleFunding(c, old(State()), ts, rate, mark)
    {
      hide M.FundingDue, M.RefreshLiquidation;
      var paid := M.FundingDue(position.Value(), rate, mark);
      wallet := wallet - paid;
      position.fundingPaid := position.fundingPaid + paid;
      assert position.Value() == old(position.Value()).(fundingPaid := old(position.fundingPaid) + paid);
      RefreshLiquidation();
      ev := [FundingSettled(ts, rate, mark, position.Value().Signed(), paid, wallet)];
    }

    method RefreshLiquidation()
      requires Valid() && position != null
      modifies position`liqPrice
      ensures position.Value() == M.RefreshLiquidation(c, old(position.Value()))
    {
      var p: Position := position.Value();
      var n := p.Notional();
      M.NotionalIsNonzero(p);
      match c.liquidation(position.direction, position.entryPrice, n, position.leverage, c.taker + position.fundingPaid / n) {
        case None =>
        case Some(e) => position.liqPrice := e.price;
      }
    }

    method Liquidate(ts: int) returns (ev: seq<Event>)
      requires Valid() && position != null
      modifies this`wallet, this`position
      ensures Valid() && position == null
      ensures Step(State(), ev, false) == M.Liquidate(c, old(State()), ts)
    {
      var p := position;
      var n := p.qty * p.entryPrice;
      var feeBase := if c.liqFeeOnLiqPrice then p.qty * p.liqPrice else n;
      var loss := n / p.leverage as real - p.entryCommission - p.fundingPaid + feeBase * c.liquidationFee;
      wallet := wallet - loss;
      position := null;
      ev := [PositionClosed(ts, p.direction, Liquidation, p.qty, p.entryPrice, None, [], -loss, 0.0, p.fundingPaid, wallet)];
    }

    // -------------------------------------------------------------- sending

    /** Send chunk after chunk; a chunk the parameter check refuses ends the loop. */
    method SendPaper(side: Side, chunks: seq<real>, refMark: real, reduceOnly: bool) returns (fills: seq<Fill>, n: nat)
      ensures n == M.GoodPrefix(chunks, c.rules)
      ensures fills == M.PaperFills(c, side, chunks[..n], refMark, reduceOnly)
    {
      fills, n := [], 0;
      while n < |chunks| && ParamsOk(chunks[n], c.rules)
        invariant n <= |chunks| && GoodSoFar(chunks, c.rules, n)
        invariant fills == M.PaperFills(c, side, chunks[..n], refMark, reduceOnly)
      {
        fills := fills + [PaperFill(c, side, chunks[n], refMark, reduceOnly)];
        PaperFillsExtend(c, side, chunks, n, refMark, reduceOnly);
        n := n + 1;
      }
      PrefixEnds(chunks, c.rules, n);
    }

    method SendExit(reason: ExitReason, refMark: real, ts: int, x: ExitScript) returns (ev: seq<Event>, raised: bool)
      requires Valid() && position != null
      modifies this, position
      ensures Valid() && (position == null || position == old(position))
      ensures Step(State(), ev, raised) == M.SendExit(c, old(State()), reason, refMark, ts, x)
    {
      var p := position;
      if !Multiple(p.qty, c.rules.marketStep) { return [], true; }
      raised := false;
      var sent := x.sent;
      if c.mode.Paper? {
        SplitExit(p.qty, c.rules);
        var out := SplitMarketQty(p.qty, c.rules, None, true);
        var fills, n := SendPaper(SideFor(p.direction, Intent.Exit), out.value, refMark, true);
        assert out.value[..n] == out.value;
        sent := Sent.Sent(fills, None);
      }
      ev := BookExit(reason, ts, sent.fills);
      if sent.failure.Some? {
        var why := Block(ts, ExitSendFailed);
        ev := ev + [ExitFailed(ts, reason), why];
      }
    }

    method BookExit(reason: ExitReason, ts: int, fills: seq<Fill>) returns (ev: seq<Event>)
      requires Valid() && position != null
      modifies this`wallet, this`position, position`qty
      ensures Valid() && (position == null || position == old(position))
      ensures Step(State(), ev, false) == M.BookExit(old(State()), reason, ts, fills)
    {
      if fills == [] { return []; }
      var p := position;
      var q := FillQty(fills);
      var px := M.Vwap(fills);
      M.FillsArePositive(fills);
      var pnl := if p.direction.Long? then (px - p.entryPrice) * q else (p.entryPrice - px) * q;
      var comm := FillCommission(fills);
      wallet := wallet + (pnl - comm);
      if q >= p.qty {
        position := null;
        ev := [PositionClosed(ts, p.direction, reason, q, p.entryPrice, Some(px), fills, pnl, comm, p.fundingPaid, wallet)];
      } else {
        p.qty := p.qty - q;
        ev := [PositionReduced(ts, p.direction, reason, q, p.qty, p.entryPrice, Some(px), fills, pnl, comm, wallet),
               ExitFailed(ts, reason)];
      }
    }

    /** Adopt the exchange's quantity of the same sign before closing. */
    method ResyncQty(refMark: real, ts: int, pr: PositionRisk) returns (ev: seq<Event>)
      requires Valid() && position != null && pr.amt != 0.0
      modifies this`wallet, this`blocked, position
      ensures Valid() && position == old(position)
      ensures Step(State(), ev, false) == M.ResyncQty(c, old(State()), refMark, ts, pr)
    {
      hide M.TakerFee;
      var p, held := position, Abs(pr.amt);
      var why := Block(ts, ResyncBeforeExit(p.Value().Signed(), pr.amt));
      ev := [why];
      var previous, extra := p.qty, 0.0;
      if held > p.qty {
        extra := M.TakerFee(c, held - p.qty, if pr.entryPrice > 0.0 then pr.entryPrice else refMark);
        wallet := wallet - extra;
        p.entryCommission := p.entryCommission + extra;
      } else {
        ev := ev + [PositionVanished(ts, p.direction, p.qty - held, p.entryPrice)];
      }
      p.qty := held;
      if pr.entryPrice > 0.0 { p.entryPrice := pr.entryPrice; }
      if p.qty > previous { ev := ev + [PositionSynced(ts, p.direction, previous, p.qty, p.entryPrice, extra)]; }
    }

    /** After a LIVE exit that left the engine flat the exchange is read once more. */
    method ReadAfterExit(ts: int, soFar: seq<Event>, x: ExitScript) returns (ev: seq<Event>)
      requires Valid()
      modifies this`blocked
      ensures Valid() && position == old(position)
      ensures Step(State(), ev, false) == M.AfterExit(c, Step(old(State()), soFar, false), ts, x)
    {
      ev := soFar;
      if c.mode.Paper? || position != null { return; }
      match x.afterRead {
        case None =>
          var why := Block(ts, ReadFailed);
          ev := ev + [why];
        case Some(pr) =>
          if pr.amt != 0.0 {
            var why := Block(ts, ExitLeftover(pr.amt));
            ev := ev + [why];
          }
      }
    }

    method SendAndRead(reason: ExitReason, refMark: real, ts: int, soFar: seq<Event>, x: ExitScript)
      returns (ev: seq<Event>, raised: bool)
      requires Valid() && position != null
      modifies this, position
      ensures Valid() && (position == null || position == old(position))
      ensures Step(State(), ev, raised)
           == M.AfterExit(c, M.Then(Step(old(State()), soFar, false), M.SendExit(c, old(State()), reason, refMark, ts, x)), ts, x)
    {
      var sent;
      sent, raised := SendExit(reason, refMark, ts, x);
      if raised { return soFar + sent, true; }
      ev := ReadAfterExit(ts, soFar + sent, x);
    }

    method Exit(reason: ExitReason, refMark: real, ts: int, x: ExitScript) returns (ev: seq<Event>, raised: bool)
      requires Valid() && position != null
      modifies this, position
      ensures Valid() && (position == null || position == old(position))
      ensures Step(State(), ev, raised) == M.DoExit(c, old(State()), reason, refMark, ts, x)
    {
      hide M.AfterExit, M.SendExit, M.ResyncQty, M.Then;
      ev, raised := [], false;
      if c.mode.Paper? {
        ev, raised := SendExit(reason, refMark, ts, x);
        return;
      }
      match x.read {
        case None =>
          var why := Block(ts, ReadFailed);
          ev, raised := SendAndRead(reason, refMark, ts, [why], x);
        case Some(pr) => ev, raised := ExitAgainst(pr, reason, refMark, ts, x);
      }
    }

    /** Close what the exchange really holds; stop if it holds nothing or the opposite. */
    method ExitAgainst(pr: PositionRisk, reason: ExitReason, refMark: real, ts: int, x: ExitScript)
      returns (ev: seq<Event>, raised: bool)
      requires Valid() && position != null && c.mode.Live? && x.read == Some(pr)
      modifies this, position
      ensures Valid() && (position == null || position == old(position))
      ensures Step(State(), ev, raised) == M.DoExit(c, old(State()), reason, refMark, ts, x)
    {
      hide M.AfterExit, M.SendExit, M.ResyncQty, M.Then;
      ev, raised := [], false;
      if pr.amt == 0.0 {
        ev := [PositionVanished(ts, position.direction, position.qty, position.entryPrice), ExitFailed(ts, reason)];
        position := null;
        var why := Block(ts, AlreadyFlat);
        ev := ev + [why];
        return;
      }
      if (pr.amt > 0.0) != position.direction.Long? {
        var why := Block(ts, OppositeSign);
        ev := [ExitFailed(ts, reason), why];
        return;
      }
      if pr.amt != position.Value().Signed() {
        ev := ResyncQty(refMark, ts, pr);
      } else {
        M.NothingFirst(State(), M.SendExit(c, State(), reason, refMark, ts, x));
      }
      ev, raised := SendAndRead(reason, refMark, ts, ev, x);
    }

    // -------------------------------------------------------------- entries

    method ExecuteEntry(refMark: real, ts: int, x: EntryScript, gx: ExitScript) returns (ev: seq<Event>, raised: bool)
      requires Valid() && pending.Some?
      modifies this, position
      ensures Valid() && Owned()
      ensures Step(State(), ev, raised) == M.ExecuteEntry(c, old(State()), refMark, ts, x, gx)
    {
      hide M.OpenPosition, M.Quote, M.EntrySl, M.SlCrossed;
      var i := pending.value;
      pending, raised := None, false;
      var quote := M.Quote(c, SideFor(i.direction, Intent.Entry), refMark);
      var sl := M.EntrySl(i, quote);
      if M.SlCrossed(i.direction, refMark, sl) { return [EntrySkipped(ts, SlCrossedBeforeFill)], false; }
      var equity := if c.sizingCapital.None? then wallet else c.sizingCapital.value;
      match c.size(quote, sl, i.direction, equity, i.regime) {
        case None => return [], true;
        case Some(d) =>
          if !d.ok || d.leverage.None? {
            return [EntrySkipped(ts, if d.wrongSide then SlCrossedBeforeFill else SizingRejected)], false;
          }
          if c.mode.Live? && x.echo != Some(d.leverage.value) { return [EntrySkipped(ts, LeverageNotConfirmed)], false; }
          ev, raised := OpenFromChunks(i, d, d.leverage.value, refMark, ts, x, gx);
      }
    }

    method SendChunks(i: EntryIntent, d: SizingDecision, refMark: real, x: EntryScript) returns (sent: Sent)
      ensures sent == M.EntrySent(c, i.direction, d.chunks, refMark, x)
    {
      if c.mode.Live? { return x.sent; }
      var fills, n := SendPaper(SideFor(i.direction, Intent.Entry), d.chunks, refMark, false);
      sent := Sent.Sent(fills, if n < |d.chunks| then Some(OtherSendError) else None);
    }

    /** Send the chunks; after a LIVE failure adopt a larger position of the same side. */
    method SendEntry(i: EntryIntent, d: SizingDecision, refMark: real, ts: int, x: EntryScript)
      returns (f: M.Filled, fills: seq<Fill>)
      requires Valid() && M.Quoted(c, i, refMark)
      modifies this`blocked
      ensures Valid() && position == old(position)
      ensures f.st == State() && (f, fills) == M.Fills(c, old(State()), i, d, refMark, ts, x)
    {
      hide M.EntrySent, M.Vwap, M.TakerFee, Sign, Abs, FillQty, FillCommission, FillNotional;
      var sent := SendChunks(i, d, refMark, x);
      fills := sent.fills;
      var qty, commission := FillQty(fills), FillCommission(fills);
      var entry := if fills == [] then refMark else M.Vwap(fills);
      if sent.failure.None? {
        f := M.Filled.Filled(State(), [], qty, entry, commission, false, None);
        return;
      }
      var why := Block(ts, EntrySendFailed(|fills|, |d.chunks|));
      f := M.Filled.Filled(State(), [why], qty, entry, commission, false, sent.failure);
      if c.mode.Paper? { return; }
      f := AdoptLarger(i, ts, f, x);
    }

    method AdoptLarger(i: EntryIntent, ts: int, sent: M.Filled, x: EntryScript) returns (f: M.Filled)
      requires Valid() && sent.st == State()
      modifies this`blocked
      ensures Valid() && position == old(position)
      ensures f.st == State() && f == M.AdoptLarger(c, i, ts, sent, x)
    {
      hide M.TakerFee, Sign, Abs;
      f := sent;
      match x.adoptRead {
        case None =>
          var unread := Block(ts, ReadFailed);
          f := f.(st := State(), notes := f.notes + [unread]);
        case Some(pr) =>
          if pr.amt * Sign(i.direction) > 0.0 && Abs(pr.amt) > f.qty && pr.entryPrice > 0.0 {
            var commission := f.commission + M.TakerFee(c, Abs(pr.amt) - f.qty, pr.entryPrice);
            f := f.(qty := Abs(pr.amt), entry := pr.entryPrice, commission := commission, adopted := true);
          } else if Abs(pr.amt) != f.qty {
            var odd := Block(ts, EntryQtyMismatch(pr.amt, f.qty));
            f := f.(st := State(), notes := f.notes + [odd]);
          }
      }
    }

    method OpenFromChunks(i: EntryIntent, d: SizingDecision, lev: Leverage, refMark: real, ts: int, x: EntryScript,
                          gx: ExitScript)
      returns (ev: seq<Event>, raised: bool)
      requires Valid() && M.Quoted(c, i, refMark)
      modifies this, position
      ensures Valid() && Owned()
      ensures Step(State(), ev, raised) == M.OpenPosition(c, old(State()), i, d, lev, refMark, ts, x, gx)
    {
      raised := false;
      var f, fills := SendEntry(i, d, refMark, ts, x);
      if f.qty <= 0.0 {
        ev := f.notes + (if f.failure == Some(OtherSendError) then [EntrySkipped(ts, SendFailed)] else []);
        return;
      }
      var post := M.CheckFill(c, i, d, lev, f.entry, f.qty);
      ev, raised := BookEntry(M.NewPosition(i, d, lev, f, post.liqPrice, ts), post.gateOk, f, fills, refMark, ts, x, gx);
    }

    /** Set the wallet and the position, and say so. */
    method RecordEntry(p: Position, f: M.Filled, fills: seq<Fill>, ts: int) returns (ev: seq<Event>)
      requires Valid() && f.st == State()
      modifies this`wallet, this`position, this`lastEntryTp
      ensures Valid() && fresh(position)
      ensures State() == f.st.(wallet := (if c.sizingCapital.Some? then c.sizingCapital.value else f.st.wallet) - f.commission,
                               position := Some(p), lastEntryTp := p.tp)
      ensures ev == M.OpeningEvents(c, f.st, p, fills, f.adopted, ts)
    {
      ev := [];
      if c.sizingCapital.Some? {
        ev := [WalletResynced(ts, wallet, c.sizingCapital.value)];
        wallet := c.sizingCapital.value;
      }
      wallet := wallet - f.commission;
      var o := new OpenPosition(p);
      position, lastEntryTp := o, o.tp;
      ev := ev + [EntryFilled(ts, o.direction, o.qty, o.entryPrice, o.leverage, o.sl, o.liqPrice, fills, o.entryCommission, f.adopted)];
      if o.trail.Some? {
        ev := ev + [TrailSet(ts, o.trail.value.armR, o.trail.value.dist, o.trail.value.r)];
      }
    }

    method BookEntry(p: Position, gateOk: bool, f: M.Filled, fills: seq<Fill>, refMark: real, ts: int, x: EntryScript, gx: ExitScript)
      returns (ev: seq<Event>, raised: bool)
      requires Valid() && f.st == State()
      modifies this
      ensures Valid() && (position == null || fresh(position))
      ensures Step(State(), ev, raised) == M.BookEntry(c, p, gateOk, f, fills, refMark, ts, x, gx)
    {
      hide M.DoExit, M.LiveCheck, M.OpeningEvents;
      raised := false;
      ev := RecordEntry(p, f, fills, ts);
      ghost var opening := State();
      var checked := LiveCheck(ts, x);
      ev := ev + f.notes + checked;
      assert Step(State(), ev, false) == M.Announce(c, p, f, fills, M.LiveCheck(c, opening, ts, x), ts);
      if !gateOk {
        var closed;
        closed, raised := Exit(PostFillGate, refMark, ts, gx);
        ev := ev + closed;
      }
    }

    method LiveCheck(ts: int, x: EntryScript) returns (ev: seq<Event>)
      requires Valid() && position != null
      modifies this`blocked
      ensures Valid() && position == old(position)
      ensures Step(State(), ev, false) == M.LiveCheck(c, old(State()), ts, x)
    {
      ev := [];
      if c.mode.Paper? { return; }
      match x.checkRead {
        case None =>
          var why := Block(ts, ReadFailed);
          ev := [why];
        case Some(pr) =>
          if x.checkFails {
            var why := Block(ts, LiquidationCheckFailed);
            ev := [why];
          }
          var signed := position.Value().Signed();
          if pr.amt != signed {
            var why := Block(ts, LiveMismatch(signed, pr.amt));
            ev := ev + [why];
          }
      }
    }

    // -------------------------------------------------------------- judging

    method Judge(ts: int, low: real, high: real, slRef: real, tpRef: real, mark: real, x: ExitScript)
      returns (ev: seq<Event>, raised: bool)
      requires Valid()
      modifies this, position
      ensures Valid() && (position == null || position == old(position))
      ensures Step(State(), ev, raised) == M.Judge(c, old(State()), ts, low, high, slRef, tpRef, mark, x)
    {
      if position == null { return [], false; }
      ev, raised := Evaluate(ts, low, high, slRef, tpRef, mark, x);
      if raised { return; }
      var trailed := Trail(ts, low, high);
      ev := ev + trailed;
    }

    method Evaluate(ts: int, low: real, high: real, slRef: real, tpRef: real, mark: real, x: ExitScript)
      returns (ev: seq<Event>, raised: bool)
      requires Valid() && position != null
      modifies this, position
      ensures Valid() && (position == null || position == old(position))
      ensures Step(State(), ev, raised) == M.Evaluate(c, old(State()), ts, low, high, slRef, tpRef, mark, x)
    {
      var p := position;
      var isLong := p.direction.Long?;
      ev, raised := [], false;
      var liqHit := if isLong then low <= p.liqPrice else high >= p.liqPrice;
      if liqHit {
        if c.mode.Paper? {
          ev := Liquidate(ts);
          return;
        }
        if !p.liqAlerted {
          p.liqAlerted := true;
          ev := [LiquidationThresholdCrossed(ts, mark, p.liqPrice)];
        }
      }
      var closed: seq<Event> := [];
      if if isLong then low <= p.sl else high >= p.sl {
        closed, raised := Exit(if p.trail.Some? && p.trailMoved then TrailStop else StopLoss, slRef, ts, x);
      } else if p.tp.Some? && (if isLong then high >= p.tp.value else low <= p.tp.value) {
        closed, raised := Exit(TakeProfit, tpRef, ts, x);
      }
      ev := ev + closed;
    }

    /** Runs after the judgement: a stop tightened here is used from the next tick or bar on. */
    method Trail(ts: int, low: real, high: real) returns (ev: seq<Event>)
      requires Valid()
      modifies this, position
      ensures Valid() && position == old(position)
      ensures Step(State(), ev, false) == M.TrailStep(old(State()), ts, low, high)
    {
      ev := [];
      if position == null || position.trail.None? { return; }
      var p, t := position, position.trail.value;
      var isLong := p.direction.Long?;
      var best := if isLong then high else low;
      if !p.trailArmed {
        var gain := if isLong then best - p.entryPrice else p.entryPrice - best;
        if gain < t.armR * t.r { return; }
        p.trailArmed := true;
        ev := [TrailArmed(ts, best)];
      }
      var cand := if isLong then best - t.dist else best + t.dist;
      if if isLong then cand <= p.sl else cand >= p.sl { return; }
      ev := ev + [StopTrailed(ts, p.sl, cand)];
      p.sl, p.trailMoved := cand, true;
    }
  }

  /** The fill `PaperSender` reports for one accepted order. */
  function PaperFill(c: M.Config, side: Side, qty: real, refMark: real, reduceOnly: bool): Fill
    requires qty > 0.0
  {
    var price := M.Quote(c, side, refMark);
    FillData.Fill(side, qty, price, M.TakerFee(c, qty, price), reduceOnly, refMark)
  }

  predicate GoodSoFar(chunks: seq<real>, r: SymbolRules, n: nat) {
    forall j :: 0 <= j < n && j < |chunks| ==> ParamsOk(chunks[j], r)
  }

  lemma PaperFillsStep(c: M.Config, side: Side, chunks: seq<real>, refMark: real, reduceOnly: bool)
    requires chunks != [] && forall j :: 0 <= j < |chunks| ==> chunks[j] > 0.0
    ensures M.PaperFills(c, side, chunks, refMark, reduceOnly)
         == [PaperFill(c, side, chunks[0], refMark, reduceOnly)] + M.PaperFills(c, side, chunks[1..], refMark, reduceOnly)
  {}

  lemma {:induction false} PaperFillsExtend(c: M.Config, side: Side, chunks: seq<real>, n: nat, refMark: real, reduceOnly: bool)
    requires n < |chunks| && GoodSoFar(chunks, c.rules, n + 1)
    ensures forall j :: 0 <= j <= n ==> chunks[j] > 0.0
    ensures M.PaperFills(c, side, chunks[..n + 1], refMark, reduceOnly)
         == M.PaperFills(c, side, chunks[..n], refMark, reduceOnly) + [PaperFill(c, side, chunks[n], refMark, reduceOnly)]
  {
    if n == 0 {
      PaperFillsStep(c, side, chunks[..1], refMark, reduceOnly);
      assert chunks[..1][1..] == [] && chunks[..0] == [];
    } else {
      var rest := chunks[1..];
      assert GoodSoFar(rest, c.rules, n);
      PaperFillsExtend(c, side, rest, n - 1, refMark, reduceOnly);
      assert chunks[..n + 1][1..] == rest[..n] && chunks[..n][1..] == rest[..n - 1];
      assert chunks[..n + 1][0] == chunks[0] && chunks[..n][0] == chunks[0];
      var head, last := [PaperFill(c, side, chunks[0], refMark, reduceOnly)], [PaperFill(c, side, chunks[n], refMark, reduceOnly)];
      var middle := M.PaperFills(c, side, rest[..n - 1], refMark, reduceOnly);
      PaperFillsStep(c, side, chunks[..n + 1], refMark, reduceOnly);
      PaperFillsStep(c, side, chunks[..n], refMark, reduceOnly);
      assert M.PaperFills(c, side, chunks[..n + 1], refMark, reduceOnly)
          == head + M.PaperFills(c, side, chunks[..n + 1][1..], refMark, reduceOnly);
      assert head + (middle + last) == (head + middle) + last;
      assert M.PaperFills(c, side, chunks[..n], refMark, reduceOnly) == head + middle;
    }
  }

  /** The loop stops exactly at the first refused chunk. */
  lemma {:induction false} PrefixEnds(chunks: seq<real>, r: SymbolRules, n: nat)
    requires n <= |chunks| && GoodSoFar(chunks, r, n)
    requires n < |chunks| ==> !ParamsOk(chunks[n], r)
    ensures n == M.GoodPrefix(chunks, r)
  {
    if n > 0 {
      PrefixEnds(chunks[1..], r, n - 1);
    }
  }
}
