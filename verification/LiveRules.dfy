/** What LIVE makes of the exchange's answers: what it takes itself to hold, what that cost, and whether entries stay
    allowed (paper/engine.py:459-524, 536-563, 585-694). */
module LiveRules {
  import opened Types
  import opened Steps
  import opened Normalize
  import opened EngineTypes
  import opened EngineModel
  import opened Accounting
  import opened PaperRuns
  import opened ExitPrices
  import opened EntryRules

  // ---------------------------------------------------------------- exits

  /** The exchange's quantity counted in the position's direction. */
  function OnSide(d: Direction, amt: real): real {
    Sign(d) * amt
  }

  /** `q` is `p` as the exchange has it: its quantity, at its price if that is positive. Where the exchange could not be
      read, or agrees, it is `p`. */
  predicate HeldAs(p: Position, read: Option<PositionRisk>, q: Position) {
    && q == p.(qty := q.qty, entryPrice := q.entryPrice, entryCommission := q.entryCommission)
    && if read.None? || OnSide(p.direction, read.value.amt) == p.qty then q == p
       else
         && q.qty == OnSide(p.direction, read.value.amt)
         && q.entryPrice == (if read.value.entryPrice > 0.0 then read.value.entryPrice else p.entryPrice)
  }

  /** The taker fee on quantity that came to light: at the exchange's price, or at the mark if that is not positive. */
  function FoundFee(c: Config, found: real, price: real, mark: real): real {
    if found <= 0.0 then 0.0 else found * (if price > 0.0 then price else mark) * c.taker
  }

  function PriceRead(read: Option<PositionRisk>): real {
    if read.None? then 0.0 else read.value.entryPrice
  }

  /** Each fill at its own price, less its own commission. */
  function Results(d: Direction, entry: real, fills: seq<Fill>): real {
    if fills == [] then 0.0
    else fills[0].qty * Gain(d, entry, fills[0].price) - fills[0].commission + Results(d, entry, fills[1..])
  }

  lemma {:induction false} ResultsAdd(d: Direction, entry: real, fills: seq<Fill>)
    ensures Results(d, entry, fills) == Sign(d) * (FillNotional(fills) - FillQty(fills) * entry) - FillCommission(fills)
  {
    hide Gain;
    if fills != [] {
      var f, rest := fills[0], fills[1..];
      ResultsAdd(d, entry, rest);
      OneResult(d, entry, f);
      AddResult(d, f.qty * f.price, FillNotional(rest), f.qty, FillQty(rest), entry);
    }
  }

  lemma AddResult(d: Direction, n: real, more: real, q: real, rest: real, entry: real)
    ensures Sign(d) * (n - q * entry) + Sign(d) * (more - rest * entry) == Sign(d) * (n + more - (q + rest) * entry)
  {
    Distribute(q, rest, entry);
  }

  lemma OneResult(d: Direction, entry: real, f: Fill)
    ensures f.qty * Gain(d, entry, f.price) == Sign(d) * (f.qty * f.price - f.qty * entry)
  {}

  lemma VwapResults(d: Direction, entry: real, fills: seq<Fill>)
    requires fills != []
    ensures FillQty(fills) * Gain(d, entry, Vwap(fills)) - FillCommission(fills) == Results(d, entry, fills)
  {
    FillsArePositive(fills);
    ResultsAdd(d, entry, fills);
    DivMul(FillNotional(fills), FillQty(fills));
    hide Results, FillNotional, FillQty, FillCommission;
    ProductOf(d, FillQty(fills), entry, Vwap(fills));
  }

  lemma ProductOf(d: Direction, q: real, entry: real, price: real)
    ensures q * Gain(d, entry, price) == Sign(d) * (price * q - q * entry)
  {}

  /** Orders sent for `q` were filled by `fills`: the rest stays, and the wallet has the result less commission. */
  ghost predicate FilledOf(q: Position, wallet: real, fills: seq<Fill>, st: EngineState) {
    if fills == [] then st.position == Some(q) && st.wallet == wallet
    else
      var n := FillQty(fills);
      && st.wallet == wallet + Results(q.direction, q.entryPrice, fills)
      && (if n >= q.qty then st.position.None? else q.qty - n > 0.0 && st.position == Some(q.(qty := q.qty - n)))
  }

  /** The exchange confirmed everything: it held what the engine held, answered every order, and holds nothing once the
      engine is flat. */
  predicate Smooth(p: Position, x: ExitScript, flat: bool) {
    && x.read.Some? && OnSide(p.direction, x.read.value.amt) == p.qty && x.sent.failure.None?
    && (flat ==> x.afterRead.Some? && x.afterRead.value.amt == 0.0)
  }

  lemma BookedOf(s: EngineState, reason: ExitReason, ts: int, fills: seq<Fill>)
    requires s.position.Some?
    ensures
      var st := BookExit(s, reason, ts, fills).st;
      FilledOf(s.position.value, s.wallet, fills, st) && st == s.(wallet := st.wallet, position := st.position)
    ensures !BookExit(s, reason, ts, fills).raised
  {
    hide Vwap, FillQty, FillCommission;
    FillsArePositive(fills);
    if fills != [] {
      PnlOf(s.position.value, Vwap(fills), FillQty(fills));
      VwapResults(s.position.value.direction, s.position.value.entryPrice, fills);
    }
  }

  lemma PnlOf(p: Position, price: real, qty: real)
    ensures Pnl(p, price, qty) == qty * Gain(p.direction, p.entryPrice, price)
  {}

  /** Sending an exit for the position the engine holds by now. */
  lemma SentOf(c: Config, s: EngineState, reason: ExitReason, mark: real, ts: int, x: ExitScript)
    requires c.mode.Live? && s.position.Some?
    ensures
      var q, step := s.position.value, SendExit(c, s, reason, mark, ts, x);
      && (step.raised <==> !Multiple(q.qty, c.rules.marketStep))
      && (step.raised ==> step.st == s)
      && (!step.raised ==>
            && FilledOf(q, s.wallet, x.sent.fills, step.st)
            && step.st == s.(wallet := step.st.wallet, position := step.st.position, blocked := step.st.blocked)
            && (step.st.blocked == [] <==> s.blocked == [] && x.sent.failure.None?))
  {
    hide BookExit, Multiple, FilledOf;
    BookedOf(s, reason, ts, x.sent.fills);
    FilledFrame(s, BookExit(s, reason, ts, x.sent.fills).st, x.sent.fills);
  }

  lemma FilledFrame(s: EngineState, st: EngineState, fills: seq<Fill>)
    requires s.position.Some? && FilledOf(s.position.value, s.wallet, fills, st)
    ensures FilledOf(s.position.value, s.wallet, fills, Block(st, ExitSendFailed))
  {}

  lemma AfterOf(c: Config, done: Step, ts: int, x: ExitScript)
    requires c.mode.Live?
    ensures
      var step := AfterExit(c, done, ts, x);
      && step.raised == done.raised && step.st == done.st.(blocked := step.st.blocked)
      && (step.raised ==> step == done)
      && (!step.raised ==>
            (step.st.blocked == [] <==>
               done.st.blocked == [] && (done.st.position.None? ==> x.afterRead.Some? && x.afterRead.value.amt == 0.0)))
  {}

  /** What the engine takes itself to hold by the time it sends. */
  lemma Resynced(c: Config, s: EngineState, mark: real, ts: int, pr: PositionRisk)
    requires c.mode.Live? && s.position.Some?
    requires OnSide(s.position.value.direction, pr.amt) > 0.0 && OnSide(s.position.value.direction, pr.amt) != s.position.value.qty
    ensures
      var p, st := s.position.value, ResyncQty(c, s, mark, ts, pr).st;
      var q, paid := st.position.value, FoundFee(c, OnSide(p.direction, pr.amt) - p.qty, pr.entryPrice, mark);
      && HeldAs(p, Some(pr), q) && q.entryCommission == p.entryCommission + paid && st.wallet == s.wallet - paid
      && st == s.(wallet := st.wallet, position := st.position, blocked := st.blocked) && st.blocked != []
  {
    assert Abs(pr.amt) == OnSide(s.position.value.direction, pr.amt);
  }

  /** Main theorem on LIVE exits. A position the exchange no longer has is dropped and one on the other side is left alone,
      without an order. Otherwise the engine holds what the exchange holds, pays the fee on what came to light, and the
      orders for that are filled as far as they are; only a quantity off the market step raises instead. Entries stay
      allowed exactly if the exchange confirmed everything. */
  lemma LiveExit(c: Config, s: EngineState, reason: ExitReason, mark: real, ts: int, x: ExitScript) returns (q: Position)
    requires c.mode.Live? && s.position.Some?
    ensures
      var p, read, step := s.position.value, x.read, DoExit(c, s, reason, mark, ts, x);
      var paid := FoundFee(c, q.qty - p.qty, PriceRead(read), mark);
      && step.st == s.(wallet := step.st.wallet, position := step.st.position, blocked := step.st.blocked)
      && if read.Some? && OnSide(p.direction, read.value.amt) <= 0.0 then
           && !step.raised && step.st.wallet == s.wallet && step.st.blocked != []
           && step.st.position == (if read.value.amt == 0.0 then None else s.position)
         else
           && HeldAs(p, read, q) && q.entryCommission == p.entryCommission + paid
           && (step.raised <==> !Multiple(q.qty, c.rules.marketStep))
           && (step.raised ==> step.st.position == Some(q) && step.st.wallet == s.wallet - paid)
           && (!step.raised ==>
                 && FilledOf(q, s.wallet - paid, x.sent.fills, step.st)
                 && (step.st.blocked == [] <==> s.blocked == [] && Smooth(p, x, step.st.position.None?)))
  {
    hide Multiple, SendExit, AfterExit, ResyncQty, FilledOf;
    var p := s.position.value;
    q := p;
    match x.read
    case None =>
      var st := Block(s, ReadFailed);
      SentOf(c, st, reason, mark, ts, x);
      AfterOf(c, Then(Step(st, [EntriesBlocked(ts, ReadFailed)], false), SendExit(c, st, reason, mark, ts, x)), ts, x);
      FilledSame(q, s.wallet, x.sent.fills, SendExit(c, st, reason, mark, ts, x).st, DoExit(c, s, reason, mark, ts, x).st);
    case Some(pr) =>
      Sides(p, pr.amt);
      if OnSide(p.direction, pr.amt) > 0.0 {
        if OnSide(p.direction, pr.amt) == p.qty {
          SentOf(c, s, reason, mark, ts, x);
          AfterOf(c, SendExit(c, s, reason, mark, ts, x), ts, x);
          FilledSame(q, s.wallet, x.sent.fills, SendExit(c, s, reason, mark, ts, x).st, DoExit(c, s, reason, mark, ts, x).st);
        } else {
          var synced := ResyncQty(c, s, mark, ts, pr);
          Resynced(c, s, mark, ts, pr);
          q := synced.st.position.value;
          SentOf(c, synced.st, reason, mark, ts, x);
          AfterOf(c, Then(synced, SendExit(c, synced.st, reason, mark, ts, x)), ts, x);
          FilledSame(q, synced.st.wallet, x.sent.fills, SendExit(c, synced.st, reason, mark, ts, x).st, DoExit(c, s, reason, mark, ts, x).st);
        }
      }
  }

  lemma Sides(p: Position, amt: real)
    ensures OnSide(p.direction, amt) > 0.0 <==> amt != 0.0 && (amt > 0.0) == p.direction.Long?
    ensures OnSide(p.direction, amt) == p.qty <==> amt == p.Signed()
  {}

  lemma FilledSame(q: Position, wallet: real, fills: seq<Fill>, st: EngineState, st': EngineState)
    requires st'.wallet == st.wallet && st'.position == st.position
    ensures FilledOf(q, wallet, fills, st) ==> FilledOf(q, wallet, fills, st')
  {}

  // ---------------------------------------------------------------- entries

  /** After a failure the exchange shows more on the entry's side than was filled, and a price for it. */
  predicate Adopts(d: Direction, x: EntryScript) {
    && x.sent.failure.Some? && x.adoptRead.Some?
    && OnSide(d, x.adoptRead.value.amt) > FillQty(x.sent.fills) && x.adoptRead.value.entryPrice > 0.0
  }

  /** What an entry has come to: what was filled, or all that the exchange shows. */
  function EnteredQty(d: Direction, x: EntryScript): real {
    if Adopts(d, x) then OnSide(d, x.adoptRead.value.amt) else FillQty(x.sent.fills)
  }

  function EnteredPrice(d: Direction, x: EntryScript): real
    requires Adopts(d, x) || x.sent.fills != []
  {
    if Adopts(d, x) then x.adoptRead.value.entryPrice else Vwap(x.sent.fills)
  }

  /** The commission the orders took, and the taker fee on what came to light. */
  function EnteredFee(c: Config, d: Direction, x: EntryScript): real {
    FillCommission(x.sent.fills)
    + if Adopts(d, x) then (OnSide(d, x.adoptRead.value.amt) - FillQty(x.sent.fills)) * x.adoptRead.value.entryPrice * c.taker else 0.0
  }

  /** The exchange confirmed everything: every order was answered, it holds the quantity entered, and its liquidation price
      passed the check. */
  predicate Confirmed(p: Position, x: EntryScript) {
    && x.sent.failure.None?
    && x.checkRead.Some? && OnSide(p.direction, x.checkRead.value.amt) == p.qty && !x.checkFails
  }

  /** The price an entry is held at pays for exactly its fills. */
  lemma AveragePays(fills: seq<Fill>)
    requires fills != []
    ensures Vwap(fills) * FillQty(fills) == FillNotional(fills)
  {
    FillsArePositive(fills);
    DivMul(FillNotional(fills), FillQty(fills));
    hide FillNotional, FillQty;
  }

  lemma LiveFilled(c: Config, s: EngineState, i: EntryIntent, d: SizingDecision, mark: real, ts: int, x: EntryScript)
    requires c.mode.Live? && Quoted(c, i, mark)
    ensures
      var f := Fills(c, s, i, d, mark, ts, x).0;
      && f.qty == EnteredQty(i.direction, x) >= 0.0 && f.commission == EnteredFee(c, i.direction, x)
      && (f.qty > 0.0 <==> Adopts(i.direction, x) || x.sent.fills != [])
      && (f.qty > 0.0 ==> f.entry == EnteredPrice(i.direction, x))
      && f.st == s.(blocked := f.st.blocked) && (f.st.blocked == [] <==> s.blocked == [] && x.sent.failure.None?)
  {
    hide Vwap, FillCommission, Quote;
    FillsArePositive(x.sent.fills);
    OneSide(i.direction, x);
  }

  lemma OneSide(d: Direction, x: EntryScript)
    requires FillQty(x.sent.fills) >= 0.0
    ensures x.adoptRead.Some? ==>
      var amt := x.adoptRead.value.amt;
      && (amt * Sign(d) > 0.0 && Abs(amt) > FillQty(x.sent.fills) <==> OnSide(d, amt) > FillQty(x.sent.fills))
      && (OnSide(d, amt) > FillQty(x.sent.fills) ==> Abs(amt) == OnSide(d, amt))
  {}

  /** The position is booked, and checked against the exchange. */
  predicate BookedLive(s: EngineState, p: Position, x: EntryScript, booked: EngineState) {
    && booked == s.(pending := None, wallet := s.wallet - p.entryCommission, position := Some(p), lastEntryTp := p.tp, blocked := booked.blocked)
    && (booked.blocked == [] <==> s.blocked == [] && Confirmed(p, x))
  }

  lemma CheckedLive(c: Config, s: EngineState, p: Position, s1: EngineState, ts: int, x: EntryScript)
    requires c.mode.Live? && s1.position == Some(p)
    requires s1 == s.(pending := None, wallet := s.wallet - p.entryCommission, position := Some(p), lastEntryTp := p.tp, blocked := s1.blocked)
    requires s1.blocked == [] <==> s.blocked == [] && x.sent.failure.None?
    ensures BookedLive(s, p, x, LiveCheck(c, s1, ts, x).st)
  {
    if x.checkRead.Some? { Sides(p, x.checkRead.value.amt); }
  }

  /** An entry that opened `p`: it stays if it passes the gate, at the liquidation price estimated for it, and otherwise the
      exit at the mark decides. */
  ghost predicate OpenedLive(c: Config, p: Position, booked: EngineState, mark: real, ts: int, gx: ExitScript, step: Step) {
    && booked.position == Some(p)
    && if PassesGate(c, p) then !step.raised && step.st == booked && Some(p.liqPrice) == EstimatedPrice(EntryEstimate(c, p))
       else
         var out := DoExit(c, booked, PostFillGate, mark, ts, gx);
         step.st == out.st && step.raised == out.raised
  }

  lemma LiveOpened(c: Config, s: EngineState, i: EntryIntent, d: SizingDecision, mark: real, ts: int, x: EntryScript, gx: ExitScript)
    returns (p: Position, booked: EngineState)
    requires c.mode.Live? && s.position.None? && s.pending == Some(i) && Quoted(c, i, mark) && d.leverage.Some?
    requires Adopts(i.direction, x) || x.sent.fills != []
    ensures
      var step := OpenPosition(c, s.(pending := None), i, d, d.leverage.value, mark, ts, x, gx);
      && FreshPosition(i, d, p, EnteredQty(i.direction, x), EnteredPrice(i.direction, x), ts)
      && p.entryCommission == EnteredFee(c, i.direction, x)
      && BookedLive(s, p, x, booked) && OpenedLive(c, p, booked, mark, ts, gx, step)
  {
    hide Fills, CheckFill, DoExit, LiveCheck, FreshPosition, PassesGate, EstimatedPrice, EntryEstimate, BookedLive, Quote,
         EnteredQty, EnteredPrice, EnteredFee, Adopts;
    var (f, fills) := Fills(c, s.(pending := None), i, d, mark, ts, x);
    LiveFilled(c, s.(pending := None), i, d, mark, ts, x);
    var post := CheckFill(c, i, d, d.leverage.value, f.entry, f.qty);
    p := NewPosition(i, d, d.leverage.value, f, post.liqPrice, ts);
    CheckIsGate(c, i, d, d.leverage.value, f, ts);
    NewIsFresh(i, d, d.leverage.value, f, post.liqPrice, ts);
    var s1 := f.st.(wallet := f.st.wallet - f.commission, position := Some(p), lastEntryTp := p.tp);
    CheckedLive(c, s, p, s1, ts, x);
    booked := LiveCheck(c, s1, ts, x).st;
  }

  /** Main theorem on LIVE entries. Orders are sent exactly for a stop still clear of the mark, an accepted size and an
      echoed leverage. What was filled, or all the exchange shows after a failure if that is more, is then held at its price;
      the wallet pays the commission; and entries stay allowed exactly if the exchange confirmed everything. */
  lemma LiveEntry(c: Config, s: EngineState, mark: real, ts: int, x: EntryScript, gx: ExitScript)
    returns (quote: real, sl: real, p: Position, booked: EngineState)
    requires c.mode.Live? && s.pending.Some? && s.position.None?
    ensures
      var i, d := s.pending.value, s.pending.value.direction;
      var step, asked := ExecuteEntry(c, s, mark, ts, x, gx), Asked(c, s, i, quote, sl);
      && QuotedAt(c, d, mark, quote) && StopIs(i, quote, sl)
      && if !(Alive(d, mark, sl) && Usable(asked) && x.echo == asked.value.leverage) then
           && step.st == s.(pending := None) && (step.raised <==> Alive(d, mark, sl) && asked.None?)
         else if Adopts(d, x) || x.sent.fills != [] then
           && FreshPosition(i, asked.value, p, EnteredQty(d, x), EnteredPrice(d, x), ts) && p.entryCommission == EnteredFee(c, d, x)
           && BookedLive(s, p, x, booked) && OpenedLive(c, p, booked, mark, ts, gx, step)
         else
           && !step.raised && step.st == s.(pending := None, blocked := step.st.blocked)
           && (step.st.blocked == [] <==> s.blocked == [] && x.sent.failure.None?)
  {
    hide ExecuteEntry, OpenPosition, QuotedAt, StopIs, Quote, FreshPosition, BookedLive, OpenedLive, EnteredQty, EnteredPrice, EnteredFee, Adopts, Alive;
    quote, sl := EntryDecided(c, s, mark, ts, x, gx);
    var i := s.pending.value;
    var asked := Asked(c, s, i, quote, sl);
    p, booked := *, s;
    if Alive(i.direction, mark, sl) && Usable(asked) && x.echo == asked.value.leverage {
      if Adopts(i.direction, x) || x.sent.fills != [] {
        p, booked := LiveOpened(c, s, i, asked.value, mark, ts, x, gx);
      } else {
        NothingOpened(c, s, i, asked.value, mark, ts, x, gx);
      }
    }
  }

  lemma NothingOpened(c: Config, s: EngineState, i: EntryIntent, d: SizingDecision, mark: real, ts: int, x: EntryScript, gx: ExitScript)
    requires c.mode.Live? && Quoted(c, i, mark) && d.leverage.Some? && !(Adopts(i.direction, x) || x.sent.fills != [])
    ensures
      var step := OpenPosition(c, s.(pending := None), i, d, d.leverage.value, mark, ts, x, gx);
      && !step.raised && step.st == s.(pending := None, blocked := step.st.blocked)
      && (step.st.blocked == [] <==> s.blocked == [] && x.sent.failure.None?)
  {
    hide Fills, Quote, EnteredQty, EnteredFee, Adopts;
    LiveFilled(c, s.(pending := None), i, d, mark, ts, x);
  }

  // ---------------------------------------------------------------- judging

  /** LIVE warns once when the range reaches the liquidation price, and never liquidates. */
  function Warned(s: EngineState, ts: int, r: Extremes, mark: real): Step
    requires s.position.Some?
  {
    var p := s.position.value;
    if Gain(p.direction, p.liqPrice, Unfavourable(p.direction, r)) <= 0.0 && !p.liqAlerted
    then Step(s.(position := Some(p.(liqAlerted := true))), [LiquidationThresholdCrossed(ts, mark, p.liqPrice)], false)
    else Step(s, [], false)
  }

  /** Then the stop goes before the target, as in PAPER. */
  lemma LiveEvaluate(c: Config, s: EngineState, ts: int, low: real, high: real, slRef: real, tpRef: real, mark: real, x: ExitScript)
    requires c.mode.Live? && s.position.Some?
    ensures
      var p, d, r := s.position.value, s.position.value.direction, Extremes(low, high);
      var warned := Warned(s, ts, r, mark);
      Evaluate(c, s, ts, low, high, slRef, tpRef, mark, x)
      == if Gain(d, p.sl, Unfavourable(d, r)) <= 0.0 then Then(warned, DoExit(c, warned.st, StopReason(p), slRef, ts, x))
         else if p.tp.Some? && Gain(d, p.tp.value, Favourable(d, r)) >= 0.0 then Then(warned, DoExit(c, warned.st, TakeProfit, tpRef, ts, x))
         else warned
  {
    hide DoExit;
  }
}
