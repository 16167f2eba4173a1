/** Inputs, state and events of the execution engine (paper/types.py, paper/engine.py). */
module EngineTypes {
  import opened Types
  import opened Normalize

  // ---------------------------------------------------------------- inputs

  datatype MarkTick = MarkTick(ts: int, mark: real, rate: real, nextFunding: int)

  datatype MarkBar = MarkBar(openMs: int, closeMs: int, open: real, high: real, low: real, close: real)

  /** Exactly one of the two distances is given. */
  datatype TrailDistance = Fixed(dist: real) | TimesR(distR: real)

  datatype TrailIntent = TrailIntent(armR: real, distance: TrailDistance)

  datatype SlRule = SlRule(anchor: real, mirror: bool)

  datatype TpRule = TpRule(level: Option<real>, minR: real, fallbackR: real)

  datatype Regime = Regime(lMin: int, lMax: int)

  datatype EntryIntent = EntryIntent(
    direction: Direction, sl: real, tp: Option<real>, regime: Regime, decidedMs: int, decisionMark: real,
    trail: Option<TrailIntent>, tpRule: Option<TpRule>, slRule: Option<SlRule>)

  // ---------------------------------------------------------------- sizing and liquidation, uninterpreted

  datatype SizingDecision = SizingDecision(
    ok: bool, wrongSide: bool, sl: real, leverage: Option<Leverage>, chunks: seq<real>, liqPrice: real)

  datatype LiqEstimate = LiqEstimate(price: real, dist: real)

  /** Everything a run fixes. The sizing rule, the liquidation estimate, the gate and the bracket leverage cap
      are arbitrary functions: every theorem holds for all of them. `None` stands for the exception each
      can raise (`ValueError` from sizing, `RulesError` from the other two). `fundingHours` 0 means
      the exchange did not report an interval. */
  datatype ConfigData = ConfigData(
    mode: Mode, rules: SymbolRules, taker: real, slippage: real, liquidationFee: real, fundingHours: nat,
    sizingCapital: Option<real>, liqFeeOnLiqPrice: bool, levLo: int, levHi: int,
    size: (real, real, Direction, real, Regime) -> Option<SizingDecision>,
    liquidation: (Direction, real, real, Leverage, real) -> Option<LiqEstimate>,
    gatePasses: (real, real) -> bool,
    leverageCap: real -> Option<int>)
  {
    ghost predicate Valid() {
      && MaxSteps(rules) >= 1
      && EntryStep(rules).Ok?
      && slippage >= 0.0
      && SizingIsSane()
      && (sizingCapital.Some? ==> mode.Paper? && sizingCapital.value > 0.0)
      && (liqFeeOnLiqPrice ==> mode.Paper?)
    }

    /** Sizing raises on a price, a stop or an equity that is not positive. Otherwise it answers for the stop asked, and
        what it accepts has a leverage and a stop on the losing side of the price. */
    ghost predicate SizingIsSane() {
      forall entry, sl, d, equity, regime :: SizingSane(entry, sl, d, equity, size(entry, sl, d, equity, regime))
    }
  }

  predicate SizingSane(entry: real, sl: real, d: Direction, equity: real, answer: Option<SizingDecision>) {
    answer.Some? ==>
      && entry > 0.0 && sl > 0.0 && equity > 0.0
      && answer.value.sl == sl
      && (answer.value.wrongSide <==> Sign(d) * (entry - sl) <= 0.0)
      && (answer.value.ok ==> !answer.value.wrongSide && answer.value.leverage.Some?)
  }

  const PLAIN_RULES := SymbolRules(1.0, 1.0, 1.0, 1.0, 1.0, 10.0, 1.0)

  lemma PlainRulesAreUsable()
    ensures MaxSteps(PLAIN_RULES) >= 1 && EntryStep(PLAIN_RULES).Ok?
  {
    assert 10.0 / 1.0 == 10.0;
    assert (1.0 / 1.0).Floor == 1;
  }

  // ---------------------------------------------------------------- state

  datatype TrailState = TrailState(armR: real, dist: real, r: real, armed: bool, moved: bool)

  datatype PositionData = Position(
    direction: Direction, qty: real, entryPrice: real, leverage: Leverage, sl: real, tp: Option<real>, liqPrice: real,
    entryCommission: real, openedMs: int, fundingPaid: real, liqAlerted: bool, trail: Option<TrailState>)
  {
    function Signed(): real {
      if direction.Long? then qty else -qty
    }

    function Notional(): real {
      qty * entryPrice
    }
  }

  /** A held position has a positive quantity and a usable entry price. */
  type Position = p: PositionData | p.qty > 0.0 && p.entryPrice != 0.0
    witness PositionData.Position(Long, 1.0, 1.0, 1, 0.0, None, 0.0, 0.0, 0, 0.0, false, None)

  datatype BlockReason =
    | FundingMissedOnRestart(count: nat)
    | FundingMissedInGap(count: nat)
    | EntrySendFailed(confirmed: nat, planned: nat)
    | EntryQtyMismatch(exchange: real, filledQty: real)
    | ReadFailed
    | LiquidationCheckFailed
    | LiveMismatch(internal: real, exchange: real)
    | AlreadyFlat
    | OppositeSign
    | ResyncBeforeExit(internal: real, exchange: real)
    | ExitSendFailed
    | ExitLeftover(exchange: real)
    | Vanished

  datatype EngineState = EngineState(
    wallet: real, position: Option<Position>, pending: Option<EntryIntent>, blocked: seq<BlockReason>,
    lastTick: Option<MarkTick>, restoredFunding: Option<int>, lastEntryTp: Option<real>)

  // ---------------------------------------------------------------- events

  datatype ExitReason =
    StopLoss | TakeProfit | Liquidation | PostFillGate | Manual | StaleData | TrailStop | TimeExit

  datatype SkipReason = LeverageNotConfirmed | SlCrossedBeforeFill | SizingRejected | SendFailed | EntriesAreBlocked

  datatype Event =
    | EntryFilled(ts: int, direction: Direction, qty: real, entryPrice: real, leverage: Leverage, sl: real,
                  liqPrice: real, fills: seq<Fill>, entryCommission: real, adopted: bool)
    | EntrySkipped(ts: int, skip: SkipReason)
    | PositionClosed(ts: int, direction: Direction, reason: ExitReason, qty: real, entryPrice: real,
                     exitPrice: Option<real>, fills: seq<Fill>, pnl: real, exitCommission: real,
                     fundingPaid: real, walletAfter: real)
    | PositionReduced(ts: int, direction: Direction, reason: ExitReason, qty: real, remaining: real, entryPrice: real,
                      exitPrice: Option<real>, fills: seq<Fill>, pnl: real, exitCommission: real, walletAfter: real)
    | PositionSynced(ts: int, direction: Direction, previousQty: real, qty: real, entryPrice: real, extraCommission: real)
    | PositionVanished(ts: int, direction: Direction, qty: real, entryPrice: real)
    | PositionRestored(ts: int, direction: Direction, qty: real, entryPrice: real, liqPrice: real)
    | PositionAbandoned(ts: int, direction: Direction, qty: real, entryPrice: real)
    | WalletResynced(ts: int, previous: real, wallet: real)
    | FundingSettled(ts: int, rate: real, mark: real, signedQty: real, paid: real, walletAfter: real)
    | FundingMissed(ts: int, boundaries: seq<int>, signedQty: real)
    | TrailSet(ts: int, armR: real, dist: real, r: real)
    | TrailArmed(ts: int, best: real)
    | StopTrailed(ts: int, oldSl: real, newSl: real)
    | EntriesBlocked(ts: int, why: BlockReason)
    | ExitFailed(ts: int, reason: ExitReason)
    | LiquidationThresholdCrossed(ts: int, mark: real, liqPrice: real)

  /** Result of one engine call. After an exception the mutations made before it stay, and `events` are the ones
      collected so far, which the caller never sees. */
  datatype Step = Step(st: EngineState, events: seq<Event>, raised: bool)

  // ---------------------------------------------------------------- what the exchange answers in LIVE mode

  datatype SendFailure = OutcomeUnknown | OtherSendError

  datatype Sent = Sent(fills: seq<Fill>, failure: Option<SendFailure>)

  /** The LIVE sender takes an answer whose price is not positive for an unknown outcome. */
  type LiveSent = s: Sent | forall i :: 0 <= i < |s.fills| ==> s.fills[i].price > 0.0 witness Sent([], None)

  datatype PositionRisk = PositionRisk(amt: real, entryPrice: real)

  /** Answers consumed by one entry: leverage echo, market orders, the adoption read after a failure, the read
      after a fill, and whether the liquidation-price check raised. A read of `None` failed. */
  datatype EntryScript = EntryScript(
    echo: Option<int>, sent: LiveSent, adoptRead: Option<PositionRisk>, checkRead: Option<PositionRisk>, checkFails: bool)

  /** Answers consumed by one exit: the read before, the orders, and the read after a full close. */
  datatype ExitScript = ExitScript(read: Option<PositionRisk>, sent: LiveSent, afterRead: Option<PositionRisk>)

  datatype TickScript = TickScript(entry: EntryScript, gateExit: ExitScript, exit: ExitScript)
}
