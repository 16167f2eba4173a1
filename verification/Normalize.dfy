/** Quantity normalisation and market-order construction
    (exchange/normalize.py, exchange/orders.py, the adverse fill model of paper/sender.py). */
module Normalize {
  import opened Types
  import opened Steps

  datatype SymbolRules = SymbolRules(
    tick: PosReal, lotStep: PosReal, lotMinQty: real,
    marketStep: PosReal, marketMinQty: real, marketMaxQty: real, minNotional: real)

  datatype RejectReason = BelowMinQty | MinNotional

  datatype QtyDecision = QtyDecision(ok: bool, qty: real, notional: real, reason: Option<RejectReason>, steppedUp: bool)

  datatype Result<+T> = Ok(value: T) | RulesError | ValueError | OrderParamError

  // ---------------------------------------------------------------- the adverse fill model

  /** Expected fill: mark moved against the taker by `rate`, then to the adverse tick. */
  function AdverseFill(side: Side, refMark: real, tick: PosReal, rate: real): real {
    if side.Buy? then CeilToStep(refMark * (1.0 + rate), tick) else FloorToStep(refMark * (1.0 - rate), tick)
  }

  /** A paper fill is never better than the mark, is a tick multiple, and is within one tick of the slipped mark. */
  lemma AdverseFillIsAdverse(side: Side, refMark: real, tick: PosReal, rate: real)
    requires refMark >= 0.0 && rate >= 0.0
    ensures Multiple(AdverseFill(side, refMark, tick, rate), tick)
    ensures side.Buy? ==> refMark * (1.0 + rate) <= AdverseFill(side, refMark, tick, rate) < refMark * (1.0 + rate) + tick
    ensures side.Sell? ==> refMark * (1.0 - rate) - tick < AdverseFill(side, refMark, tick, rate) <= refMark * (1.0 - rate)
    ensures side.Buy? ==> refMark <= AdverseFill(side, refMark, tick, rate)
    ensures side.Sell? ==> AdverseFill(side, refMark, tick, rate) <= refMark
  {
    CeilIsLeastMultiple(refMark * (1.0 + rate), tick, 0);
    FloorIsGreatestMultiple(refMark * (1.0 - rate), tick, 0);
    SlipIsAdverse(refMark, rate);
  }

  lemma SlipIsAdverse(refMark: real, rate: real)
    requires refMark >= 0.0 && rate >= 0.0
    ensures refMark * (1.0 - rate) <= refMark <= refMark * (1.0 + rate)
  {
    assert refMark * rate >= 0.0;
    Distribute(1.0, rate, refMark);
    Distribute(1.0, -rate, refMark);
  }

  // ---------------------------------------------------------------- entry quantity

  function EntryStep(r: SymbolRules): Result<PosReal> {
    if Multiple(r.marketStep, r.lotStep) then Ok(r.marketStep) else RulesError
  }

  function NormalizeEntryQty(rawQty: real, refPrice: real, r: SymbolRules, maxNotional: Option<real>): Result<QtyDecision> {
    if rawQty <= 0.0 || refPrice <= 0.0 then ValueError
    else if EntryStep(r).RulesError? then RulesError
    else
      var q := FloorToStep(rawQty, r.marketStep);
      var notional := q * refPrice;
      if q < r.marketMinQty || q < r.lotMinQty then Ok(QtyDecision(false, q, notional, Some(BelowMinQty), false))
      else if notional >= r.minNotional then Ok(QtyDecision(true, q, notional, None, false))
      else
        var up := q + r.marketStep;
        if maxNotional.Some? && r.minNotional <= up * refPrice <= maxNotional.value then
          Ok(QtyDecision(true, up, up * refPrice, None, true))
        else Ok(QtyDecision(false, q, notional, Some(MinNotional), false))
  }

  /** An accepted quantity is a step multiple that clears both minima. It is the requested quantity rounded
      down, except for the one permitted step up, which happens only inside the caller's budget. */
  lemma AcceptedEntryQty(rawQty: real, refPrice: real, r: SymbolRules, maxNotional: Option<real>)
    requires NormalizeEntryQty(rawQty, refPrice, r, maxNotional).Ok?
    ensures
      var d := NormalizeEntryQty(rawQty, refPrice, r, maxNotional).value;
      && Multiple(d.qty, r.marketStep)
      && (d.ok ==> d.qty >= r.marketMinQty && d.qty >= r.lotMinQty && d.qty * refPrice >= r.minNotional)
      && (d.ok && !d.steppedUp ==> d.qty <= rawQty < d.qty + r.marketStep)
      && (d.steppedUp ==> rawQty < d.qty <= rawQty + r.marketStep && maxNotional.Some? && d.qty * refPrice <= maxNotional.value)
      && (!d.ok ==> d.qty <= rawQty < d.qty + r.marketStep)
      && (!d.ok ==> d.qty < r.marketMinQty || d.qty < r.lotMinQty
                    || (d.qty * refPrice < r.minNotional
                        && (maxNotional.Some? ==> !(r.minNotional <= (d.qty + r.marketStep) * refPrice <= maxNotional.value))))
  {
    FloorAndNext(rawQty, r.marketStep);
    hide FloorToStep, Multiple;
  }

  /** The quantity rounded down and the next step up. */
  lemma FloorAndNext(q: real, step: PosReal)
    ensures var low := FloorToStep(q, step);
      Multiple(low, step) && Multiple(low + step, step) && low <= q < low + step
  {
    FloorIsGreatestMultiple(q, step, 0);
    FloorBounds(q, step);
    var n := Count(q, step);
    TimesAdd(n, 1, step);
    MultipleOfTimes(n + 1, step);
  }

  // ---------------------------------------------------------------- splitting

  /** The greedy cut: as many full-size orders as possible, then the remainder. `k` and `m` count steps. */
  function Greedy(k: int, m: int, step: PosReal): (chunks: seq<real>)
    requires m >= 1
    ensures |chunks| >= 1
    decreases k
  {
    if k > m then [Times(m, step)] + Greedy(k - m, m, step) else [Times(k, step)]
  }

  function MaxSteps(r: SymbolRules): int {
    Count(r.marketMaxQty, r.marketStep)
  }

  /** Least chunk of a multi-order entry: both the minimum notional at `refPrice` and the minimum quantity. */
  function Need(r: SymbolRules, refPrice: PosReal): real {
    Max(CeilToStep(r.minNotional / refPrice, r.marketStep), r.marketMinQty)
  }

  /** `split_market_qty`; the cut loop ends only if one order can hold at least one step. */
  function Split(qty: real, r: SymbolRules, refPrice: Option<real>, reduceOnly: bool): Result<seq<real>>
    requires MaxSteps(r) >= 1
  {
    if EntryStep(r).RulesError? then RulesError
    else
      var k := Count(qty, r.marketStep);
      if k <= 0 then Ok([])
      else
        var chunks := Greedy(k, MaxSteps(r), r.marketStep);
        if reduceOnly || |chunks| == 1 then Ok(chunks)
        else if refPrice.None? || refPrice.value <= 0.0 then ValueError
        else Repair(chunks, Need(r, refPrice.value))
  }

  function Repair(chunks: seq<real>, need: real): Result<seq<real>>
    requires |chunks| >= 2
  {
    var n := |chunks|;
    if chunks[n - 1] >= need then Ok(chunks)
    else
      var move := need - chunks[n - 1];
      if chunks[n - 2] - move < need then RulesError
      else Ok(chunks[n - 2 := chunks[n - 2] - move][n - 1 := need])
  }

  lemma {:induction false} GreedyShape(k: int, m: int, step: PosReal)
    requires k >= 1 && m >= 1
    ensures Sum(Greedy(k, m, step)) == Times(k, step)
    ensures forall i :: 0 <= i < |Greedy(k, m, step)| - 1 ==> Greedy(k, m, step)[i] == Times(m, step)
    ensures var last := Greedy(k, m, step)[|Greedy(k, m, step)| - 1];
      Multiple(last, step) && 0.0 < last <= Times(m, step)
    ensures |Greedy(k, m, step)| == 1 <==> k <= m
    decreases k
  {
    var chunks := Greedy(k, m, step);
    if k > m {
      GreedyShape(k - m, m, step);
      assert chunks[1..] == Greedy(k - m, m, step);
      TimesAdd(m, k - m, step);
    } else {
      MultipleOfTimes(k, step);
      TimesAtLeastStep(k, step);
      if k < m { TimesStrict(k, m, step); }
      assert chunks[1..] == [];
    }
  }

  lemma GreedyStep(k: int, m: int, step: PosReal)
    requires m >= 1
    ensures Greedy(k, m, step) == if k > m then [Times(m, step)] + Greedy(k - m, m, step) else [Times(k, step)]
  {}

  lemma TimesOrder(a: int, b: int, step: PosReal)
    ensures a < b <==> Times(a, step) < Times(b, step)
  {
    if a < b {
      TimesStrict(a, b, step);
    } else if b < a {
      TimesStrict(b, a, step);
    }
  }

  /** `split_market_qty` as written: floor, cut in a loop, then move the shortfall of the last chunk over from
      its neighbour. The cut loop would never end if the largest order did not hold one step. */
  method SplitMarketQty(qty: real, r: SymbolRules, refPrice: Option<real>, reduceOnly: bool)
    returns (out: Result<seq<real>>)
    requires MaxSteps(r) >= 1
    ensures out == Split(qty, r, refPrice, reduceOnly)
  {
    assert Times(0, r.marketStep) == 0.0;
    hide FloorToStep, Multiple, Need, CeilToStep, Count, Times, Greedy;
    if !Multiple(r.marketStep, r.lotStep) {
      return RulesError;
    }
    var step := r.marketStep;
    var left := FloorToStep(qty, step);
    var mx := FloorToStep(r.marketMaxQty, step);
    ghost var k, m := Count(qty, step), MaxSteps(r);
    FloorBounds(qty, step);
    FloorBounds(r.marketMaxQty, step);
    TimesOrder(k, 0, step);
    if left <= 0.0 {
      return Ok([]);
    }
    var chunks := [];
    ghost var j := k;
    while left > mx
      invariant left == Times(j, step) && mx == Times(m, step) && j >= 1
      invariant chunks + Greedy(j, m, step) == Greedy(k, m, step)
      decreases j
    {
      TimesOrder(m, j, step);
      TimesAdd(m, j - m, step);
      GreedyStep(j, m, step);
      assert chunks + ([mx] + Greedy(j - m, m, step)) == (chunks + [mx]) + Greedy(j - m, m, step);
      chunks := chunks + [mx];
      left := left - mx;
      j := j - m;
    }
    TimesOrder(m, j, step);
    GreedyStep(j, m, step);
    chunks := chunks + [left];
    if reduceOnly || |chunks| == 1 {
      return Ok(chunks);
    }
    if refPrice.None? || refPrice.value <= 0.0 {
      return ValueError;
    }
    out := RepairTail(chunks, Need(r, refPrice.value));
  }

  /** Move what the last chunk lacks over from its neighbour, unless that leaves the neighbour short. */
  method RepairTail(cut: seq<real>, need: real) returns (out: Result<seq<real>>)
    requires |cut| >= 2
    ensures out == Repair(cut, need)
  {
    var chunks, n := cut, |cut|;
    if chunks[n - 1] < need {
      var move := need - chunks[n - 1];
      if chunks[n - 2] - move < need {
        return RulesError;
      }
      chunks := chunks[n - 2 := chunks[n - 2] - move];
      chunks := chunks[n - 1 := chunks[n - 1] + move];
    }
    return Ok(chunks);
  }

  predicate ParamsOk(q: real, r: SymbolRules) {
    q > 0.0 && Multiple(q, r.marketStep) && q <= r.marketMaxQty
  }

  lemma MaxStepsFit(r: SymbolRules)
    ensures Times(MaxSteps(r), r.marketStep) <= r.marketMaxQty
    ensures Multiple(Times(MaxSteps(r), r.marketStep), r.marketStep)
  {
    FloorBounds(r.marketMaxQty, r.marketStep);
    MultipleOfTimes(MaxSteps(r), r.marketStep);
  }

  /** A reduce-only split always succeeds, sums to the floored quantity and contains only sendable orders. */
  lemma SplitExit(qty: real, r: SymbolRules)
    requires MaxSteps(r) >= 1 && EntryStep(r).Ok?
    ensures Split(qty, r, None, true).Ok?
    ensures
      var chunks := Split(qty, r, None, true).value;
      && Sum(chunks) == (if Count(qty, r.marketStep) <= 0 then 0.0 else FloorToStep(qty, r.marketStep))
      && forall i :: 0 <= i < |chunks| ==> ParamsOk(chunks[i], r)
  {
    var k := Count(qty, r.marketStep);
    if k >= 1 {
      GreedyShape(k, MaxSteps(r), r.marketStep);
      MaxStepsFit(r);
      TimesAtLeastStep(MaxSteps(r), r.marketStep);
      FloorBounds(qty, r.marketStep);
    }
  }

  /** The last chunk is topped up to a minimum that is no step multiple. */
  predicate OffStepTopUp(qty: real, r: SymbolRules, refPrice: PosReal)
    requires MaxSteps(r) >= 1
  {
    var greedy := Greedy(Count(qty, r.marketStep), MaxSteps(r), r.marketStep);
    |greedy| > 1 && greedy[|greedy| - 1] < Need(r, refPrice) && !Multiple(Need(r, refPrice), r.marketStep)
  }

  /** An entry split is refused exactly when the last two orders cannot both reach the minimum. When it is not
      refused the chunks sum to the floored quantity, and with more than one chunk every chunk reaches `Need`; every one
      is sendable if and only if none was topped up to a minimum off the step. */
  lemma SplitEntry(qty: real, r: SymbolRules, refPrice: PosReal)
    requires MaxSteps(r) >= 1 && EntryStep(r).Ok?
    ensures
      var greedy := Greedy(Count(qty, r.marketStep), MaxSteps(r), r.marketStep);
      var last := greedy[|greedy| - 1];
      var need := Need(r, refPrice);
      var out := Split(qty, r, Some(refPrice), false);
      && (out.RulesError? <==> |greedy| > 1 && last < need && Times(MaxSteps(r), r.marketStep) + last < need + need)
      && (out.RulesError? || out.Ok?)
      && (out.Ok? ==>
          && Sum(out.value) == (if Count(qty, r.marketStep) <= 0 then 0.0 else FloorToStep(qty, r.marketStep))
          && ((forall i :: 0 <= i < |out.value| ==> ParamsOk(out.value[i], r)) <==> !OffStepTopUp(qty, r, refPrice))
          && (|out.value| > 1 ==> forall i :: 0 <= i < |out.value| ==> out.value[i] >= need))
  {
    var k, m, step := Count(qty, r.marketStep), MaxSteps(r), r.marketStep;
    if k <= 0 {
      GreedyStep(k, m, step);
      return;
    }
    var greedy := Greedy(k, m, step);
    var need := Need(r, refPrice);
    GreedyShape(k, m, step);
    MaxStepsFit(r);
    FloorBounds(qty, step);
    RepairOutcome(greedy, m, need, r);
  }

  /** What a chunk that reaches `Need` is worth: the minimum notional at the reference price, and the minimum quantity. */
  lemma NeedCoversMinimum(r: SymbolRules, refPrice: PosReal, q: real)
    requires q >= Need(r, refPrice)
    ensures q * refPrice >= r.minNotional && q >= r.marketMinQty
  {
    var least := r.minNotional / refPrice;
    CeilIsLeastMultiple(least, r.marketStep, 0);
    MulMonotone(least, q, refPrice);
    DivMul(r.minNotional, refPrice);
  }

  lemma RepairOutcome(greedy: seq<real>, m: int, need: real, r: SymbolRules)
    requires m >= 1 && |greedy| >= 1 && Times(m, r.marketStep) <= r.marketMaxQty
    requires forall i :: 0 <= i < |greedy| - 1 ==> greedy[i] == Times(m, r.marketStep)
    requires Multiple(greedy[|greedy| - 1], r.marketStep) && 0.0 < greedy[|greedy| - 1] <= Times(m, r.marketStep)
    ensures |greedy| == 1 ==> ParamsOk(greedy[0], r)
    ensures |greedy| > 1 ==>
      && (Repair(greedy, need).RulesError? <==>
            greedy[|greedy| - 1] < need && Times(m, r.marketStep) + greedy[|greedy| - 1] < need + need)
      && (Repair(greedy, need).Ok? ==>
            && Sum(Repair(greedy, need).value) == Sum(greedy)
            && (forall i :: 0 <= i < |Repair(greedy, need).value| ==> Repair(greedy, need).value[i] >= need)
            && ((forall i :: 0 <= i < |Repair(greedy, need).value| ==> ParamsOk(Repair(greedy, need).value[i], r))
                <==> greedy[|greedy| - 1] >= need || Multiple(need, r.marketStep)))
  {
    if |greedy| > 1 && Repair(greedy, need).Ok? {
      RepairedChunks(greedy, m, need, r);
    }
  }

  lemma RepairedChunks(greedy: seq<real>, m: int, need: real, r: SymbolRules)
    requires m >= 1 && |greedy| >= 2 && Times(m, r.marketStep) <= r.marketMaxQty
    requires forall i :: 0 <= i < |greedy| - 1 ==> greedy[i] == Times(m, r.marketStep)
    requires Multiple(greedy[|greedy| - 1], r.marketStep) && 0.0 < greedy[|greedy| - 1] <= Times(m, r.marketStep)
    requires Repair(greedy, need).Ok?
    ensures var c := Repair(greedy, need).value;
      && |c| == |greedy| && Sum(c) == Sum(greedy)
      && (forall i :: 0 <= i < |c| ==> c[i] >= need)
      && (if greedy[|greedy| - 1] >= need || Multiple(need, r.marketStep) then forall i :: 0 <= i < |c| ==> ParamsOk(c[i], r)
          else !ParamsOk(c[|c| - 1], r))
  {
    var n, step := |greedy|, r.marketStep;
    var c := Repair(greedy, need).value;
    RepairKeepsSum(greedy, need);
    MultipleOfTimes(m, step);
    TimesAtLeastStep(m, step);
    if greedy[n - 1] < need && Multiple(need, step) {
      RepairedMultiple(m, step, greedy[n - 1], need);
      assert c[n - 2] == Times(m, step) - (need - greedy[n - 1]);
    }
  }

  lemma RepairedMultiple(m: int, step: PosReal, last: real, need: real)
    requires Multiple(last, step) && Multiple(need, step)
    ensures Multiple(Times(m, step) - (need - last), step)
  {
    var a, b := Count(last, step), Count(need, step);
    FloorBounds(last, step);
    FloorBounds(need, step);
    TimesAdd(m - b + a, b, step);
    TimesAdd(m, a, step);
    MultipleOfTimes(m - b + a, step);
  }

  lemma {:induction false} SumSplit(xs: seq<real>, i: nat)
    requires i <= |xs|
    ensures Sum(xs) == Sum(xs[..i]) + Sum(xs[i..])
  {
    SumAppend(xs[..i], xs[i..]);
    assert xs[..i] + xs[i..] == xs;
  }

  lemma RepairKeepsSum(chunks: seq<real>, need: real)
    requires |chunks| >= 2 && Repair(chunks, need).Ok?
    ensures Sum(Repair(chunks, need).value) == Sum(chunks)
  {
    var n, out := |chunks|, Repair(chunks, need).value;
    SumSplit(chunks, n - 2);
    SumSplit(out, n - 2);
    assert out[..n - 2] == chunks[..n - 2];
    assert chunks[n - 2..] == [chunks[n - 2], chunks[n - 1]];
    assert out[n - 2..] == [out[n - 2], out[n - 1]];
    SumPair(chunks[n - 2], chunks[n - 1]);
    SumPair(out[n - 2], out[n - 1]);
  }

  lemma SumPair(x: real, y: real)
    ensures Sum([x, y]) == x + y
  {
    assert [x, y][1..] == [y] && [y][1..] == [];
    assert Sum([y]) == y + Sum([]);
  }

  // ---------------------------------------------------------------- order parameters

  datatype Order = Order(side: Side, qty: real, reduceOnly: bool)

  function MarketOrder(d: Direction, i: Intent, q: real, r: SymbolRules): Result<Order> {
    if ParamsOk(q, r) then Ok(Order(SideFor(d, i), q, i.Exit?)) else OrderParamError
  }

  function Orders(d: Direction, i: Intent, chunks: seq<real>, r: SymbolRules): Result<seq<Order>> {
    if chunks == [] then Ok([])
    else
      match MarketOrder(d, i, chunks[0], r)
      case Ok(o) => (match Orders(d, i, chunks[1..], r) case Ok(os) => Ok([o] + os) case e => e)
      case _ => OrderParamError
  }

  function EntryOrders(d: Direction, qty: real, refPrice: real, r: SymbolRules): Result<seq<Order>>
    requires MaxSteps(r) >= 1
  {
    match NormalizeEntryQty(qty, refPrice, r, None)
    case Ok(dec) =>
      if !dec.ok then OrderParamError
      else (match Split(dec.qty, r, Some(refPrice), false)
            case Ok(chunks) => Orders(d, Entry, chunks, r)
            case RulesError => RulesError
            case ValueError => ValueError
            case OrderParamError => OrderParamError)
    case RulesError => RulesError
    case ValueError => ValueError
    case OrderParamError => OrderParamError
  }

  function CloseOrders(amt: real, r: SymbolRules): Result<seq<Order>>
    requires MaxSteps(r) >= 1
  {
    if amt == 0.0 || !Multiple(Abs(amt), r.marketStep) then RulesError
    else
      match Split(Abs(amt), r, None, true)
      case Ok(chunks) => Orders(if amt > 0.0 then Long else Short, Exit, chunks, r)
      case RulesError => RulesError
      case ValueError => ValueError
      case OrderParamError => OrderParamError
  }

  /** Signed quantity a list of orders would move. */
  function NetQty(os: seq<Order>): real {
    if os == [] then 0.0 else (if os[0].side.Buy? then os[0].qty else -os[0].qty) + NetQty(os[1..])
  }

  lemma {:induction false} OrdersNeverRejected(d: Direction, i: Intent, chunks: seq<real>, r: SymbolRules)
    requires forall j :: 0 <= j < |chunks| ==> ParamsOk(chunks[j], r)
    ensures Orders(d, i, chunks, r).Ok?
    ensures |Orders(d, i, chunks, r).value| == |chunks|
    ensures forall o :: o in Orders(d, i, chunks, r).value ==> o.side == SideFor(d, i) && o.reduceOnly == i.Exit?
    ensures NetQty(Orders(d, i, chunks, r).value) == (if SideFor(d, i).Buy? then Sum(chunks) else -Sum(chunks))
  {
    if chunks != [] {
      OrdersNeverRejected(d, i, chunks[1..], r);
      var rest := Orders(d, i, chunks[1..], r).value;
      var all := Orders(d, i, chunks, r).value;
      assert all[1..] == rest;
    }
  }

  /** One chunk the parameter check rejects, and no orders are built. */
  lemma {:induction false} OrdersRejected(d: Direction, i: Intent, chunks: seq<real>, r: SymbolRules)
    requires exists j :: 0 <= j < |chunks| && !ParamsOk(chunks[j], r)
    ensures Orders(d, i, chunks, r).OrderParamError?
  {
    if ParamsOk(chunks[0], r) {
      var j :| 0 <= j < |chunks| && !ParamsOk(chunks[j], r);
      assert chunks[1..][j - 1] == chunks[j];
      OrdersRejected(d, i, chunks[1..], r);
    }
  }

  /** A quantity the exchange takes: positive, no more than the largest order, and a whole number of steps. */
  predicate Sendable(q: real, r: SymbolRules) {
    0.0 < q <= r.marketMaxQty && Multiple(q, r.marketStep)
  }

  /** Orders are built exactly from quantities the exchange takes, all of them, and carry them in order. */
  lemma {:induction false} OrdersIff(d: Direction, i: Intent, chunks: seq<real>, r: SymbolRules)
    ensures Orders(d, i, chunks, r).Ok? <==> forall j :: 0 <= j < |chunks| ==> Sendable(chunks[j], r)
    ensures Orders(d, i, chunks, r).Ok? ==>
      var os := Orders(d, i, chunks, r).value;
      |os| == |chunks| && forall j :: 0 <= j < |os| ==> os[j] == Order(SideFor(d, i), chunks[j], i.Exit?)
  {
    hide Multiple;
    if chunks != [] {
      OrdersIff(d, i, chunks[1..], r);
      if Sendable(chunks[0], r) && Orders(d, i, chunks[1..], r).Ok? {
        forall j | 0 <= j < |chunks| ensures Sendable(chunks[j], r) {
          if j > 0 { assert chunks[j] == chunks[1..][j - 1]; }
        }
      }
    }
  }

  /** Closing orders are refused exactly for a flat or off-step position or steps that do not fit each other; otherwise
      every one is a reduce-only order on the closing side and together they bring the position to zero. */
  lemma CloseOrdersNetToZero(amt: real, r: SymbolRules)
    requires MaxSteps(r) >= 1
    ensures CloseOrders(amt, r).Ok? <==> amt != 0.0 && Multiple(Abs(amt), r.marketStep) && EntryStep(r).Ok?
    ensures CloseOrders(amt, r).Ok? || CloseOrders(amt, r).RulesError?
    ensures CloseOrders(amt, r).Ok? ==>
      && amt + NetQty(CloseOrders(amt, r).value) == 0.0
      && (forall o :: o in CloseOrders(amt, r).value ==> o.reduceOnly && o.side == (if amt > 0.0 then Sell else Buy))
  {
    if amt != 0.0 && Multiple(Abs(amt), r.marketStep) && EntryStep(r).Ok? {
      SplitExit(Abs(amt), r);
      PositiveSteps(Abs(amt), r);
      OrdersNeverRejected(if amt > 0.0 then Long else Short, Exit, Split(Abs(amt), r, None, true).value, r);
    }
  }

  lemma PositiveSteps(q: real, r: SymbolRules)
    requires q > 0.0 && Multiple(q, r.marketStep)
    ensures Count(q, r.marketStep) >= 1
  {
    FloorBounds(q, r.marketStep);
    if Count(q, r.marketStep) < 0 {
      TimesStrict(Count(q, r.marketStep), 0, r.marketStep);
    }
  }

  /** `entry_orders` fails only for a reason a caller can read off its inputs; what it builds moves exactly the normalised
      quantity. The parameter check rejects an order exactly when the last one was topped up to a minimum off the step. */
  lemma EntryOrdersComplete(d: Direction, qty: real, refPrice: real, r: SymbolRules)
    requires MaxSteps(r) >= 1
    ensures
      var dec := NormalizeEntryQty(qty, refPrice, r, None);
      var out := EntryOrders(d, qty, refPrice, r);
      && (out.ValueError? <==> qty <= 0.0 || refPrice <= 0.0)
      && (out.OrderParamError? <==>
            dec.Ok? && (!dec.value.ok || (Split(dec.value.qty, r, Some(refPrice), false).Ok? && OffStepTopUp(dec.value.qty, r, refPrice))))
      && (out.RulesError? <==> qty > 0.0 && refPrice > 0.0
                               && (EntryStep(r).RulesError?
                                   || (dec.value.ok && Split(dec.value.qty, r, Some(refPrice), false).RulesError?)))
      && (out.Ok? ==>
            && NetQty(out.value) == Sign(d) * dec.value.qty
            && (forall o :: o in out.value ==> !o.reduceOnly && o.side == SideFor(d, Entry)))
  {
    hide FloorToStep, Multiple, Need, Count, Times, Greedy, Orders, Split, OffStepTopUp;
    var dec := NormalizeEntryQty(qty, refPrice, r, None);
    if dec.Ok? && dec.value.ok {
      var q := dec.value.qty;
      AcceptedEntryQty(qty, refPrice, r, None);
      FloorOfPositive(qty, r.marketStep);
      SplitEntry(q, r, refPrice);
      SplitOfAccepted(q, r);
      var s := Split(q, r, Some(refPrice), false);
      if s.Ok? {
        if OffStepTopUp(q, r, refPrice) {
          OrdersRejected(d, Entry, s.value, r);
        } else {
          OrdersNeverRejected(d, Entry, s.value, r);
        }
      }
    }
  }

  const HALF_STEP_RULES := SymbolRules(1.0, 1.0, 1.0, 1.0, 1.5, 10.0, 1.0)

  /** Such an order: eleven lots under a largest order of ten and a minimum of one and a half. */
  lemma TopUpIsRejected(d: Direction)
    ensures MaxSteps(HALF_STEP_RULES) >= 1 && OffStepTopUp(11.0, HALF_STEP_RULES, 10.0)
    ensures NormalizeEntryQty(11.0, 10.0, HALF_STEP_RULES, None).value.ok && EntryOrders(d, 11.0, 10.0, HALF_STEP_RULES).OrderParamError?
  {
    hide Orders, Greedy, Times, Split;
    var r := HALF_STEP_RULES;
    assert Count(11.0, 1.0) == 11 && MaxSteps(r) == 10;
    TimesIsProduct(10, 1.0);
    TimesIsProduct(1, 1.0);
    GreedyStep(11, 10, 1.0);
    GreedyStep(1, 10, 1.0);
    assert 1.0 / 10.0 == 0.1;
    assert 1.5 / 1.0 == 1.5;
    EntryOrdersComplete(d, 11.0, 10.0, r);
    SplitEntry(11.0, r, 10.0);
  }

  /** The whole of an accepted quantity is cut up. */
  lemma SplitOfAccepted(q: real, r: SymbolRules)
    requires q >= 0.0 && Multiple(q, r.marketStep)
    ensures (if Count(q, r.marketStep) <= 0 then 0.0 else FloorToStep(q, r.marketStep)) == q
  {
    if q > 0.0 { PositiveSteps(q, r); }
  }

  lemma FloorOfPositive(q: real, step: PosReal)
    requires q > 0.0
    ensures FloorToStep(q, step) >= 0.0
  {
    FloorBounds(q, step);
    if Count(q, step) < 0 { TimesAdd(Count(q, step), 1, step); TimesOrder(Count(q, step), 0, step); }
  }
}
