/** Kill switch and entry gate (safety/killswitch.py, safety/gate.py, safety/reconcile.py). The state is a value,
    because it is saved and loaded whole; `KillSwitch` below is the object that updates it in place. */
module SafetyGate {
  import opened Types
  import opened EngineTypes

  const MAX_LIQUIDATIONS := 1
  const MAX_VANISHED := 1

  datatype Limits = Limits(dailyLoss: real, maxLosses: nat)

  datatype TripReason = DailyLoss | ConsecutiveLosses | LiquidationTrip | VanishedTrip

  datatype Trip = Trip(ts: int, reason: TripReason)

  datatype KillState = KillState(
    tripped: Option<Trip>, losses: nat, liquidations: nat, vanished: nat, flatWallet: real,
    day: Option<int>, dayStart: Option<real>, resumedBy: Option<string>)

  datatype ReconcileMismatch = ExchangeUnavailable | InternalVsExchange | InternalVsDb

  datatype ReconcileState = ReconcileState(blocker: seq<ReconcileMismatch>, sticky: bool)

  datatype GateState = GateState(
    pausedBy: Option<string>, kill: KillState, reconcile: ReconcileState, engineBlocks: seq<BlockReason>, notices: seq<nat>)

  function UtcDay(ts: int): int {
    ts / DAY_MS
  }

  // ---------------------------------------------------------------- what the switch counts

  /** The first reason stays. */
  function TripOn(k: KillState, ts: int, reason: TripReason): KillState {
    if k.tripped.Some? then k else k.(tripped := Some(Trip(ts, reason)))
  }

  function ObserveOne(lim: Limits, k: KillState, e: Event): KillState {
    match e
    case PositionVanished(ts, _, _, _) =>
      var k1 := k.(vanished := k.vanished + 1);
      if k1.vanished >= MAX_VANISHED then TripOn(k1, ts, VanishedTrip) else k1
    case PositionClosed(ts, _, reason, _, _, _, _, _, _, _, walletAfter) =>
      var k1 := k.(flatWallet := walletAfter, losses := if walletAfter - k.flatWallet < 0.0 then k.losses + 1 else 0);
      var k2 := if reason.Liquidation? then k1.(liquidations := k1.liquidations + 1) else k1;
      var k3 := if reason.Liquidation? && k2.liquidations >= MAX_LIQUIDATIONS then TripOn(k2, ts, LiquidationTrip) else k2;
      if k3.losses >= lim.maxLosses then TripOn(k3, ts, ConsecutiveLosses) else k3
    case _ => k
  }

  function Observe(lim: Limits, k: KillState, evs: seq<Event>): KillState
    decreases |evs|
  {
    if evs == [] then k else ObserveOne(lim, Observe(lim, k, evs[..|evs| - 1]), evs[|evs| - 1])
  }

  function LossLine(lim: Limits, dayStart: real): real {
    dayStart * (1.0 - lim.dailyLoss)
  }

  function ObserveEquity(lim: Limits, k: KillState, ts: int, equity: real): KillState {
    var day := UtcDay(ts);
    var k1 := if k.day != Some(day) || k.dayStart.None? then k.(day := Some(day), dayStart := Some(equity)) else k;
    if equity <= LossLine(lim, k1.dayStart.value) then TripOn(k1, ts, DailyLoss) else k1
  }

  predicate ResumeRefused(k: KillState, ts: int) {
    k.tripped.Some? && k.tripped.value.reason.DailyLoss? && UtcDay(ts) == UtcDay(k.tripped.value.ts)
  }

  function Resume(k: KillState, ts: int, actor: string): KillState {
    if ResumeRefused(k, ts) then k
    else k.(tripped := None, losses := 0, liquidations := 0, vanished := 0, resumedBy := Some(actor))
  }

  function GateResume(g: GateState, ts: int, actor: string): GateState {
    if ResumeRefused(g.kill, ts) then g
    else g.(notices := [], pausedBy := None, reconcile := ReconcileState([], false),
            kill := if g.kill.tripped.Some? then Resume(g.kill, ts, actor) else g.kill)
  }

  // ---------------------------------------------------------------- reconciliation

  datatype ReconcileResult = ReconcileResult(mismatches: seq<ReconcileMismatch>, internal: real, exchange: Option<real>)

  /** `exchange` is `None` when the exchange could not be read; a PAPER run compares the database only. */
  function Reconcile(mode: Mode, internal: real, exchange: Option<real>, db: real): ReconcileResult {
    var live := if mode.Paper? then []
                else if exchange.None? then [ExchangeUnavailable]
                else if exchange.value != internal then [InternalVsExchange] else [];
    ReconcileResult(live + (if db != internal then [InternalVsDb] else []), internal, if mode.Paper? then None else exchange)
  }

  predicate Sticky(r: ReconcileResult) {
    exists i :: 0 <= i < |r.mismatches| && !r.mismatches[i].ExchangeUnavailable?
  }

  function GuardUpdate(s: ReconcileState, r: ReconcileResult): ReconcileState {
    if Sticky(r) then ReconcileState(r.mismatches, true)
    else if s.sticky then s
    else ReconcileState(r.mismatches, false)
  }

  /** The defence behind `vanish`: an internal position the exchange does not hold trips the switch as well. */
  function ObserveReconcile(g: GateState, r: ReconcileResult, ts: int): GateState {
    g.(reconcile := GuardUpdate(g.reconcile, r),
       kill := if r.exchange == Some(0.0) && r.internal != 0.0 then TripOn(g.kill, ts, VanishedTrip) else g.kill)
  }

  /** The comparison is clean exactly when all three agree; it is sticky exactly when two readings really differ. */
  lemma CleanAndStickyIff(mode: Mode, internal: real, exchange: Option<real>, db: real)
    ensures var r := Reconcile(mode, internal, exchange, db);
      && (r.mismatches == [] <==> db == internal && (mode.Paper? || exchange == Some(internal)))
      && (Sticky(r) <==> db != internal || (mode.Live? && exchange.Some? && exchange.value != internal))
  {
    var r := Reconcile(mode, internal, exchange, db);
    if db != internal { assert r.mismatches[|r.mismatches| - 1].InternalVsDb?; }
    if mode.Live? && exchange.Some? && exchange.value != internal { assert r.mismatches[0].InternalVsExchange?; }
  }

  /** The guard over the comparisons since it was last lifted. */
  function GuardRun(rs: seq<ReconcileResult>): ReconcileState {
    if rs == [] then ReconcileState([], false) else GuardUpdate(GuardRun(rs[..|rs| - 1]), rs[|rs| - 1])
  }

  /** An unreadable exchange blocks until the next clean comparison, a real difference until a person lifts it. */
  lemma {:induction false} GuardBlocksIff(rs: seq<ReconcileResult>)
    ensures GuardRun(rs).sticky <==> exists i :: 0 <= i < |rs| && Sticky(rs[i])
    ensures GuardRun(rs).blocker != [] <==> GuardRun(rs).sticky || (rs != [] && rs[|rs| - 1].mismatches != [])
    decreases |rs|
  {
    if rs != [] {
      var before := rs[..|rs| - 1];
      GuardBlocksIff(before);
      assert forall i :: 0 <= i < |before| ==> before[i] == rs[i];
      if Sticky(rs[|rs| - 1]) { assert GuardRun(rs).blocker == rs[|rs| - 1].mismatches; }
    }
  }

  // ---------------------------------------------------------------- runs of the gate

  datatype GateInput =
    | Events(evs: seq<Event>)
    | Marked(ts: int, equity: real)
    | Compare(r: ReconcileResult, ts: int)
    | Pause(actor: string)
    | Start(ts: int, actor: string)
    | FlatWallet(wallet: real)
    | Noted(blocks: seq<BlockReason>, notices: seq<nat>)

  function GateStep(lim: Limits, g: GateState, i: GateInput): GateState {
    match i
    case Events(evs) => g.(kill := Observe(lim, g.kill, evs))
    case Marked(ts, equity) => g.(kill := ObserveEquity(lim, g.kill, ts, equity))
    case Compare(r, ts) => ObserveReconcile(g, r, ts)
    case Pause(actor) => g.(pausedBy := Some(actor))
    case Start(ts, actor) => GateResume(g, ts, actor)
    case FlatWallet(wallet) => g.(kill := g.kill.(flatWallet := wallet))
    case Noted(blocks, notices) => g.(engineBlocks := blocks, notices := notices)
  }

  function GateRun(lim: Limits, g: GateState, ins: seq<GateInput>): GateState
    decreases |ins|
  {
    if ins == [] then g else GateStep(lim, GateRun(lim, g, ins[..|ins| - 1]), ins[|ins| - 1])
  }

  lemma {:induction false} ObserveKeepsTrip(lim: Limits, k: KillState, evs: seq<Event>)
    requires k.tripped.Some?
    ensures Observe(lim, k, evs).tripped == k.tripped
    decreases |evs|
  {
    if evs != [] {
      ObserveKeepsTrip(lim, k, evs[..|evs| - 1]);
    }
  }

  /** A start that can release this trip: any start, except one on the UTC day of a daily-loss trip. */
  predicate Releases(t: Trip, i: GateInput) {
    i.Start? && !(t.reason.DailyLoss? && UtcDay(i.ts) == UtcDay(t.ts))
  }

  /** Only a person can release the switch: whatever else happens, a trip and its first reason stay until a start,
      and a start on the day of a daily-loss trip is no release. */
  lemma {:induction false} TripHoldsUntilStart(lim: Limits, g: GateState, ins: seq<GateInput>)
    requires g.kill.tripped.Some?
    requires forall i :: 0 <= i < |ins| ==> !Releases(g.kill.tripped.value, ins[i])
    ensures GateRun(lim, g, ins).kill.tripped == g.kill.tripped
    decreases |ins|
  {
    if ins != [] {
      var n := |ins| - 1;
      TripHoldsUntilStart(lim, g, ins[..n]);
      var before := GateRun(lim, g, ins[..n]);
      match ins[n]
      case Events(evs) => ObserveKeepsTrip(lim, before.kill, evs);
      case _ =>
    }
  }

  // ---------------------------------------------------------------- what the loss counter means

  function Closes(evs: seq<Event>): seq<Event>
    decreases |evs|
  {
    if evs == [] then []
    else Closes(evs[..|evs| - 1]) + (if evs[|evs| - 1].PositionClosed? then [evs[|evs| - 1]] else [])
  }

  lemma {:induction false} ClosesAreCloses(evs: seq<Event>)
    ensures forall i :: 0 <= i < |Closes(evs)| ==> Closes(evs)[i].PositionClosed?
    decreases |evs|
  {
    if evs != [] {
      ClosesAreCloses(evs[..|evs| - 1]);
    }
  }

  /** Wallet after the first `n` closes, starting from the last flat wallet. */
  function FlatAfter(start: real, closes: seq<Event>, n: nat): real
    requires n <= |closes| && forall i :: 0 <= i < |closes| ==> closes[i].PositionClosed?
  {
    if n == 0 then start else closes[n - 1].walletAfter
  }

  /** Close `i` lost money against the wallet the previous one left: entry fees and funding included. */
  predicate Lost(start: real, closes: seq<Event>, i: nat)
    requires i < |closes| && forall j :: 0 <= j < |closes| ==> closes[j].PositionClosed?
  {
    closes[i].walletAfter < FlatAfter(start, closes, i)
  }

  /** `m` trades make up the losing streak at the end of the closes. */
  ghost predicate Streak(start: real, closes: seq<Event>, m: nat)
    requires forall j :: 0 <= j < |closes| ==> closes[j].PositionClosed?
  {
    && m <= |closes|
    && (forall i: nat :: |closes| - m <= i < |closes| ==> Lost(start, closes, i))
    && (m < |closes| ==> !Lost(start, closes, |closes| - m - 1))
  }

  lemma StreakExtends(start: real, closes: seq<Event>, e: Event, m: nat)
    requires e.PositionClosed? && (forall j :: 0 <= j < |closes| ==> closes[j].PositionClosed?)
    requires Streak(start, closes, m)
    ensures Streak(start, closes + [e], if e.walletAfter < FlatAfter(start, closes, |closes|) then m + 1 else 0)
  {
    var all := closes + [e];
    forall i: nat | i < |closes| ensures Lost(start, all, i) == Lost(start, closes, i) {
      assert all[i] == closes[i] && (i > 0 ==> all[i - 1] == closes[i - 1]);
    }
    assert Lost(start, all, |closes|) == (e.walletAfter < FlatAfter(start, closes, |closes|));
    forall i: nat | |closes| - m <= i < |closes| ensures Lost(start, all, i) {
      assert Lost(start, closes, i);
    }
  }

  lemma CounterStep(lim: Limits, k: KillState, start: real, closes: seq<Event>, e: Event, m: nat, carried: int)
    requires e.PositionClosed? && (forall j :: 0 <= j < |closes| ==> closes[j].PositionClosed?)
    requires k.flatWallet == FlatAfter(start, closes, |closes|)
    requires m <= |closes| && k.losses == m + (if m == |closes| then carried else 0)
    ensures var after, m' := ObserveOne(lim, k, e), if e.walletAfter < FlatAfter(start, closes, |closes|) then m + 1 else 0;
      && after.flatWallet == FlatAfter(start, closes + [e], |closes| + 1)
      && after.losses == m' + (if m' == |closes| + 1 then carried else 0)
  {}

  lemma OthersKeepCounter(lim: Limits, k: KillState, e: Event)
    requires !e.PositionClosed?
    ensures ObserveOne(lim, k, e).losses == k.losses && ObserveOne(lim, k, e).flatWallet == k.flatWallet
  {}

  /** The counter is the length `m` of the losing streak at the end, carried on from the count before if nothing
      broke it. */
  lemma {:induction false} CounterIsStreak(lim: Limits, k: KillState, evs: seq<Event>) returns (m: nat)
    ensures var after := Observe(lim, k, evs);
      && (forall j :: 0 <= j < |Closes(evs)| ==> Closes(evs)[j].PositionClosed?)
      && after.flatWallet == FlatAfter(k.flatWallet, Closes(evs), |Closes(evs)|)
      && Streak(k.flatWallet, Closes(evs), m)
      && after.losses == m + (if m == |Closes(evs)| then k.losses else 0)
    decreases |evs|
  {
    ClosesAreCloses(evs);
    if evs == [] {
      m := 0;
    } else {
      var n := |evs| - 1;
      var e, closes := evs[n], Closes(evs[..n]);
      m := CounterIsStreak(lim, k, evs[..n]);
      assert m <= |closes|;
      hide ObserveOne, Streak, Lost, FlatAfter;
      if e.PositionClosed? {
        CounterStep(lim, Observe(lim, k, evs[..n]), k.flatWallet, closes, e, m, k.losses);
        StreakExtends(k.flatWallet, closes, e, m);
        m := if e.walletAfter < FlatAfter(k.flatWallet, closes, |closes|) then m + 1 else 0;
      } else {
        OthersKeepCounter(lim, Observe(lim, k, evs[..n]), e);
        assert Closes(evs) == closes;
      }
    }
  }

  /** The switch trips exactly when a limit is reached: after any events, an untripped switch is below every limit,
      and one that tripped in them had reached one of the three limits at that event. */
  lemma {:induction false} UntrippedMeansBelowLimits(lim: Limits, k: KillState, evs: seq<Event>)
    requires k.tripped.None? && k.losses < lim.maxLosses && k.liquidations < MAX_LIQUIDATIONS && k.vanished < MAX_VANISHED
    ensures var after := Observe(lim, k, evs);
      after.tripped.None? ==>
        after.losses < lim.maxLosses && after.liquidations < MAX_LIQUIDATIONS && after.vanished < MAX_VANISHED
    ensures Observe(lim, k, evs).tripped.Some? ==> exists n: nat :: n < |evs| && TripsAt(lim, k, evs, n)
    decreases |evs|
  {
    if evs != [] {
      var n := |evs| - 1;
      UntrippedMeansBelowLimits(lim, k, evs[..n]);
      if Observe(lim, k, evs).tripped.Some? {
        if Observe(lim, k, evs[..n]).tripped.Some? {
          var j: nat :| j < n && TripsAt(lim, k, evs[..n], j);
          assert evs[..n][..j] == evs[..j];
          assert TripsAt(lim, k, evs, j);
        } else {
          assert TripsAt(lim, k, evs, n);
        }
      }
    }
  }

  /** Event `n` is the first at which a counter reaches its limit, and it is the reason kept. */
  ghost predicate TripsAt(lim: Limits, k: KillState, evs: seq<Event>, n: nat)
    requires n < |evs|
  {
    var before, after := Observe(lim, k, evs[..n]), ObserveOne(lim, Observe(lim, k, evs[..n]), evs[n]);
    && before.tripped.None?
    && (evs[n].PositionVanished? || evs[n].PositionClosed?)
    && after.tripped.Some? && after.tripped.value.ts == evs[n].ts
    && (match after.tripped.value.reason
        case VanishedTrip => after.vanished >= MAX_VANISHED
        case LiquidationTrip => after.liquidations >= MAX_LIQUIDATIONS
        case ConsecutiveLosses => after.losses >= lim.maxLosses
        case DailyLoss => false)
  }

  // ---------------------------------------------------------------- the daily loss

  datatype Equity = Equity(ts: int, equity: real)

  function EquityRun(lim: Limits, k: KillState, obs: seq<Equity>): KillState
    decreases |obs|
  {
    if obs == [] then k
    else var last := obs[|obs| - 1]; ObserveEquity(lim, EquityRun(lim, k, obs[..|obs| - 1]), last.ts, last.equity)
  }

  /** The day has cost at least the share of its first equity that may be lost. */
  predicate LostShare(lim: Limits, dayStart: real, equity: real) {
    dayStart - equity >= lim.dailyLoss * dayStart
  }

  lemma LineIsShare(lim: Limits, dayStart: real, equity: real)
    ensures equity <= LossLine(lim, dayStart) <==> LostShare(lim, dayStart, equity)
  {}

  /** Over one UTC day the switch trips if and only if some equity has lost that share of the day's first one, the exact
      share included. */
  lemma {:induction false} DailyLossIff(lim: Limits, k: KillState, day: int, obs: seq<Equity>)
    requires k.tripped.None? && k.day != Some(day) && obs != []
    requires forall i :: 0 <= i < |obs| ==> UtcDay(obs[i].ts) == day
    ensures EquityRun(lim, k, obs).day == Some(day) && EquityRun(lim, k, obs).dayStart == Some(obs[0].equity)
    ensures EquityRun(lim, k, obs).tripped.Some? <==> exists i :: 0 <= i < |obs| && LostShare(lim, obs[0].equity, obs[i].equity)
    ensures EquityRun(lim, k, obs).tripped.Some? ==>
      EquityRun(lim, k, obs).tripped.value.reason.DailyLoss? && UtcDay(EquityRun(lim, k, obs).tripped.value.ts) == day
    decreases |obs|
  {
    hide LossLine, LostShare;
    var n := |obs| - 1;
    var before := obs[..n];
    LineIsShare(lim, obs[0].equity, obs[n].equity);
    if n == 0 {
      assert EquityRun(lim, k, before) == k;
    } else {
      DailyLossIff(lim, k, day, before);
      if i :| 0 <= i < n && LostShare(lim, before[0].equity, before[i].equity) {
        assert obs[i] == before[i];
      }
      if i :| 0 <= i < n && LostShare(lim, obs[0].equity, obs[i].equity) {
        assert obs[i] == before[i];
      }
    }
  }

  // ---------------------------------------------------------------- when the gate is open

  /** Event `n` trips by itself: a vanished position, a liquidation, or a close that makes the streak too long. */
  predicate TripsOn(lim: Limits, k: KillState, evs: seq<Event>, n: nat)
    requires n < |evs|
  {
    || evs[n].PositionVanished?
    || (evs[n].PositionClosed? && (evs[n].reason.Liquidation? || Observe(lim, k, evs[..n + 1]).losses >= lim.maxLosses))
  }

  lemma {:induction false} EventsTripIff(lim: Limits, k: KillState, evs: seq<Event>)
    requires k.tripped.None?
    ensures Observe(lim, k, evs).tripped.Some? <==> exists n: nat :: n < |evs| && TripsOn(lim, k, evs, n)
    decreases |evs|
  {
    if evs != [] {
      var n := |evs| - 1;
      EventsTripIff(lim, k, evs[..n]);
      assert evs[..n + 1] == evs;
      forall j: nat | j < n ensures TripsOn(lim, k, evs[..n], j) == TripsOn(lim, k, evs, j) {
        assert evs[..n][..j + 1] == evs[..j + 1];
      }
      LastTrips(lim, k, evs);
    }
  }

  lemma LastTrips(lim: Limits, k: KillState, evs: seq<Event>)
    requires evs != []
    ensures
      var before := Observe(lim, k, evs[..|evs| - 1]);
      Observe(lim, k, evs).tripped.Some? <==> before.tripped.Some? || TripsOn(lim, k, evs, |evs| - 1)
  {
    assert evs[..|evs| - 1 + 1] == evs;
  }

  /** The equity the day's line is drawn from. */
  function StartOfDay(k: KillState, ts: int, equity: real): real {
    if k.day == Some(UtcDay(ts)) && k.dayStart.Some? then k.dayStart.value else equity
  }

  ghost predicate Trips(lim: Limits, k: KillState, i: GateInput) {
    match i
    case Events(evs) => exists n: nat :: n < |evs| && TripsOn(lim, k, evs, n)
    case Marked(ts, equity) => LostShare(lim, StartOfDay(k, ts, equity), equity)
    case Compare(r, ts) => r.exchange == Some(0.0) && r.internal != 0.0
    case _ => false
  }

  /** A start that is answered: any, but for one on the UTC day of a daily-loss trip. */
  predicate Lifts(k: KillState, i: GateInput) {
    i.Start? && (k.tripped.None? || Releases(k.tripped.value, i))
  }

  /** Such a start lifts all a person can lift and forgets the counts that led to a trip; any other changes nothing. */
  lemma StartLifts(lim: Limits, g: GateState, i: GateInput)
    requires i.Start?
    ensures
      var after := GateStep(lim, g, i);
      if !Lifts(g.kill, i) then after == g
      else
        && after.pausedBy.None? && after.kill.tripped.None? && after.reconcile == ReconcileState([], false) && after.notices == []
        && after.engineBlocks == g.engineBlocks && after.kill.flatWallet == g.kill.flatWallet
        && after.kill.day == g.kill.day && after.kill.dayStart == g.kill.dayStart
        && (g.kill.tripped.None? ==> after.kill == g.kill)
        && (g.kill.tripped.Some? ==> after.kill.losses == 0 && after.kill.liquidations == 0 && after.kill.vanished == 0)
  {}

  /** How many inputs there were up to the last answered start. */
  function LastLift(lim: Limits, g: GateState, ins: seq<GateInput>): (n: nat)
    ensures n <= |ins|
    decreases |ins|
  {
    if ins == [] then 0
    else if Lifts(GateRun(lim, g, ins[..|ins| - 1]).kill, ins[|ins| - 1]) then |ins|
    else LastLift(lim, g, ins[..|ins| - 1])
  }

  function Comparisons(ins: seq<GateInput>): seq<ReconcileResult>
    decreases |ins|
  {
    if ins == [] then []
    else Comparisons(ins[..|ins| - 1]) + (if ins[|ins| - 1].Compare? then [ins[|ins| - 1].r] else [])
  }

  /** The notices noted last. */
  function Notices(ins: seq<GateInput>): seq<nat>
    decreases |ins|
  {
    if ins == [] then [] else if ins[|ins| - 1].Noted? then ins[|ins| - 1].notices else Notices(ins[..|ins| - 1])
  }

  predicate Clear(g: GateState) {
    g.pausedBy.None? && g.kill.tripped.None? && g.reconcile == ReconcileState([], false) && g.notices == []
  }

  predicate PausedSince(ins: seq<GateInput>, s: nat) {
    exists n :: s <= n < |ins| && ins[n].Pause?
  }

  ghost predicate TripAt(lim: Limits, g: GateState, ins: seq<GateInput>, n: nat)
    requires n < |ins|
  {
    Trips(lim, GateRun(lim, g, ins[..n]).kill, ins[n])
  }

  ghost predicate TrippedSince(lim: Limits, g: GateState, ins: seq<GateInput>, s: nat) {
    exists n :: s <= n < |ins| && TripAt(lim, g, ins, n)
  }

  lemma PausedMore(ins: seq<GateInput>, i: GateInput, s: nat)
    requires s <= |ins|
    ensures PausedSince(ins + [i], s) <==> PausedSince(ins, s) || i.Pause?
  {
    var all := ins + [i];
    assert all[|ins|] == i;
    assert forall n :: 0 <= n < |ins| ==> all[n] == ins[n];
  }

  lemma TrippedMore(lim: Limits, g: GateState, ins: seq<GateInput>, i: GateInput, s: nat)
    requires s <= |ins|
    ensures TrippedSince(lim, g, ins + [i], s) <==> TrippedSince(lim, g, ins, s) || Trips(lim, GateRun(lim, g, ins).kill, i)
  {
    hide GateRun, Trips;
    var all := ins + [i];
    assert all[|ins|] == i && all[..|ins|] == ins;
    forall n: nat | n < |ins| ensures TripAt(lim, g, all, n) == TripAt(lim, g, ins, n) {
      assert all[n] == ins[n] && all[..n] == ins[..n];
    }
    assert TripAt(lim, g, all, |ins|) == Trips(lim, GateRun(lim, g, ins).kill, i);
  }

  /** One input that is no answered start: what it does to each part of the gate. */
  lemma OnePart(lim: Limits, g: GateState, i: GateInput)
    requires !Lifts(g.kill, i)
    ensures
      var after := GateStep(lim, g, i);
      && (after.pausedBy.Some? <==> g.pausedBy.Some? || i.Pause?)
      && (after.kill.tripped.Some? <==> g.kill.tripped.Some? || Trips(lim, g.kill, i))
      && after.reconcile == (if i.Compare? then GuardUpdate(g.reconcile, i.r) else g.reconcile)
      && after.notices == (if i.Noted? then i.notices else g.notices)
  {
    if i.Events? {
      if g.kill.tripped.Some? { ObserveKeepsTrip(lim, g.kill, i.evs); } else { EventsTripIff(lim, g.kill, i.evs); }
    } else if i.Marked? {
      LineIsShare(lim, StartOfDay(g.kill, i.ts, i.equity), i.equity);
    }
  }

  lemma LastOf(ins: seq<GateInput>, i: GateInput)
    ensures !i.Compare? ==> Comparisons(ins + [i]) == Comparisons(ins)
    ensures Notices(ins + [i]) == if i.Noted? then i.notices else Notices(ins)
    ensures i.Compare? ==> GuardRun(Comparisons(ins + [i])) == GuardUpdate(GuardRun(Comparisons(ins)), i.r)
  {
    var all := ins + [i];
    assert all[..|all| - 1] == ins;
    if i.Compare? {
      var rs := Comparisons(all);
      assert rs[..|rs| - 1] == Comparisons(ins);
    }
  }

  /** Since input `s` of a run somebody paused, something tripped, and the comparisons and notices say what the gate holds. */
  ghost predicate Since(lim: Limits, g: GateState, ins: seq<GateInput>, s: nat) {
    var now := GateRun(lim, g, ins);
    && s <= |ins|
    && (now.pausedBy.Some? <==> PausedSince(ins, s))
    && (now.kill.tripped.Some? <==> TrippedSince(lim, g, ins, s))
    && now.reconcile == GuardRun(Comparisons(ins[s..]))
    && now.notices == Notices(ins[s..])
  }

  lemma SinceMore(lim: Limits, g: GateState, ins: seq<GateInput>, i: GateInput, s: nat)
    requires Since(lim, g, ins, s) && !Lifts(GateRun(lim, g, ins).kill, i)
    ensures Since(lim, g, ins + [i], s)
  {
    hide GateStep, PausedSince, TrippedSince, Comparisons, Notices, GuardRun, GuardUpdate, Trips, Lifts;
    var all := ins + [i];
    assert all[..|all| - 1] == ins && all[s..] == ins[s..] + [i];
    OnePart(lim, GateRun(lim, g, ins), i);
    PausedMore(ins, i, s);
    TrippedMore(lim, g, ins, i, s);
    LastOf(ins[s..], i);
  }

  /** Main theorem on the gate. Over any run from a clear gate: it is paused exactly if somebody paused it after the last
      answered start, tripped exactly if something tripped it after that, and holds of comparisons and notices exactly what
      came after that. A start on the day of a daily-loss trip is none of those. */
  lemma {:induction false} GateIff(lim: Limits, g: GateState, ins: seq<GateInput>)
    requires Clear(g)
    ensures Since(lim, g, ins, LastLift(lim, g, ins))
    decreases |ins|
  {
    hide GateStep, Trips, Lifts, Since;
    if ins == [] {
      NothingSince(lim, g);
    } else {
      var n := |ins| - 1;
      GateIff(lim, g, ins[..n]);
      assert ins == ins[..n] + [ins[n]];
      if Lifts(GateRun(lim, g, ins[..n]).kill, ins[n]) {
        NothingAfter(lim, g, ins);
      } else {
        SinceMore(lim, g, ins[..n], ins[n], LastLift(lim, g, ins[..n]));
      }
    }
  }

  lemma NothingAfter(lim: Limits, g: GateState, ins: seq<GateInput>)
    requires ins != [] && Lifts(GateRun(lim, g, ins[..|ins| - 1]).kill, ins[|ins| - 1])
    ensures Since(lim, g, ins, |ins|)
  {
    hide GateStep;
    StartLifts(lim, GateRun(lim, g, ins[..|ins| - 1]), ins[|ins| - 1]);
    assert ins[|ins|..] == [];
  }

  lemma NothingSince(lim: Limits, g: GateState)
    requires Clear(g)
    ensures Since(lim, g, [], 0)
  {
    var none: seq<GateInput> := [];
    assert none[0..] == [];
  }

  /** The wallet of the last close or resynchronisation. */
  function LastFlat(start: real, ins: seq<GateInput>): real
    decreases |ins|
  {
    if ins == [] then start
    else
      match ins[|ins| - 1]
      case FlatWallet(wallet) => wallet
      case Events(evs) =>
        ClosesAreCloses(evs);
        FlatAfter(LastFlat(start, ins[..|ins| - 1]), Closes(evs), |Closes(evs)|)
      case _ => LastFlat(start, ins[..|ins| - 1])
  }

  /** Trades are measured from there, whatever was paused, compared, started or refused in between. */
  lemma {:induction false} FlatWalletIs(lim: Limits, g: GateState, ins: seq<GateInput>)
    ensures GateRun(lim, g, ins).kill.flatWallet == LastFlat(g.kill.flatWallet, ins)
    decreases |ins|
  {
    hide Observe, FlatAfter;
    if ins != [] {
      var n := |ins| - 1;
      FlatWalletIs(lim, g, ins[..n]);
      match ins[n]
      case Events(evs) => var m := CounterIsStreak(lim, GateRun(lim, g, ins[..n]).kill, evs);
      case _ =>
    }
  }

  // ---------------------------------------------------------------- the object

  /** What the callers are told: the trip that took hold between two states. */
  function NewTrip(before: KillState, after: KillState): seq<Trip> {
    if before.tripped.None? && after.tripped.Some? then [after.tripped.value] else []
  }

  class KillSwitch {
    const limits: Limits
    var state: KillState

    constructor (limits: Limits, wallet: real)
      ensures this.limits == limits && state == KillState(None, 0, 0, 0, wallet, None, None, None)
    {
      this.limits, state := limits, KillState(None, 0, 0, 0, wallet, None, None, None);
    }

    method RaiseTrip(ts: int, reason: TripReason) returns (trips: seq<Trip>)
      modifies this`state
      ensures state == TripOn(old(state), ts, reason)
      ensures trips == if old(state).tripped.Some? then [] else [Trip(ts, reason)]
    {
      if state.tripped.Some? { return []; }
      state := state.(tripped := Some(Trip(ts, reason)));
      trips := [Trip(ts, reason)];
    }

    method ObserveEvent(e: Event) returns (trips: seq<Trip>)
      modifies this`state
      ensures state == ObserveOne(limits, old(state), e)
      ensures trips == NewTrip(old(state), state)
      ensures old(state).tripped.Some? ==> state.tripped == old(state).tripped
    {
      trips := [];
      match e {
        case PositionVanished(_, _, _, _) =>
          state := state.(vanished := state.vanished + 1);
          if state.vanished >= MAX_VANISHED { trips := RaiseTrip(e.ts, VanishedTrip); }
        case PositionClosed(_, _, reason, _, _, _, _, _, _, _, walletAfter) =>
          var net := walletAfter - state.flatWallet;
          state := state.(flatWallet := walletAfter, losses := if net < 0.0 then state.losses + 1 else 0);
          if reason.Liquidation? {
            state := state.(liquidations := state.liquidations + 1);
            if state.liquidations >= MAX_LIQUIDATIONS { trips := RaiseTrip(e.ts, LiquidationTrip); }
          }
          if state.losses >= limits.maxLosses {
            var more := RaiseTrip(e.ts, ConsecutiveLosses);
            trips := trips + more;
          }
        case _ =>
      }
    }

    /** At most one trip is announced, and only the one that took hold. */
    method ObserveEvents(evs: seq<Event>) returns (trips: seq<Trip>)
      modifies this`state
      ensures state == Observe(limits, old(state), evs)
      ensures trips == NewTrip(old(state), state)
    {
      trips := [];
      for i := 0 to |evs|
        invariant state == Observe(limits, old(state), evs[..i])
        invariant trips == NewTrip(old(state), state)
        invariant old(state).tripped.Some? ==> state.tripped == old(state).tripped
      {
        assert evs[..i + 1][..i] == evs[..i];
        var more := ObserveEvent(evs[i]);
        trips := trips + more;
      }
      assert evs[..|evs|] == evs;
    }
  }
}
