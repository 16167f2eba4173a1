/** The events of an engine call tell its whole story: folding them reproduces the position the engine holds,
    and summing them reproduces its wallet. Proved for every public call, both modes and every answer the
    exchange can give. */
module Accounting {
  import opened Types
  import opened Steps
  import opened Normalize
  import opened EngineTypes
  import opened EngineModel

  // ---------------------------------------------------------------- the position told by events

  /** A position as the events describe it. `closedQty` is what has been closed since it was opened. */
  datatype LedgerPos = LedgerPos(
    direction: Direction, qty: real, entryPrice: real, leverage: int, sl: real, tp: Option<real>, entryCommission: real,
    fundingPaid: real, openedMs: int, trail: Option<TrailState>, closedQty: real)

  function Shrink(l: Option<LedgerPos>, q: real): Option<LedgerPos> {
    if l.None? || l.value.qty - q <= 0.0 then None
    else Some(l.value.(qty := l.value.qty - q, closedQty := l.value.closedQty + q))
  }

  /** `tp` is the take-profit recorded with the batch; only an entry uses it. */
  function LedgerStep(l: Option<LedgerPos>, e: Event, tp: Option<real>): Option<LedgerPos> {
    match e
    case EntryFilled(ts, d, qty, entry, lev, sl, _, _, comm, _) => Some(LedgerPos(d, qty, entry, lev, sl, tp, comm, 0.0, ts, None, 0.0))
    case PositionClosed(_, _, _, q, _, _, _, _, _, _, _) => Shrink(l, q)
    case PositionReduced(_, _, _, q, _, _, _, _, _, _, _) => Shrink(l, q)
    case PositionVanished(_, _, q, _) => Shrink(l, q)
    case PositionAbandoned(_, _, q, _) => Shrink(l, q)
    case PositionSynced(_, _, _, q, entry, extra) =>
      if l.None? then None else Some(l.value.(qty := q, entryPrice := entry, entryCommission := l.value.entryCommission + extra))
    case FundingSettled(_, _, _, _, paid, _) => if l.None? then None else Some(l.value.(fundingPaid := l.value.fundingPaid + paid))
    case TrailSet(_, armR, dist, r) => if l.None? then None else Some(l.value.(trail := Some(TrailState(armR, dist, r, false, false))))
    case TrailArmed(_, _) =>
      if l.None? || l.value.trail.None? then l else Some(l.value.(trail := Some(l.value.trail.value.(armed := true))))
    case StopTrailed(_, _, newSl) =>
      if l.None? || l.value.trail.None? then l
      else Some(l.value.(sl := newSl, trail := Some(l.value.trail.value.(armed := true, moved := true))))
    case _ => l
  }

  function Ledger(l: Option<LedgerPos>, evs: seq<Event>, tp: Option<real>): Option<LedgerPos>
    decreases |evs|
  {
    if evs == [] then l else Ledger(LedgerStep(l, evs[0], tp), evs[1..], tp)
  }

  lemma {:induction false} LedgerAppend(l: Option<LedgerPos>, a: seq<Event>, b: seq<Event>, tp: Option<real>)
    ensures Ledger(l, a + b, tp) == Ledger(Ledger(l, a, tp), b, tp)
    decreases |a|
  {
    if a == [] {
      assert a + b == b;
    } else {
      assert (a + b)[1..] == a[1..] + b;
      LedgerAppend(LedgerStep(l, a[0], tp), a[1..], b, tp);
    }
  }

  lemma LedgerOne(l: Option<LedgerPos>, e: Event, tp: Option<real>)
    ensures Ledger(l, [e], tp) == LedgerStep(l, e, tp)
  {
    assert [e][1..] == [];
  }

  /** The ledger shows the engine's position: every recorded field in PAPER, direction and quantity in LIVE
      (where a partial vanish also moves the average entry price without an event of its own). */
  ghost predicate Shows(mode: Mode, l: Option<LedgerPos>, p: Option<Position>) {
    && (l.None? <==> p.None?)
    && (l.Some? ==>
          && l.value.direction == p.value.direction
          && l.value.qty == p.value.qty
          && (mode.Paper? ==>
                && l.value.entryPrice == p.value.entryPrice
                && l.value.leverage == p.value.leverage
                && l.value.sl == p.value.sl
                && l.value.tp == p.value.tp
                && l.value.entryCommission == p.value.entryCommission
                && l.value.fundingPaid == p.value.fundingPaid
                && l.value.openedMs == p.value.openedMs
                && l.value.trail == p.value.trail))
  }

  /** An event fits the position it speaks about: entries only when flat, everything else about the held
      direction. Row writers rely on this to find the right root row. */
  predicate Fits(l: Option<LedgerPos>, e: Event) {
    match e
    case EntryFilled(_, _, qty, _, _, _, _, _, _, _) => l.None? && qty > 0.0
    case PositionClosed(_, d, _, _, _, _, _, _, _, _, _) => l.Some? && l.value.direction == d
    case PositionReduced(_, d, _, _, _, _, _, _, _, _, _) => l.Some? && l.value.direction == d
    case PositionVanished(_, d, _, _) => l.Some? && l.value.direction == d
    case PositionAbandoned(_, d, _, _) => l.Some? && l.value.direction == d
    case PositionSynced(_, d, _, qty, _, _) => l.Some? && l.value.direction == d && qty > 0.0
    case FundingSettled(_, _, _, _, _, _) => l.Some?
    case TrailSet(_, _, _, _) => l.Some?
    case TrailArmed(_, _) => l.Some?
    case StopTrailed(_, _, _) => l.Some?
    case _ => true
  }

  predicate AllFit(l: Option<LedgerPos>, evs: seq<Event>, tp: Option<real>)
    decreases |evs|
  {
    evs == [] || (Fits(l, evs[0]) && AllFit(LedgerStep(l, evs[0], tp), evs[1..], tp))
  }

  lemma {:induction false} FitAppend(l: Option<LedgerPos>, a: seq<Event>, b: seq<Event>, tp: Option<real>)
    requires AllFit(l, a, tp) && AllFit(Ledger(l, a, tp), b, tp)
    ensures AllFit(l, a + b, tp)
    decreases |a|
  {
    if a == [] {
      assert a + b == b;
    } else {
      assert (a + b)[1..] == a[1..] + b;
      FitAppend(LedgerStep(l, a[0], tp), a[1..], b, tp);
    }
  }

  lemma {:induction false} NeutralFits(l: Option<LedgerPos>, evs: seq<Event>, tp: Option<real>)
    requires AllNeutral(evs)
    ensures AllFit(l, evs, tp)
  {
    if evs != [] {
      assert evs[0] in evs;
      NeutralFits(l, evs[1..], tp);
    }
  }

  // ---------------------------------------------------------------- the wallet told by events

  function WalletDelta(e: Event): real {
    match e
    case EntryFilled(_, _, _, _, _, _, _, _, comm, _) => -comm
    case PositionClosed(_, _, _, _, _, _, _, pnl, comm, _, _) => pnl - comm
    case PositionReduced(_, _, _, _, _, _, _, _, pnl, comm, _) => pnl - comm
    case PositionSynced(_, _, _, _, _, extra) => -extra
    case WalletResynced(_, previous, wallet) => wallet - previous
    case FundingSettled(_, _, _, _, paid, _) => -paid
    case _ => 0.0
  }

  /** The wallet after the events, from the wallet before them. */
  function WalletAfter(w: real, evs: seq<Event>): real
    decreases |evs|
  {
    if evs == [] then w else WalletAfter(w + WalletDelta(evs[0]), evs[1..])
  }

  /** Each wallet value printed on an event is the true wallet at that moment. */
  predicate StampsOk(w: real, evs: seq<Event>)
    decreases |evs|
  {
    evs != [] ==>
      var e, w' := evs[0], w + WalletDelta(evs[0]);
      && (e.PositionClosed? ==> e.walletAfter == w')
      && (e.PositionReduced? ==> e.walletAfter == w')
      && (e.FundingSettled? ==> e.walletAfter == w')
      && (e.WalletResynced? ==> e.previous == w && e.wallet == w')
      && StampsOk(w', evs[1..])
  }

  lemma {:induction false} WalletAppend(w: real, a: seq<Event>, b: seq<Event>)
    ensures WalletAfter(w, a + b) == WalletAfter(WalletAfter(w, a), b)
    ensures StampsOk(w, a) && StampsOk(WalletAfter(w, a), b) ==> StampsOk(w, a + b)
    decreases |a|
  {
    if a == [] {
      assert a + b == b;
    } else {
      assert (a + b)[1..] == a[1..] + b;
      WalletAppend(w + WalletDelta(a[0]), a[1..], b);
    }
  }

  lemma WalletOne(w: real, e: Event)
    ensures WalletAfter(w, [e]) == w + WalletDelta(e)
  {
    assert [e][1..] == [];
  }

  /** Funding settled by the events. */
  function FundingPaid(evs: seq<Event>): real {
    if evs == [] then 0.0
    else (match evs[0] case FundingSettled(_, _, _, _, paid, _) => paid case _ => 0.0) + FundingPaid(evs[1..])
  }

  // ---------------------------------------------------------------- which events need a snapshot

  /** `ops.runtime.SNAPSHOT_EVENTS`. */
  predicate SnapshotEvent(e: Event) {
    e.EntryFilled? || e.PositionClosed? || e.PositionReduced? || e.PositionVanished? || e.WalletResynced? || e.FundingSettled?
    || e.StopTrailed? || e.TrailArmed?
  }

  /** Events that say nothing about the position's recorded fields. */
  predicate Neutral(e: Event) {
    e.EntrySkipped? || e.PositionRestored? || e.WalletResynced? || e.FundingMissed? || e.EntriesBlocked? || e.ExitFailed?
    || e.LiquidationThresholdCrossed?
  }

  predicate AllNeutral(evs: seq<Event>) {
    forall e :: e in evs ==> Neutral(e)
  }

  predicate HasSnapshotEvent(evs: seq<Event>) {
    exists e :: e in evs && SnapshotEvent(e)
  }

  predicate HasEntry(evs: seq<Event>) {
    exists e :: e in evs && e.EntryFilled?
  }

  lemma {:induction false} NeutralKeepsLedger(l: Option<LedgerPos>, evs: seq<Event>, tp: Option<real>)
    requires AllNeutral(evs)
    ensures Ledger(l, evs, tp) == l
  {
    if evs != [] {
      assert evs[0] in evs;
      NeutralKeepsLedger(l, evs[1..], tp);
    }
  }

  // ---------------------------------------------------------------- one call accounted for

  /** The ledger, the wallet and the wallet stamps all agree after the call, and a call whose events trigger
      no snapshot changes nothing a snapshot records. A call that raises has done what its events say as well, only
      that nobody is told. */
  ghost predicate Accounted(mode: Mode, l: Option<LedgerPos>, s: EngineState, step: Step, tp: Option<real>) {
    && Shows(mode, Ledger(l, step.events, tp), step.st.position)
    && AllFit(l, step.events, tp)
    && WalletAfter(s.wallet, step.events) == step.st.wallet
    && StampsOk(s.wallet, step.events)
    && (mode.Paper? ==> HasSnapshotEvent(step.events) || AllNeutral(step.events))
    && (mode.Paper? ==> forall e :: e in step.events ==> !e.PositionSynced? && !e.PositionAbandoned? && !e.PositionVanished?)
  }

  lemma AccountedThen(mode: Mode, l: Option<LedgerPos>, s: EngineState, a: Step, b: Step, tp: Option<real>)
    requires !a.raised && Accounted(mode, l, s, a, tp)
    requires Accounted(mode, Ledger(l, a.events, tp), a.st, b, tp)
    ensures Accounted(mode, l, s, Then(a, b), tp)
  {
    LedgerAppend(l, a.events, b.events, tp);
    WalletAppend(s.wallet, a.events, b.events);
    FitAppend(l, a.events, b.events, tp);
    if mode.Paper? {
      var all := a.events + b.events;
      if HasSnapshotEvent(a.events) {
        var e :| e in a.events && SnapshotEvent(e);
        assert e in all;
      } else if HasSnapshotEvent(b.events) {
        var e :| e in b.events && SnapshotEvent(e);
        assert e in all;
      }
    }
  }

  /** Adding neutral, wallet-free events and blocks changes nothing that is accounted for. */
  predicate Quiet(e: Event) {
    e.EntrySkipped? || e.PositionRestored? || e.FundingMissed? || e.EntriesBlocked? || e.ExitFailed? || e.LiquidationThresholdCrossed?
  }

  lemma {:induction false} QuietKeepsWallet(w: real, evs: seq<Event>)
    requires forall e :: e in evs ==> Quiet(e)
    ensures WalletAfter(w, evs) == w && StampsOk(w, evs)
  {
    if evs != [] {
      assert evs[0] in evs;
      QuietKeepsWallet(w, evs[1..]);
    }
  }

  lemma QuietAccounted(mode: Mode, l: Option<LedgerPos>, s: EngineState, step: Step, tp: Option<real>)
    requires Shows(mode, l, s.position) && Shows(mode, l, step.st.position) && step.st.wallet == s.wallet
    requires forall e :: e in step.events ==> Quiet(e)
    ensures Accounted(mode, l, s, step, tp)
    ensures Ledger(l, step.events, tp) == l
  {
    NeutralKeepsLedger(l, step.events, tp);
    NeutralFits(l, step.events, tp);
    QuietKeepsWallet(s.wallet, step.events);
  }

  lemma OneAccounted(mode: Mode, l: Option<LedgerPos>, s: EngineState, e: Event, st: EngineState, tp: Option<real>)
    requires Shows(mode, LedgerStep(l, e, tp), st.position) && Fits(l, e)
    requires st.wallet == s.wallet + WalletDelta(e)
    requires e.PositionClosed? || e.PositionReduced? || e.FundingSettled? ==> e.walletAfter == st.wallet
    requires e.WalletResynced? ==> e.previous == s.wallet && e.wallet == st.wallet
    requires mode.Paper? ==> (SnapshotEvent(e) || Neutral(e)) && !e.PositionSynced? && !e.PositionAbandoned? && !e.PositionVanished?
    ensures Accounted(mode, l, s, Step(st, [e], false), tp)
  {
    LedgerOne(l, e, tp);
    WalletOne(s.wallet, e);
    assert [e][1..] == [];
    assert e in [e];
  }

  // ---------------------------------------------------------------- each internal function

  /** Append quiet events to a step whose state only gains blocks. */
  lemma AddQuiet(mode: Mode, l: Option<LedgerPos>, s: EngineState, a: Step, st: EngineState, extra: seq<Event>, tp: Option<real>)
    requires !a.raised && Accounted(mode, l, s, a, tp)
    requires st.position == a.st.position && st.wallet == a.st.wallet
    requires forall e :: e in extra ==> Quiet(e)
    ensures Accounted(mode, l, s, Step(st, a.events + extra, false), tp)
  {
    QuietAccounted(mode, Ledger(l, a.events, tp), a.st, Step(st, extra, false), tp);
    AccountedThen(mode, l, s, a, Step(st, extra, false), tp);
  }

  lemma SettleAccounted(c: Config, l: Option<LedgerPos>, s: EngineState, ts: int, rate: real, mark: real, tp: Option<real>)
    requires s.position.Some? && Shows(c.mode, l, s.position)
    ensures Accounted(c.mode, l, s, SettleFunding(c, s, ts, rate, mark), tp)
  {
    var step := SettleFunding(c, s, ts, rate, mark);
    OneAccounted(c.mode, l, s, step.events[0], step.st, tp);
  }

  lemma LiquidateAccounted(c: Config, l: Option<LedgerPos>, s: EngineState, ts: int, tp: Option<real>)
    requires s.position.Some? && Shows(c.mode, l, s.position)
    ensures Accounted(c.mode, l, s, Liquidate(c, s, ts), tp)
  {
    var step := Liquidate(c, s, ts);
    OneAccounted(c.mode, l, s, step.events[0], step.st, tp);
  }

  lemma BookAccounted(c: Config, l: Option<LedgerPos>, s: EngineState, reason: ExitReason, ts: int, fills: seq<Fill>, tp: Option<real>)
    requires s.position.Some? && Shows(c.mode, l, s.position)
    ensures Accounted(c.mode, l, s, BookExit(s, reason, ts, fills), tp)
  {
    var step := BookExit(s, reason, ts, fills);
    if fills == [] {
      QuietAccounted(c.mode, l, s, step, tp);
    } else {
      FillsArePositive(fills);
      var first := Step(step.st, [step.events[0]], false);
      OneAccounted(c.mode, l, s, step.events[0], step.st, tp);
      if FillQty(fills) >= s.position.value.qty {
        assert step == first;
      } else {
        AddQuiet(c.mode, l, s, first, step.st, [ExitFailed(ts, reason)], tp);
        assert step.events == first.events + [ExitFailed(ts, reason)];
      }
    }
  }

  lemma SendExitAccounted(c: Config, l: Option<LedgerPos>, s: EngineState, reason: ExitReason, refMark: real, ts: int, x: ExitScript, tp: Option<real>)
    requires s.position.Some? && Shows(c.mode, l, s.position)
    ensures Accounted(c.mode, l, s, SendExit(c, s, reason, refMark, ts, x), tp)
  {
    var p := s.position.value;
    if Multiple(p.qty, c.rules.marketStep) {
      var sent := ExitSent(c, p.direction, p.qty, refMark, x);
      var booked := BookExit(s, reason, ts, sent.fills);
      BookAccounted(c, l, s, reason, ts, sent.fills, tp);
      if sent.failure.Some? {
        AddQuiet(c.mode, l, s, booked, Block(booked.st, ExitSendFailed), [ExitFailed(ts, reason), EntriesBlocked(ts, ExitSendFailed)], tp);
      }
    }
  }

  lemma AfterExitAccounted(c: Config, l: Option<LedgerPos>, s: EngineState, done: Step, ts: int, x: ExitScript, tp: Option<real>)
    requires Accounted(c.mode, l, s, done, tp)
    ensures Accounted(c.mode, l, s, AfterExit(c, done, ts, x), tp)
  {
    if c.mode.Live? && !done.raised && done.st.position.None? {
      match x.afterRead
      case None => AddQuiet(c.mode, l, s, done, Block(done.st, ReadFailed), [EntriesBlocked(ts, ReadFailed)], tp);
      case Some(pr) =>
        if pr.amt != 0.0 {
          AddQuiet(c.mode, l, s, done, Block(done.st, ExitLeftover(pr.amt)), [EntriesBlocked(ts, ExitLeftover(pr.amt))], tp);
        }
    }
  }

  lemma ResyncAccounted(c: Config, l: Option<LedgerPos>, s: EngineState, refMark: real, ts: int, pr: PositionRisk, tp: Option<real>)
    requires c.mode.Live? && s.position.Some? && pr.amt != 0.0 && Shows(c.mode, l, s.position)
    ensures Accounted(c.mode, l, s, ResyncQty(c, s, refMark, ts, pr), tp)
  {
    var step := ResyncQty(c, s, refMark, ts, pr);
    var first := Step(s, [step.events[0]], false);
    QuietAccounted(c.mode, l, s, first, tp);
    OneAccounted(c.mode, l, s, step.events[1], step.st, tp);
    AccountedThen(c.mode, l, s, first, Step(step.st, [step.events[1]], false), tp);
    assert step.events == [step.events[0]] + [step.events[1]];
  }

  lemma ExitAccounted(c: Config, l: Option<LedgerPos>, s: EngineState, reason: ExitReason, refMark: real, ts: int, x: ExitScript, tp: Option<real>)
    requires s.position.Some? && Shows(c.mode, l, s.position)
    ensures Accounted(c.mode, l, s, DoExit(c, s, reason, refMark, ts, x), tp)
  {
    if c.mode.Paper? {
      SendExitAccounted(c, l, s, reason, refMark, ts, x, tp);
    } else {
      match x.read
      case None =>
        var failed := Step(Block(s, ReadFailed), [EntriesBlocked(ts, ReadFailed)], false);
        QuietAccounted(c.mode, l, s, failed, tp);
        SendExitAccounted(c, l, failed.st, reason, refMark, ts, x, tp);
        AccountedThen(c.mode, l, s, failed, SendExit(c, failed.st, reason, refMark, ts, x), tp);
        AfterExitAccounted(c, l, s, Then(failed, SendExit(c, failed.st, reason, refMark, ts, x)), ts, x, tp);
      case Some(pr) =>
        if pr.amt == 0.0 {
          FlatExitAccounted(c, l, s, reason, ts, tp);
        } else if (pr.amt > 0.0) != s.position.value.direction.Long? {
          QuietAccounted(c.mode, l, s, DoExit(c, s, reason, refMark, ts, x), tp);
        } else if pr.amt != s.position.value.Signed() {
          var synced := ResyncQty(c, s, refMark, ts, pr);
          ResyncAccounted(c, l, s, refMark, ts, pr, tp);
          SendExitAccounted(c, Ledger(l, synced.events, tp), synced.st, reason, refMark, ts, x, tp);
          AccountedThen(c.mode, l, s, synced, SendExit(c, synced.st, reason, refMark, ts, x), tp);
          AfterExitAccounted(c, l, s, Then(synced, SendExit(c, synced.st, reason, refMark, ts, x)), ts, x, tp);
        } else {
          SendExitAccounted(c, l, s, reason, refMark, ts, x, tp);
          AfterExitAccounted(c, l, s, SendExit(c, s, reason, refMark, ts, x), ts, x, tp);
        }
    }
  }

  lemma FlatExitAccounted(c: Config, l: Option<LedgerPos>, s: EngineState, reason: ExitReason, ts: int, tp: Option<real>)
    requires c.mode.Live? && s.position.Some? && Shows(c.mode, l, s.position)
    ensures
      var p := s.position.value;
      Accounted(c.mode, l, s, Step(Block(s.(position := None), AlreadyFlat),
        [PositionVanished(ts, p.direction, p.qty, p.entryPrice), ExitFailed(ts, reason), EntriesBlocked(ts, AlreadyFlat)], false), tp)
  {
    var p := s.position.value;
    var gone := PositionVanished(ts, p.direction, p.qty, p.entryPrice);
    OneAccounted(c.mode, l, s, gone, s.(position := None), tp);
    var rest := [ExitFailed(ts, reason), EntriesBlocked(ts, AlreadyFlat)];
    AddQuiet(c.mode, l, s, Step(s.(position := None), [gone], false), Block(s.(position := None), AlreadyFlat), rest, tp);
    assert [gone] + rest == [gone, ExitFailed(ts, reason), EntriesBlocked(ts, AlreadyFlat)];
  }

  /** Opening events alone: the reset, the fill and the trail settings. */
  lemma OpeningAccounted(c: Config, s: EngineState, p: Position, fills: seq<Fill>, adopted: bool, ts: int)
    requires s.position.None? && p.fundingPaid == 0.0 && p.openedMs == ts
    requires p.trail.Some? ==> !p.trail.value.armed && !p.trail.value.moved
    ensures
      var base := if c.sizingCapital.Some? then c.sizingCapital.value else s.wallet;
      var st := s.(wallet := base - p.entryCommission, position := Some(p), lastEntryTp := p.tp);
      Accounted(c.mode, None, s, Step(st, OpeningEvents(c, s, p, fills, adopted, ts), false), p.tp)
  {
    var base := if c.sizingCapital.Some? then c.sizingCapital.value else s.wallet;
    var st := s.(wallet := base - p.entryCommission, position := Some(p), lastEntryTp := p.tp);
    var reset := if c.sizingCapital.Some? then [WalletResynced(ts, s.wallet, base)] else [];
    var s0 := s.(wallet := base);
    if c.sizingCapital.Some? {
      OneAccounted(c.mode, None, s, reset[0], s0, p.tp);
    } else {
      QuietAccounted(c.mode, None, s, Step(s0, reset, false), p.tp);
    }
    NeutralKeepsLedger(None, reset, p.tp);
    var fill := EntryFilled(ts, p.direction, p.qty, p.entryPrice, p.leverage, p.sl, p.liqPrice, fills, p.entryCommission, adopted);
    var trail := if p.trail.Some? then [TrailSet(ts, p.trail.value.armR, p.trail.value.dist, p.trail.value.r)] else [];
    FillThenTrail(c.mode, s0, fill, trail, st, p.tp);
    AccountedThen(c.mode, None, s, Step(s0, reset, false), Step(st, [fill] + trail, false), p.tp);
    assert OpeningEvents(c, s, p, fills, adopted, ts) == reset + ([fill] + trail);
  }

  lemma FillThenTrail(mode: Mode, s: EngineState, fill: Event, trail: seq<Event>, st: EngineState, tp: Option<real>)
    requires fill.EntryFilled? && fill.qty > 0.0 && st.wallet == s.wallet - fill.entryCommission
    requires trail == [] || (|trail| == 1 && trail[0].TrailSet?)
    requires Shows(mode, if trail == [] then LedgerStep(None, fill, tp) else LedgerStep(LedgerStep(None, fill, tp), trail[0], tp), st.position)
    ensures Accounted(mode, None, s, Step(st, [fill] + trail, false), tp)
  {
    LedgerAppend(None, [fill], trail, tp);
    LedgerOne(None, fill, tp);
    WalletAppend(s.wallet, [fill], trail);
    WalletOne(s.wallet, fill);
    assert [fill][1..] == [];
    if trail != [] {
      assert trail == [trail[0]];
      LedgerOne(LedgerStep(None, fill, tp), trail[0], tp);
      WalletOne(st.wallet, trail[0]);
      assert [trail[0]][1..] == [];
    }
    assert fill in [fill] + trail;
  }

  lemma FillNotesAreQuiet(c: Config, s: EngineState, i: EntryIntent, d: SizingDecision, refMark: real, ts: int, x: EntryScript)
    requires Quoted(c, i, refMark)
    ensures forall e :: e in Fills(c, s, i, d, refMark, ts, x).0.notes ==> Quiet(e)
  {}

  lemma LiveCheckIsQuiet(c: Config, s: EngineState, ts: int, x: EntryScript)
    requires s.position.Some?
    ensures forall e :: e in LiveCheck(c, s, ts, x).events ==> Quiet(e)
  {}

  /** The announcing step of an entry. */
  function Announced(c: Config, p: Position, f: Filled, fills: seq<Fill>, ts: int, x: EntryScript): (a: Step)
    ensures a.st.position == Some(p) && !a.raised
  {
    var base := if c.sizingCapital.Some? then c.sizingCapital.value else f.st.wallet;
    var s1 := f.st.(wallet := base - f.commission, position := Some(p), lastEntryTp := p.tp);
    Announce(c, p, f, fills, LiveCheck(c, s1, ts, x), ts)
  }

  lemma AnnouncedAccounted(c: Config, s: EngineState, p: Position, f: Filled, fills: seq<Fill>, ts: int, x: EntryScript, tp: Option<real>)
    requires s.position.None? && f.st == s.(blocked := f.st.blocked) && tp == p.tp
    requires p.fundingPaid == 0.0 && p.openedMs == ts && (p.trail.Some? ==> !p.trail.value.armed && !p.trail.value.moved)
    requires p.entryCommission == f.commission
    requires forall e :: e in f.notes ==> Quiet(e)
    ensures Accounted(c.mode, None, s, Announced(c, p, f, fills, ts, x), tp)
  {
    var base := if c.sizingCapital.Some? then c.sizingCapital.value else f.st.wallet;
    var s1 := f.st.(wallet := base - f.commission, position := Some(p), lastEntryTp := p.tp);
    LiveCheckIsQuiet(c, s1, ts, x);
    OpenedAccounted(c, s, f, p, fills, LiveCheck(c, s1, ts, x), ts, tp);
  }

  lemma BookEntryIs(c: Config, p: Position, gateOk: bool, f: Filled, fills: seq<Fill>, refMark: real, ts: int, x: EntryScript, gx: ExitScript)
    ensures
      var a := Announced(c, p, f, fills, ts, x);
      BookEntry(c, p, gateOk, f, fills, refMark, ts, x, gx) == if gateOk then a else ThenExit(c, a, PostFillGate, refMark, ts, gx)
  {}

  lemma BookEntryAccounted(c: Config, s: EngineState, p: Position, gateOk: bool, f: Filled, fills: seq<Fill>, refMark: real, ts: int,
                           x: EntryScript, gx: ExitScript, tp: Option<real>)
    requires s.position.None? && f.st == s.(blocked := f.st.blocked) && tp == p.tp
    requires p.fundingPaid == 0.0 && p.openedMs == ts && (p.trail.Some? ==> !p.trail.value.armed && !p.trail.value.moved)
    requires p.entryCommission == f.commission
    requires forall e :: e in f.notes ==> Quiet(e)
    ensures Accounted(c.mode, None, s, BookEntry(c, p, gateOk, f, fills, refMark, ts, x, gx), tp)
  {
    var a := Announced(c, p, f, fills, ts, x);
    var step := BookEntry(c, p, gateOk, f, fills, refMark, ts, x, gx);
    BookEntryIs(c, p, gateOk, f, fills, refMark, ts, x, gx);
    AnnouncedAccounted(c, s, p, f, fills, ts, x, tp);
    if gateOk {
      SameAccounted(c.mode, None, s, a, step, tp);
    } else {
      ThenExitAccounted(c, None, s, a, PostFillGate, refMark, ts, gx, tp);
      SameAccounted(c.mode, None, s, ThenExit(c, a, PostFillGate, refMark, ts, gx), step, tp);
    }
  }

  lemma SameAccounted(mode: Mode, l: Option<LedgerPos>, s: EngineState, a: Step, b: Step, tp: Option<real>)
    requires a.st == b.st && a.events == b.events && Accounted(mode, l, s, a, tp)
    ensures Accounted(mode, l, s, b, tp)
  {}

  lemma ThenExitAccounted(c: Config, l: Option<LedgerPos>, s: EngineState, a: Step, reason: ExitReason, refMark: real, ts: int, x: ExitScript, tp: Option<real>)
    requires !a.raised && a.st.position.Some? && Accounted(c.mode, l, s, a, tp)
    ensures Accounted(c.mode, l, s, ThenExit(c, a, reason, refMark, ts, x), tp)
  {
    ExitAccounted(c, Ledger(l, a.events, tp), a.st, reason, refMark, ts, x, tp);
    AccountedThen(c.mode, l, s, a, DoExit(c, a.st, reason, refMark, ts, x), tp);
  }

  lemma OpenFilledAccounted(c: Config, s: EngineState, i: EntryIntent, d: SizingDecision, lev: Leverage, f: Filled, fills: seq<Fill>,
                            refMark: real, ts: int, x: EntryScript, gx: ExitScript, tp: Option<real>)
    requires s.position.None? && f.st == s.(blocked := f.st.blocked) && (f.qty > 0.0 ==> f.entry > 0.0)
    requires forall e :: e in f.notes ==> Quiet(e)
    requires tp == OpenFilled(c, i, d, lev, f, fills, refMark, ts, x, gx).st.lastEntryTp
    ensures Accounted(c.mode, None, s, OpenFilled(c, i, d, lev, f, fills, refMark, ts, x, gx), tp)
  {
    if f.qty <= 0.0 {
      QuietAccounted(c.mode, None, s, OpenFilled(c, i, d, lev, f, fills, refMark, ts, x, gx), tp);
    } else {
      var post := CheckFill(c, i, d, lev, f.entry, f.qty);
      var p := NewPosition(i, d, lev, f, post.liqPrice, ts);
      BookEntryTp(c, p, post.gateOk, f, fills, refMark, ts, x, gx);
      BookEntryAccounted(c, s, p, post.gateOk, f, fills, refMark, ts, x, gx, tp);
    }
  }

  lemma BookEntryTp(c: Config, p: Position, gateOk: bool, f: Filled, fills: seq<Fill>, refMark: real, ts: int, x: EntryScript, gx: ExitScript)
    ensures BookEntry(c, p, gateOk, f, fills, refMark, ts, x, gx).st.lastEntryTp == p.tp
  {}

  lemma OpenedAccounted(c: Config, s: EngineState, f: Filled, p: Position, fills: seq<Fill>, checked: Step, ts: int, tp: Option<real>)
    requires s.position.None? && f.st == s.(blocked := f.st.blocked) && tp == p.tp
    requires p.fundingPaid == 0.0 && p.openedMs == ts && (p.trail.Some? ==> !p.trail.value.armed && !p.trail.value.moved)
    requires forall e :: e in f.notes ==> Quiet(e)
    requires forall e :: e in checked.events ==> Quiet(e)
    requires
      var base := if c.sizingCapital.Some? then c.sizingCapital.value else s.wallet;
      checked.st.position == Some(p) && checked.st.wallet == base - p.entryCommission
    ensures Accounted(c.mode, None, s, Announce(c, p, f, fills, checked, ts), tp)
  {
    var base := if c.sizingCapital.Some? then c.sizingCapital.value else f.st.wallet;
    var opening := OpeningEvents(c, f.st, p, fills, f.adopted, ts);
    var s1 := f.st.(wallet := base - p.entryCommission, position := Some(p), lastEntryTp := p.tp);
    OpeningAccounted(c, f.st, p, fills, f.adopted, ts);
    assert Accounted(c.mode, None, s, Step(s1, opening, false), tp);
    var notes := f.notes + checked.events;
    AddQuiet(c.mode, None, s, Step(s1, opening, false), checked.st, notes, tp);
    assert opening + notes == opening + f.notes + checked.events;
  }

  lemma OpenAccounted(c: Config, s: EngineState, i: EntryIntent, d: SizingDecision, lev: Leverage, refMark: real, ts: int,
                      x: EntryScript, gx: ExitScript, tp: Option<real>)
    requires s.position.None? && Quoted(c, i, refMark)
    requires tp == OpenPosition(c, s, i, d, lev, refMark, ts, x, gx).st.lastEntryTp
    ensures Accounted(c.mode, None, s, OpenPosition(c, s, i, d, lev, refMark, ts, x, gx), tp)
  {
    var (f, fills) := Fills(c, s, i, d, refMark, ts, x);
    FillNotesAreQuiet(c, s, i, d, refMark, ts, x);
    OpenFilledAccounted(c, s, i, d, lev, f, fills, refMark, ts, x, gx, tp);
  }

  lemma EntryAccounted(c: Config, s: EngineState, refMark: real, ts: int, x: EntryScript, gx: ExitScript, tp: Option<real>)
    requires s.pending.Some? && s.position.None?
    requires tp == ExecuteEntry(c, s, refMark, ts, x, gx).st.lastEntryTp
    ensures Accounted(c.mode, None, s, ExecuteEntry(c, s, refMark, ts, x, gx), tp)
  {
    var i := s.pending.value;
    var s1 := s.(pending := None);
    var step := ExecuteEntry(c, s, refMark, ts, x, gx);
    var quote := Quote(c, SideFor(i.direction, Entry), refMark);
    var sl := EntrySl(i, quote);
    var dec := c.size(quote, sl, i.direction, if c.sizingCapital.Some? then c.sizingCapital.value else s.wallet, i.regime);
    if SlCrossed(i.direction, refMark, sl) || dec.None? || !dec.value.ok || dec.value.leverage.None?
       || (c.mode.Live? && x.echo != Some(dec.value.leverage.value)) {
      if !step.raised { QuietAccounted(c.mode, None, s, step, tp); }
    } else {
      OpenAccounted(c, s1, i, dec.value, dec.value.leverage.value, refMark, ts, x, gx, tp);
    }
  }

  lemma EvaluateAccounted(c: Config, l: Option<LedgerPos>, s: EngineState, ts: int, low: real, high: real, slRef: real, tpRef: real,
                          mark: real, x: ExitScript, tp: Option<real>)
    requires s.position.Some? && Shows(c.mode, l, s.position)
    ensures Accounted(c.mode, l, s, Evaluate(c, s, ts, low, high, slRef, tpRef, mark, x), tp)
  {
    var p := s.position.value;
    var isLong := p.direction.Long?;
    var liqHit := if isLong then low <= p.liqPrice else high >= p.liqPrice;
    if liqHit && c.mode.Paper? {
      LiquidateAccounted(c, l, s, ts, tp);
    } else {
      var alert := if liqHit && !p.liqAlerted
                   then Step(s.(position := Some(p.(liqAlerted := true))), [LiquidationThresholdCrossed(ts, mark, p.liqPrice)], false)
                   else Step(s, [], false);
      QuietAccounted(c.mode, l, s, alert, tp);
      var slHit := if isLong then low <= p.sl else high >= p.sl;
      if slHit {
        var why := if p.trail.Some? && p.trail.value.moved then TrailStop else StopLoss;
        ExitAccounted(c, l, alert.st, why, slRef, ts, x, tp);
        AccountedThen(c.mode, l, s, alert, DoExit(c, alert.st, why, slRef, ts, x), tp);
      } else if p.tp.Some? && (if isLong then high >= p.tp.value else low <= p.tp.value) {
        ExitAccounted(c, l, alert.st, TakeProfit, tpRef, ts, x, tp);
        AccountedThen(c.mode, l, s, alert, DoExit(c, alert.st, TakeProfit, tpRef, ts, x), tp);
      }
    }
  }

  lemma TrailAccounted(mode: Mode, l: Option<LedgerPos>, s: EngineState, ts: int, low: real, high: real, tp: Option<real>)
    requires Shows(mode, l, s.position)
    ensures Accounted(mode, l, s, TrailStep(s, ts, low, high), tp)
  {
    var step := TrailStep(s, ts, low, high);
    if step.events == [] {
      QuietAccounted(mode, l, s, step, tp);
    } else if |step.events| == 1 {
      assert step.events == [step.events[0]];
      OneAccounted(mode, l, s, step.events[0], step.st, tp);
    } else {
      var p := s.position.value;
      var armed := s.(position := Some(p.(trail := Some(p.trail.value.(armed := true)))));
      assert step.events == [step.events[0]] + [step.events[1]];
      OneAccounted(mode, l, s, step.events[0], armed, tp);
      LedgerOne(l, step.events[0], tp);
      OneAccounted(mode, LedgerStep(l, step.events[0], tp), armed, step.events[1], step.st, tp);
      AccountedThen(mode, l, s, Step(armed, [step.events[0]], false), Step(step.st, [step.events[1]], false), tp);
    }
  }

  lemma JudgeAccounted(c: Config, l: Option<LedgerPos>, s: EngineState, ts: int, low: real, high: real, slRef: real, tpRef: real,
                       mark: real, x: ExitScript, tp: Option<real>)
    requires Shows(c.mode, l, s.position)
    ensures Accounted(c.mode, l, s, Judge(c, s, ts, low, high, slRef, tpRef, mark, x), tp)
  {
    if s.position.None? {
      QuietAccounted(c.mode, l, s, Step(s, [], false), tp);
    } else {
      var e := Evaluate(c, s, ts, low, high, slRef, tpRef, mark, x);
      EvaluateAccounted(c, l, s, ts, low, high, slRef, tpRef, mark, x, tp);
      if !e.raised {
        TrailAccounted(c.mode, Ledger(l, e.events, tp), e.st, ts, low, high, tp);
        AccountedThen(c.mode, l, s, e, TrailStep(e.st, ts, low, high), tp);
      }
    }
  }

  lemma FundingOnTickAccounted(c: Config, l: Option<LedgerPos>, s: EngineState, t: MarkTick, tp: Option<real>)
    requires Shows(c.mode, l, s.position)
    ensures !FundingOnTick(c, s, t).raised
    ensures Accounted(c.mode, l, s, FundingOnTick(c, s, t), tp)
  {
    var s0 := s.(restoredFunding := None);
    var step := FundingOnTick(c, s, t);
    if s.position.Some? && s.lastTick.Some? && s.lastTick.value.ts < s.lastTick.value.nextFunding <= t.ts {
      var prev := s.lastTick.value;
      var settled := SettleFunding(c, s0, prev.nextFunding, prev.rate, prev.mark);
      SettleAccounted(c, l, s0, prev.nextFunding, prev.rate, prev.mark, tp);
      assert Accounted(c.mode, l, s, settled, tp);
      var missed := MissedBoundaries(c, prev.nextFunding, t.ts);
      if missed != [] {
        AddQuiet(c.mode, l, s, settled, step.st,
                 [FundingMissed(t.ts, missed, s.position.value.Signed()), EntriesBlocked(t.ts, FundingMissedInGap(|missed|))], tp);
      }
    } else {
      QuietAccounted(c.mode, l, s, step, tp);
    }
  }

  lemma FundingOnTickFrame(c: Config, s: EngineState, t: MarkTick)
    ensures
      var st := FundingOnTick(c, s, t).st;
      && st.lastEntryTp == s.lastEntryTp && st.pending == s.pending && st.lastTick == s.lastTick && st.restoredFunding.None?
      && (st.position.Some? <==> s.position.Some?)
  {}

  /** A pending intent and a position never coexist. */
  predicate OneWay(s: EngineState) {
    s.pending.None? || s.position.None?
  }

  lemma EntryOnTickAccounted(c: Config, l: Option<LedgerPos>, s: EngineState, ts: int, mark: real, x: EntryScript, gx: ExitScript, tp: Option<real>)
    requires OneWay(s) && Shows(c.mode, l, s.position)
    requires tp == EntryOnTick(c, s, ts, mark, x, gx).st.lastEntryTp
    ensures Accounted(c.mode, l, s, EntryOnTick(c, s, ts, mark, x, gx), tp)
  {
    if s.pending.Some? && ts > s.pending.value.decidedMs {
      EntryAccounted(c, s, mark, ts, x, gx, tp);
    } else {
      QuietAccounted(c.mode, l, s, Step(s, [], false), tp);
    }
  }

  /** Main theorem, tick path. */
  lemma OnTickAccounted(c: Config, l: Option<LedgerPos>, s: EngineState, t: MarkTick, x: TickScript)
    requires OneWay(s) && Shows(c.mode, l, s.position)
    ensures var step := OnTick(c, s, t, x);
      Accounted(c.mode, l, s, step, step.st.lastEntryTp)
  {
    hide FundingOnTick, ExecuteEntry, Judge, Shows;
    var tp := OnTick(c, s, t, x).st.lastEntryTp;
    if !GridOk(c, t) {
      QuietAccounted(c.mode, l, s, OnTick(c, s, t, x), tp);
    } else {
      var funded := FundingOnTick(c, s, t);
      FundingOnTickFrame(c, s, t);
      FundingOnTickAccounted(c, l, s, t, tp);
      var s1 := funded.st.(lastTick := Some(t));
      var l1 := Ledger(l, funded.events, tp);
      var entered := EntryOnTick(c, s1, t.ts, t.mark, x.entry, x.gateExit);
      EntryOnTickAccounted(c, l1, s1, t.ts, t.mark, x.entry, x.gateExit, tp);
      if entered.raised {
        AccountedFrom(c.mode, l1, s1, funded.st, entered, tp);
        AccountedThen(c.mode, l, s, funded, entered, tp);
      } else {
        var judged := Judge(c, entered.st, t.ts, t.mark, t.mark, t.mark, t.mark, t.mark, x.exit);
        JudgeAccounted(c, Ledger(l1, entered.events, tp), entered.st, t.ts, t.mark, t.mark, t.mark, t.mark, t.mark, x.exit, tp);
        AccountedThen(c.mode, l1, s1, entered, judged, tp);
        AccountedFrom(c.mode, l1, s1, funded.st, Then(entered, judged), tp);
        AccountedThen(c.mode, l, s, funded, Then(entered, judged), tp);
      }
    }
  }

  /** Only the wallet a call starts from matters to its account. */
  lemma AccountedFrom(mode: Mode, l: Option<LedgerPos>, s: EngineState, s1: EngineState, step: Step, tp: Option<real>)
    requires s.wallet == s1.wallet && Accounted(mode, l, s, step, tp)
    ensures Accounted(mode, l, s1, step, tp)
  {}

  /** Main theorem, bar path. */
  lemma OnBarAccounted(c: Config, l: Option<LedgerPos>, s: EngineState, b: MarkBar, x: TickScript)
    requires OneWay(s) && Shows(c.mode, l, s.position)
    ensures var step := OnBar(c, s, b, x);
      Accounted(c.mode, l, s, step, step.st.lastEntryTp)
  {
    hide ExecuteEntry, Judge, Shows;
    var entered := EntryOnTick(c, s, b.openMs, b.open, x.entry, x.gateExit);
    var tp := entered.st.lastEntryTp;
    EntryOnTickAccounted(c, l, s, b.openMs, b.open, x.entry, x.gateExit, tp);
    if !entered.raised {
      var l1 := Ledger(l, entered.events, tp);
      if entered.st.position.Some? {
        var p := entered.st.position.value;
        var tpRef := if p.tp.Some? then p.tp.value else 0.0;
        JudgeAccounted(c, l1, entered.st, b.closeMs, b.low, b.high, BarSlRef(p, b.open), tpRef, b.close, x.exit, tp);
      } else {
        QuietAccounted(c.mode, l1, entered.st, Step(entered.st, [], false), tp);
      }
      AccountedThen(c.mode, l, s, entered, JudgeBar(c, entered.st, b, x.exit), tp);
    }
  }

  /** Main theorem, the remaining calls: funding, gap liquidation, manual close, vanish, wallet sync, cancel. */
  lemma OtherCallsAccounted(c: Config, l: Option<LedgerPos>, s: EngineState, ts: int, rate: real, mark: real, reason: ExitReason, x: ExitScript)
    requires Shows(c.mode, l, s.position)
    ensures Accounted(c.mode, l, s, OnFunding(c, s, ts, rate, mark), s.lastEntryTp)
    ensures Accounted(c.mode, l, s, LiquidateIfOpenBeyond(c, s, mark, ts), s.lastEntryTp)
    ensures Accounted(c.mode, l, s, CloseNow(c, s, mark, ts, reason, x), s.lastEntryTp)
    ensures c.mode.Live? ==> Accounted(c.mode, l, s, Vanish(s, ts), s.lastEntryTp)
    ensures Accounted(c.mode, l, s, SyncWallet(s, ts, mark), s.lastEntryTp)
    ensures Accounted(c.mode, l, s, CancelPending(s, ts), s.lastEntryTp)
  {
    hide Liquidate, DoExit, SettleFunding;
    var tp := s.lastEntryTp;
    QuietAccounted(c.mode, l, s, Step(s, [], false), tp);
    QuietAccounted(c.mode, l, s, CancelPending(s, ts), tp);
    var sync := SyncWallet(s, ts, mark);
    OneAccounted(c.mode, l, s, sync.events[0], sync.st, tp);
    if s.position.Some? {
      SettleAccounted(c, l, s, ts, rate, mark, tp);
      LiquidateAccounted(c, l, s, ts, tp);
      ExitAccounted(c, l, s, reason, mark, ts, x, tp);
      if c.mode.Live? {
        var p := s.position.value;
        var gone := PositionVanished(ts, p.direction, p.qty, p.entryPrice);
        OneAccounted(c.mode, l, s, gone, s.(position := None), tp);
        AddQuiet(c.mode, l, s, Step(s.(position := None), [gone], false), Vanish(s, ts).st, [EntriesBlocked(ts, Vanished)], tp);
        assert [gone] + [EntriesBlocked(ts, Vanished)] == Vanish(s, ts).events;
      }
    }
  }
}
