/** Restarting a PAPER bot: rebuild the position from the rows, compare it field by field with the last engine
    snapshot, and decide (ops/restore.py). */
module Restore {
  import opened Types
  import opened EngineTypes
  import opened EngineModel
  import opened Accounting
  import opened Rows

  // ---------------------------------------------------------------- the position read back from rows

  function CommissionSum(rows: seq<PosRow>, root: nat): real
    decreases |rows|
  {
    if rows == [] then 0.0
    else
      var n := |rows| - 1;
      CommissionSum(rows[..n], root) + (if rows[n].OpenRow? && rows[n].positionId == root then rows[n].commission else 0.0)
  }

  /** Settled funding owned by the root; old rows without an owner count from the entry time on. */
  function FundingSum(rows: seq<FundRow>, root: nat, rootTs: int): real
    decreases |rows|
  {
    if rows == [] then 0.0
    else
      var r := rows[|rows| - 1];
      var mine := !r.missed && (r.owner == Some(root) || (r.owner.None? && r.ts >= rootTs));
      FundingSum(rows[..|rows| - 1], root, rootTs) + (if mine then r.paid else 0.0)
  }

  /** `_db_trail`: trail state and effective stop, folded over the root's trail rows in id order. */
  function TrailOf(rows: seq<TrailRow>, root: nat, sl: Option<real>): (Option<TrailState>, Option<real>)
    decreases |rows|
  {
    if rows == [] then (None, sl)
    else
      var (t, stop) := TrailOf(rows[..|rows| - 1], root, sl);
      var r := rows[|rows| - 1];
      if r.owner != Some(root) then (t, stop)
      else
        match r.event
        case TrailSet(_, armR, dist, rr) => (Some(TrailState(armR, dist, rr, false, false)), stop)
        case TrailArmed(_, _) => (if t.None? then t else Some(t.value.(armed := true)), stop)
        case StopTrailed(_, _, newSl) => if t.None? then (t, stop) else (Some(t.value.(armed := true, moved := true)), Some(newSl))
        case _ => (t, stop)
  }

  datatype DbPosition = DbPosition(
    root: nat, openedMs: int, direction: Direction, qty: real, entryPrice: real, leverage: Option<int>, sl: Option<real>,
    tp: Option<real>, fundingPaid: real, entryCommission: real, trail: Option<TrailState>)

  /** `_db_open_position`. */
  function DbOpenPosition(db: Db): Option<DbPosition> {
    match OpenId(db.positions, None)
    case None => None
    case Some(root) =>
      var rows := db.positions;
      var open := LastOpenRow(rows, root);
      var (trail, sl) := TrailOf(db.trails, root, open.sl);
      LastOpenInRange(rows, root);
      Some(DbPosition(root, rows[root].ts, open.direction, Remaining(rows, root), open.entryPrice, open.leverage, sl, open.tp,
                      FundingSum(db.fundings, root, rows[root].ts), CommissionSum(rows, root), trail))
  }

  // ---------------------------------------------------------------- the decision

  datatype Decision =
    | NoPosition
    | DoRestore(state: PosState)
    | Mismatch(db: Option<DbPosition>, snap: Option<PosState>)

  /** Every compared field agrees, the snapshot is not older than the entry, and it was computed with the
      current arithmetic. */
  predicate SnapshotMatches(d: DbPosition, snap: SnapRow, arith: int) {
    && snap.state.Some?
    && var p := snap.state.value.position;
    && snap.arith == arith
    && snap.ts >= d.openedMs
    && p.direction == d.direction
    && Some(p.leverage as int) == d.leverage
    && p.openedMs == d.openedMs
    && p.qty == d.qty
    && p.entryPrice == d.entryPrice
    && Some(p.sl) == d.sl
    && p.tp == d.tp
    && p.fundingPaid == d.fundingPaid
    && p.entryCommission == d.entryCommission
    && p.trail == d.trail
    && snap.state.value.nextFunding.Some?
  }

  function LastSnap(db: Db): Option<SnapRow> {
    if db.snaps == [] then None else Some(db.snaps[|db.snaps| - 1])
  }

  function SnapState(db: Db): Option<PosState> {
    if LastSnap(db).None? then None else LastSnap(db).value.state
  }

  /** `decide_paper_restore`. */
  function Decide(db: Db, arith: int): Decision {
    var d := DbOpenPosition(db);
    var snap := SnapState(db);
    if d.None? && snap.None? then NoPosition
    else if d.None? || snap.None? then Mismatch(d, snap)
    else if SnapshotMatches(d.value, LastSnap(db).value, arith) then DoRestore(snap.value)
    else Mismatch(d, snap)
  }

  /** A settled row without an owner, as older versions wrote it, counts from the entry's own time on. */
  lemma OwnerlessRowCounts(rows: seq<FundRow>, root: nat, rootTs: int, ts: int, paid: real)
    ensures FundingSum(rows + [FundRow(None, ts, false, [ts], paid)], root, rootTs)
         == FundingSum(rows, root, rootTs) + (if ts < rootTs then 0.0 else paid)
  {
    var row := FundRow(None, ts, false, [ts], paid);
    assert (rows + [row])[..|rows|] == rows;
  }

  /** The record the rows hold of a position they mirror. */
  function RecordOf(root: nat, p: Position): DbPosition {
    DbPosition(root, p.openedMs, p.direction, p.qty, p.entryPrice, Some(p.leverage), Some(p.sl), p.tp, p.fundingPaid,
               p.entryCommission, p.trail)
  }

  /** On any database whatever, a position is restored only if the last snapshot holds exactly the record the rows give, with
      a next boundary, this arithmetic, and a stamp not before the entry. */
  lemma DecideIff(db: Db, arith: int)
    ensures
      var d, snap := DbOpenPosition(db), SnapState(db);
      && (Decide(db, arith).NoPosition? <==> d.None? && snap.None?)
      && (Decide(db, arith).DoRestore? <==>
            && d.Some? && snap.Some? && d.value == RecordOf(d.value.root, snap.value.position) && snap.value.nextFunding.Some?
            && LastSnap(db).value.arith == arith && LastSnap(db).value.ts >= d.value.openedMs)
      && (Decide(db, arith).DoRestore? ==> Decide(db, arith).state == snap.value)
  {
    hide DbOpenPosition;
  }

  // ---------------------------------------------------------------- the rows mirror every recorded field

  ghost predicate OwnersOk(db: Db) {
    && (forall i :: 0 <= i < |db.fundings| && db.fundings[i].owner.Some? ==> db.fundings[i].owner.value < |db.positions|)
    && (forall i :: 0 <= i < |db.fundings| && !db.fundings[i].missed ==> db.fundings[i].owner.Some?)
    && (forall i :: 0 <= i < |db.trails| && db.trails[i].owner.Some? ==> db.trails[i].owner.value < |db.positions|)
  }

  /** The full view, PAPER only: the open root carries exactly the ledger's fields. */
  ghost predicate FullyMirrors(db: Db, l: Option<LedgerPos>, root: nat) {
    && Mirrors(db.positions, l, root)
    && OwnersOk(db)
    && (l.Some? ==>
          var r := db.positions[root];
          && LastOpen(db.positions, root) == Some(root)
          && r.ts == l.value.openedMs
          && r.entryPrice == l.value.entryPrice
          && r.leverage == Some(l.value.leverage)
          && r.tp == l.value.tp
          && CommissionSum(db.positions, root) == l.value.entryCommission
          && FundingSum(db.fundings, root, r.ts) == l.value.fundingPaid
          && TrailOf(db.trails, root, r.sl) == (l.value.trail, Some(l.value.sl)))
  }

  /** What `DbOpenPosition` reads is the ledger. */
  lemma ReadBack(db: Db, l: Option<LedgerPos>, root: nat)
    requires FullyMirrors(db, l, root)
    ensures DbOpenPosition(db).None? <==> l.None?
    ensures l.Some? ==>
      var v := l.value;
      DbOpenPosition(db) == Some(DbPosition(root, v.openedMs, v.direction, v.qty, v.entryPrice, Some(v.leverage), Some(v.sl), v.tp,
                                            v.fundingPaid, v.entryCommission, v.trail))
  {
    MirrorFindsRoot(db.positions, l, root);
  }

  lemma AppendSums(rows: seq<PosRow>, row: PosRow, root: nat)
    ensures CommissionSum(rows + [row], root)
      == CommissionSum(rows, root) + (if row.OpenRow? && row.positionId == root then row.commission else 0.0)
  {
    assert (rows + [row])[..|rows|] == rows;
  }

  lemma {:induction false} FreshRootSums(db: Db, root: nat, ts: int, sl: Option<real>)
    requires RowsOk(db.positions) && OwnersOk(db) && root >= |db.positions|
    ensures CommissionSum(db.positions, root) == 0.0
    ensures FundingSum(db.fundings, root, ts) == 0.0
    ensures TrailOf(db.trails, root, sl) == (None, sl)
  {
    FreshCommission(db.positions, root);
    FreshFunding(db.fundings, |db.positions|, root, ts);
    FreshTrail(db.trails, |db.positions|, root, sl);
  }

  lemma {:induction false} FreshCommission(rows: seq<PosRow>, root: nat)
    requires RowsOk(rows) && root >= |rows|
    ensures CommissionSum(rows, root) == 0.0
    decreases |rows|
  {
    if rows != [] {
      RowsOkPrefix(rows, |rows| - 1);
      FreshCommission(rows[..|rows| - 1], root);
    }
  }

  lemma {:induction false} FreshFunding(rows: seq<FundRow>, n: nat, root: nat, ts: int)
    requires n <= root
    requires forall i :: 0 <= i < |rows| && rows[i].owner.Some? ==> rows[i].owner.value < n
    requires forall i :: 0 <= i < |rows| && !rows[i].missed ==> rows[i].owner.Some?
    ensures FundingSum(rows, root, ts) == 0.0
    decreases |rows|
  {
    if rows != [] {
      FreshFunding(rows[..|rows| - 1], n, root, ts);
    }
  }

  lemma {:induction false} FreshTrail(rows: seq<TrailRow>, n: nat, root: nat, sl: Option<real>)
    requires n <= root
    requires forall i :: 0 <= i < |rows| && rows[i].owner.Some? ==> rows[i].owner.value < n
    ensures TrailOf(rows, root, sl) == (None, sl)
    decreases |rows|
  {
    if rows != [] {
      FreshTrail(rows[..|rows| - 1], n, root, sl);
    }
  }

  // ---------------------------------------------------------------- one event keeps the full view

  lemma EntryFullyMirrors(db: Db, root: nat, e: Event, tp: Option<real>)
    requires FullyMirrors(db, None, root) && Fits(None, e) && e.EntryFilled?
    ensures FullyMirrors(WriteEvent(db, e, tp), LedgerStep(None, e, tp), |db.positions|)
  {
    var rows, n := db.positions, |db.positions|;
    var row := OpenRow(n, e.ts, e.direction, e.qty, e.entryPrice, Some(e.leverage as int), Some(e.sl), tp, e.entryCommission);
    EventMirrors(db, None, root, e, tp);
    assert WriteEvent(db, e, tp).positions == rows + [row];
    AppendRow(rows, row, n);
    AppendSums(rows, row, n);
    FreshRootSums(db, n, e.ts, Some(e.sl));
  }

  lemma CloseFullyMirrors(db: Db, l: LedgerPos, root: nat, ts: int, q: real)
    requires FullyMirrors(db, Some(l), root)
    ensures FullyMirrors(CloseAgainst(db, ts, l.direction, q), Shrink(Some(l), q), root)
  {
    var rows := db.positions;
    var row := CloseRow(Some(root), ts, l.direction, q);
    MirrorFindsRoot(rows, Some(l), root);
    CloseMirrors(rows, l, root, ts, q);
    AppendRow(rows, row, root);
    AppendSums(rows, row, root);
    assert CloseAgainst(db, ts, l.direction, q).positions == rows + [row];
  }

  lemma FundingFullyMirrors(db: Db, l: Option<LedgerPos>, root: nat, ts: int, missed: bool, bs: seq<int>, paid: real)
    requires FullyMirrors(db, l, root) && (missed ==> paid == 0.0) && (!missed ==> l.Some?)
    ensures
      var row := FundRow(OpenId(db.positions, None), ts, missed, bs, paid);
      FullyMirrors(db.(fundings := db.fundings + [row]),
                   if l.None? then None else Some(l.value.(fundingPaid := l.value.fundingPaid + paid)), root)
  {
    MirrorFindsRoot(db.positions, l, root);
    var row := FundRow(OpenId(db.positions, None), ts, missed, bs, paid);
    assert (db.fundings + [row])[..|db.fundings|] == db.fundings;
  }

  lemma TrailFullyMirrors(db: Db, l: LedgerPos, root: nat, e: Event, tp: Option<real>)
    requires FullyMirrors(db, Some(l), root) && (e.TrailSet? || e.TrailArmed? || e.StopTrailed?)
    ensures FullyMirrors(WriteEvent(db, e, tp), LedgerStep(Some(l), e, tp), root)
  {
    MirrorFindsRoot(db.positions, Some(l), root);
    var row := TrailRow(Some(root), e);
    assert WriteEvent(db, e, tp) == db.(trails := db.trails + [row]);
    assert (db.trails + [row])[..|db.trails|] == db.trails;
  }

  lemma EventFullyMirrors(db: Db, l: Option<LedgerPos>, root: nat, e: Event, tp: Option<real>)
    requires FullyMirrors(db, l, root) && Fits(l, e) && !e.PositionSynced?
    ensures FullyMirrors(WriteEvent(db, e, tp), LedgerStep(l, e, tp), NextRoot(root, db.positions, e))
  {
    match e
    case EntryFilled(_, _, _, _, _, _, _, _, _, _) => EntryFullyMirrors(db, root, e, tp);
    case PositionClosed(ts, _, _, q, _, _, _, _, _, _, _) => CloseFullyMirrors(db, l.value, root, ts, q);
    case PositionReduced(ts, _, _, q, _, _, _, _, _, _, _) => CloseFullyMirrors(db, l.value, root, ts, q);
    case PositionVanished(ts, _, q, _) => CloseFullyMirrors(db, l.value, root, ts, q);
    case PositionAbandoned(ts, _, q, _) => CloseFullyMirrors(db, l.value, root, ts, q);
    case FundingSettled(ts, _, _, _, paid, _) => FundingFullyMirrors(db, l, root, ts, false, [ts], paid);
    case FundingMissed(ts, bs, _) => FundingFullyMirrors(db, l, root, ts, true, bs, 0.0);
    case TrailSet(_, _, _, _) => TrailFullyMirrors(db, l.value, root, e, tp);
    case TrailArmed(_, _) => TrailFullyMirrors(db, l.value, root, e, tp);
    case StopTrailed(_, _, _) => TrailFullyMirrors(db, l.value, root, e, tp);
    case _ =>
  }

  lemma {:induction false} EventsFullyMirror(db: Db, l: Option<LedgerPos>, root: nat, evs: seq<Event>, tp: Option<real>)
    requires FullyMirrors(db, l, root) && AllFit(l, evs, tp) && forall e :: e in evs ==> !e.PositionSynced?
    ensures FullyMirrors(WriteEvents(db, evs, tp), Ledger(l, evs, tp), RootAfter(db, root, evs, tp))
    decreases |evs|
  {
    if evs != [] {
      assert evs[0] in evs;
      EventFullyMirrors(db, l, root, evs[0], tp);
      EventsFullyMirror(WriteEvent(db, evs[0], tp), LedgerStep(l, evs[0], tp), NextRoot(root, db.positions, evs[0]), evs[1..], tp);
    }
  }

  // ---------------------------------------------------------------- when the decision is a mismatch

  /** The last snapshot shows the ledger's position. */
  ghost predicate SnapShows(db: Db, l: Option<LedgerPos>) {
    && (SnapState(db).None? <==> l.None?)
    && (l.Some? ==> Shows(Paper, l, Some(SnapState(db).value.position)) && SnapState(db).value.nextFunding.Some?)
  }

  /** The ledger with funding added that no row tells. */
  function Plus(l: Option<LedgerPos>, unsaid: real): Option<LedgerPos> {
    if l.None? then None else Some(l.value.(fundingPaid := l.value.fundingPaid + unsaid))
  }

  /** When the rows show the ledger and the snapshot shows it with `unsaid` funding more, the decision restores that
      position, unless something is unsaid, or the snapshot is stamped before the entry, or it was computed with another
      arithmetic: exactly then it is a mismatch. */
  lemma DecisionIff(db: Db, l: Option<LedgerPos>, root: nat, arith: int, unsaid: real)
    requires FullyMirrors(db, l, root) && SnapShows(db, Plus(l, unsaid))
    ensures l.None? <==> Decide(db, arith).NoPosition?
    ensures Decide(db, arith).Mismatch? <==>
      l.Some? && (unsaid != 0.0 || LastSnap(db).value.ts < l.value.openedMs || LastSnap(db).value.arith != arith)
    ensures Decide(db, arith).DoRestore? ==> Decide(db, arith).state == SnapState(db).value
  {
    ReadBack(db, l, root);
  }
}
