/** The durable shadow of the engine: the rows each event writes and how the open position is read back
    (db/record.py). A table is a sequence of rows and a row's id is its index. */
module Rows {
  import opened Types
  import opened EngineTypes
  import opened EngineModel
  import opened Accounting

  // ---------------------------------------------------------------- tables

  datatype PosRow =
    | OpenRow(positionId: nat, ts: int, direction: Direction, qty: real, entryPrice: real, leverage: Option<int>,
              sl: Option<real>, tp: Option<real>, commission: real)
    | CloseRow(root: Option<nat>, ts: int, direction: Direction, qty: real)

  /** `boundaries` are the funding times the row speaks of: its own time if settled, the listed ones if missed. */
  datatype FundRow = FundRow(owner: Option<nat>, ts: int, missed: bool, boundaries: seq<int>, paid: real)

  datatype TrailRow = TrailRow(owner: Option<nat>, event: Event)

  /** An engine snapshot: `arith` tags the arithmetic it was computed with. */
  datatype SnapRow = SnapRow(ts: int, arith: int, wallet: real, state: Option<PosState>)

  datatype Db = Db(positions: seq<PosRow>, fundings: seq<FundRow>, trails: seq<TrailRow>, snaps: seq<SnapRow>)

  const EMPTY_DB := Db([], [], [], [])

  // ---------------------------------------------------------------- queries

  /** A root row is an open row whose position id is its own id. */
  predicate IsRoot(rows: seq<PosRow>, i: nat) {
    i < |rows| && rows[i].OpenRow? && rows[i].positionId == i
  }

  /** The newest open row of a root: the root itself or a synchronisation row. */
  function LastOpen(rows: seq<PosRow>, root: nat): Option<nat>
    decreases |rows|
  {
    if rows == [] then None
    else
      var n := |rows| - 1;
      if rows[n].OpenRow? && rows[n].positionId == root then Some(n) else LastOpen(rows[..n], root)
  }

  function ClosedSum(rows: seq<PosRow>, root: nat): real
    decreases |rows|
  {
    if rows == [] then 0.0
    else
      var n := |rows| - 1;
      ClosedSum(rows[..n], root) + (if rows[n].CloseRow? && rows[n].root == Some(root) then rows[n].qty else 0.0)
  }

  lemma {:induction false} LastOpenInRange(rows: seq<PosRow>, root: nat)
    ensures LastOpen(rows, root).Some? ==>
      var k := LastOpen(rows, root).value; k < |rows| && rows[k].OpenRow? && rows[k].positionId == root
    ensures IsRoot(rows, root) ==> LastOpen(rows, root).Some?
    decreases |rows|
  {
    if rows != [] {
      LastOpenInRange(rows[..|rows| - 1], root);
    }
  }

  function LastOpenRow(rows: seq<PosRow>, root: nat): (row: PosRow)
    requires IsRoot(rows, root)
    ensures row.OpenRow? && row.positionId == root
  {
    LastOpenInRange(rows, root);
    rows[LastOpen(rows, root).value]
  }

  /** `_remaining`: the newest open quantity less everything closed against the root. */
  function Remaining(rows: seq<PosRow>, root: nat): real
    requires IsRoot(rows, root)
  {
    LastOpenRow(rows, root).qty - ClosedSum(rows, root)
  }

  predicate StillOpen(rows: seq<PosRow>, i: nat, d: Option<Direction>) {
    IsRoot(rows, i) && (d.None? || rows[i].direction == d.value) && Remaining(rows, i) > 0.0
  }

  /** The newest root below `bound` that is not fully closed. */
  function FindOpen(rows: seq<PosRow>, bound: nat, d: Option<Direction>): (r: Option<nat>)
    requires bound <= |rows|
    ensures r.Some? ==> r.value < bound && StillOpen(rows, r.value, d) && forall i: nat :: r.value < i < bound ==> !StillOpen(rows, i, d)
    ensures r.None? ==> forall i: nat :: i < bound ==> !StillOpen(rows, i, d)
  {
    if bound == 0 then None
    else if StillOpen(rows, bound - 1, d) then Some(bound - 1)
    else FindOpen(rows, bound - 1, d)
  }

  /** `open_position_id`. */
  function OpenId(rows: seq<PosRow>, d: Option<Direction>): Option<nat> {
    FindOpen(rows, |rows|, d)
  }

  /** The search loop of `open_position_id`: roots newest first, the first one with something left wins. */
  method OpenPositionId(rows: seq<PosRow>, d: Option<Direction>) returns (r: Option<nat>)
    ensures r.Some? ==> StillOpen(rows, r.value, d) && forall i: nat :: r.value < i ==> !StillOpen(rows, i, d)
    ensures r.None? ==> forall i: nat :: !StillOpen(rows, i, d)
    ensures r == OpenId(rows, d)
  {
    var i: nat := |rows|;
    while i > 0
      invariant i <= |rows|
      invariant forall k: nat :: i <= k ==> !StillOpen(rows, k, d)
      invariant FindOpen(rows, i, d) == OpenId(rows, d)
    {
      i := i - 1;
      if StillOpen(rows, i, d) {
        return Some(i);
      }
    }
    return None;
  }

  /** `open_position_state`: direction and remaining quantity of the newest open position. */
  function OpenState(rows: seq<PosRow>): Option<(Direction, real)> {
    match OpenId(rows, None)
    case None => None
    case Some(r) => Some((LastOpenRow(rows, r).direction, Remaining(rows, r)))
  }

  // ---------------------------------------------------------------- row writers

  function AppendPos(db: Db, row: PosRow): Db {
    db.(positions := db.positions + [row])
  }

  function CloseAgainst(db: Db, ts: int, d: Direction, qty: real): Db {
    AppendPos(db, CloseRow(OpenId(db.positions, Some(d)), ts, d, qty))
  }

  /** `_record_event_rows` for one event; `tp` is the take-profit passed with the batch. */
  function WriteEvent(db: Db, e: Event, tp: Option<real>): Db {
    match e
    case EntryFilled(ts, d, qty, entry, lev, sl, _, _, comm, _) =>
      AppendPos(db, OpenRow(|db.positions|, ts, d, qty, entry, Some(lev), Some(sl), tp, comm))
    case PositionClosed(ts, d, _, q, _, _, _, _, _, _, _) => CloseAgainst(db, ts, d, q)
    case PositionReduced(ts, d, _, q, _, _, _, _, _, _, _) => CloseAgainst(db, ts, d, q)
    case PositionVanished(ts, d, q, _) => CloseAgainst(db, ts, d, q)
    case PositionAbandoned(ts, d, q, _) => CloseAgainst(db, ts, d, q)
    case PositionSynced(ts, d, _, q, entry, extra) =>
      var id := OpenId(db.positions, Some(d));
      AppendPos(db, OpenRow(if id.Some? then id.value else |db.positions|, ts, d, q, entry, None, None, None, extra))
    case FundingSettled(ts, _, _, _, paid, _) => db.(fundings := db.fundings + [FundRow(OpenId(db.positions, None), ts, false, [ts], paid)])
    case FundingMissed(ts, bs, _) => db.(fundings := db.fundings + [FundRow(OpenId(db.positions, None), ts, true, bs, 0.0)])
    case TrailSet(_, _, _, _) => db.(trails := db.trails + [TrailRow(OpenId(db.positions, None), e)])
    case TrailArmed(_, _) => db.(trails := db.trails + [TrailRow(OpenId(db.positions, None), e)])
    case StopTrailed(_, _, _) => db.(trails := db.trails + [TrailRow(OpenId(db.positions, None), e)])
    case _ => db
  }

  /** A synchronisation row joins the open root of its direction; where there is none it is a root itself. */
  lemma SyncJoinsOrOpens(db: Db, ts: int, d: Direction, before: real, q: real, entry: real, extra: real, tp: Option<real>)
    ensures
      var n, after := |db.positions|, WriteEvent(db, PositionSynced(ts, d, before, q, entry, extra), tp).positions;
      && |after| == n + 1 && after[..n] == db.positions && after[n].OpenRow? && after[n].qty == q
      && match OpenId(db.positions, Some(d))
         case None => IsRoot(after, n)
         case Some(root) => after[n].positionId == root && IsRoot(db.positions, root) && db.positions[root].direction == d
  {
    hide Remaining;
  }

  function WriteEvents(db: Db, evs: seq<Event>, tp: Option<real>): Db
    decreases |evs|
  {
    if evs == [] then db else WriteEvents(WriteEvent(db, evs[0], tp), evs[1..], tp)
  }

  datatype Batch = Batch(events: seq<Event>, tp: Option<real>, snapshot: Option<SnapRow>)

  /** `record_events`: event rows and the snapshot row in one transaction. */
  function Commit(db: Db, b: Batch): Db {
    var w := WriteEvents(db, b.events, b.tp);
    if b.snapshot.None? then w else w.(snaps := w.snaps + [b.snapshot.value])
  }

  function CommitAll(db: Db, bs: seq<Batch>): Db
    decreases |bs|
  {
    if bs == [] then db else CommitAll(Commit(db, bs[0]), bs[1..])
  }

  // ---------------------------------------------------------------- the rows mirror the ledger

  /** References point backwards, to roots. */
  ghost predicate RowsOk(rows: seq<PosRow>) {
    && (forall i :: 0 <= i < |rows| && rows[i].OpenRow? ==> rows[i].positionId <= i && IsRoot(rows, rows[i].positionId))
    && (forall i :: 0 <= i < |rows| && rows[i].CloseRow? && rows[i].root.Some? ==> rows[i].root.value < i && IsRoot(rows, rows[i].root.value))
  }

  /** The quantity view: only the ledger's position is open, and its rows add up to the ledger's quantity. */
  ghost predicate Mirrors(rows: seq<PosRow>, l: Option<LedgerPos>, root: nat) {
    && RowsOk(rows)
    && (forall i: nat :: IsRoot(rows, i) && (l.None? || i != root) ==> Remaining(rows, i) <= 0.0)
    && (l.Some? ==>
          && IsRoot(rows, root)
          && rows[root].direction == l.value.direction
          && LastOpenRow(rows, root).direction == l.value.direction
          && l.value.qty > 0.0
          && Remaining(rows, root) == l.value.qty
          && ClosedSum(rows, root) == l.value.closedQty)
  }

  lemma MirrorFindsRoot(rows: seq<PosRow>, l: Option<LedgerPos>, root: nat)
    requires Mirrors(rows, l, root)
    ensures l.None? ==> OpenId(rows, None).None? && OpenState(rows).None?
    ensures l.Some? ==> OpenId(rows, None) == Some(root) && OpenId(rows, Some(l.value.direction)) == Some(root)
    ensures l.Some? ==> OpenState(rows) == Some((l.value.direction, l.value.qty))
  {
    if l.Some? {
      assert StillOpen(rows, root, None) && StillOpen(rows, root, Some(l.value.direction));
    }
  }

  /** Appending a row, seen from a root. */
  lemma AppendRow(rows: seq<PosRow>, row: PosRow, root: nat)
    ensures ClosedSum(rows + [row], root)
      == ClosedSum(rows, root) + (if row.CloseRow? && row.root == Some(root) then row.qty else 0.0)
    ensures LastOpen(rows + [row], root)
      == if row.OpenRow? && row.positionId == root then Some(|rows|) else LastOpen(rows, root)
  {
    assert (rows + [row])[..|rows|] == rows;
  }

  lemma {:induction false} UnreferencedRoot(rows: seq<PosRow>, root: nat)
    requires RowsOk(rows) && root >= |rows|
    ensures ClosedSum(rows, root) == 0.0 && LastOpen(rows, root).None?
    decreases |rows|
  {
    if rows != [] {
      var n := |rows| - 1;
      RowsOkPrefix(rows, n);
      UnreferencedRoot(rows[..n], root);
    }
  }

  lemma RowsOkPrefix(rows: seq<PosRow>, n: nat)
    requires RowsOk(rows) && n <= |rows|
    ensures RowsOk(rows[..n])
  {
    var p := rows[..n];
    forall i | 0 <= i < n && p[i].OpenRow? ensures p[i].positionId <= i && IsRoot(p, p[i].positionId) {
      assert p[i] == rows[i];
      assert IsRoot(rows, rows[i].positionId);
    }
    forall i | 0 <= i < n && p[i].CloseRow? && p[i].root.Some? ensures p[i].root.value < i && IsRoot(p, p[i].root.value) {
      assert p[i] == rows[i];
      assert IsRoot(rows, rows[i].root.value);
    }
  }

  /** A row appended for a root keeps the other roots' remaining quantities. */
  lemma OtherRootsKeep(rows: seq<PosRow>, row: PosRow, i: nat)
    requires RowsOk(rows) && IsRoot(rows, i)
    ensures IsRoot(rows + [row], i)
    ensures !(row.OpenRow? && row.positionId == i) ==> LastOpenRow(rows + [row], i) == LastOpenRow(rows, i)
    ensures !(row.OpenRow? && row.positionId == i) && !(row.CloseRow? && row.root == Some(i)) ==>
      Remaining(rows + [row], i) == Remaining(rows, i)
  {
    AppendRow(rows, row, i);
    LastOpenInRange(rows, i);
    LastOpenInRange(rows + [row], i);
  }

  lemma RowsOkAppend(rows: seq<PosRow>, row: PosRow)
    requires RowsOk(rows)
    requires row.OpenRow? ==> row.positionId == |rows| || IsRoot(rows, row.positionId)
    requires row.CloseRow? && row.root.Some? ==> IsRoot(rows, row.root.value)
    ensures RowsOk(rows + [row])
  {
    var all := rows + [row];
    forall i | 0 <= i < |all| && all[i].OpenRow? ensures all[i].positionId <= i && IsRoot(all, all[i].positionId) {
      if i < |rows| { assert IsRoot(rows, rows[i].positionId); }
    }
    forall i | 0 <= i < |all| && all[i].CloseRow? && all[i].root.Some? ensures all[i].root.value < i && IsRoot(all, all[i].root.value) {
      if i < |rows| { assert IsRoot(rows, rows[i].root.value); }
    }
  }

  // ---------------------------------------------------------------- one event

  function NextRoot(root: nat, rows: seq<PosRow>, e: Event): nat {
    if e.EntryFilled? then |rows| else root
  }

  /** A synchronisation is clean when nothing of the position has been closed yet. */
  predicate SyncClean(l: Option<LedgerPos>, e: Event) {
    e.PositionSynced? && l.Some? ==> l.value.closedQty == 0.0
  }

  lemma OpenMirrors(rows: seq<PosRow>, root: nat, row: PosRow, l: LedgerPos)
    requires Mirrors(rows, None, root)
    requires row.OpenRow? && row.positionId == |rows| && row.direction == l.direction && row.qty == l.qty && l.qty > 0.0 && l.closedQty == 0.0
    ensures Mirrors(rows + [row], Some(l), |rows|)
  {
    var all := rows + [row];
    RowsOkAppend(rows, row);
    AppendRow(rows, row, |rows|);
    UnreferencedRoot(rows, |rows|);
    forall i: nat | IsRoot(all, i) && i != |rows| ensures Remaining(all, i) <= 0.0 {
      assert IsRoot(rows, i);
      OtherRootsKeep(rows, row, i);
    }
  }

  lemma CloseMirrors(rows: seq<PosRow>, l: LedgerPos, root: nat, ts: int, q: real)
    requires Mirrors(rows, Some(l), root)
    ensures Mirrors(rows + [CloseRow(Some(root), ts, l.direction, q)], Shrink(Some(l), q), root)
  {
    var row := CloseRow(Some(root), ts, l.direction, q);
    var all := rows + [row];
    RowsOkAppend(rows, row);
    AppendRow(rows, row, root);
    OtherRootsKeep(rows, row, root);
    forall i: nat | IsRoot(all, i) && i != root ensures Remaining(all, i) <= 0.0 {
      assert IsRoot(rows, i);
      OtherRootsKeep(rows, row, i);
    }
  }

  /** After a synchronisation row the rows say `qty` less what was closed before it. They agree with the engine
      exactly when nothing had been closed, because the sum of closes is never reset. */
  lemma SyncMirrorsIff(rows: seq<PosRow>, l: LedgerPos, root: nat, row: PosRow)
    requires Mirrors(rows, Some(l), root)
    requires row.OpenRow? && row.positionId == root && row.direction == l.direction && row.qty > 0.0
    ensures
      var all := rows + [row];
      && IsRoot(all, root)
      && Remaining(all, root) == row.qty - l.closedQty
      && (OpenState(all) == Some((l.direction, row.qty)) <==> l.closedQty == 0.0)
      && (l.closedQty == 0.0 ==> Mirrors(all, Some(l.(qty := row.qty)), root))
  {
    var all := rows + [row];
    RowsOkAppend(rows, row);
    AppendRow(rows, row, root);
    OtherRootsKeep(rows, row, root);
    forall i: nat | IsRoot(all, i) && i != root ensures Remaining(all, i) <= 0.0 {
      assert IsRoot(rows, i);
      OtherRootsKeep(rows, row, i);
    }
    if l.closedQty == 0.0 {
      MirrorFindsRoot(all, Some(l.(qty := row.qty)), root);
    } else if OpenId(all, None).Some? {
      assert OpenId(all, None).value == root;
    }
  }

  lemma EventMirrors(db: Db, l: Option<LedgerPos>, root: nat, e: Event, tp: Option<real>)
    requires Mirrors(db.positions, l, root) && Fits(l, e) && SyncClean(l, e)
    ensures Mirrors(WriteEvent(db, e, tp).positions, LedgerStep(l, e, tp), NextRoot(root, db.positions, e))
  {
    var rows := db.positions;
    MirrorFindsRoot(rows, l, root);
    match e
    case EntryFilled(ts, d, qty, entry, lev, sl, _, _, comm, _) =>
      OpenMirrors(rows, root, OpenRow(|rows|, ts, d, qty, entry, Some(lev), Some(sl), tp, comm), LedgerStep(l, e, tp).value);
    case PositionClosed(ts, d, _, q, _, _, _, _, _, _, _) => CloseMirrors(rows, l.value, root, ts, q);
    case PositionReduced(ts, d, _, q, _, _, _, _, _, _, _) => CloseMirrors(rows, l.value, root, ts, q);
    case PositionVanished(ts, d, q, _) => CloseMirrors(rows, l.value, root, ts, q);
    case PositionAbandoned(ts, d, q, _) => CloseMirrors(rows, l.value, root, ts, q);
    case PositionSynced(ts, d, _, q, entry, extra) =>
      SyncMirrorsIff(rows, l.value, root, OpenRow(root, ts, d, q, entry, None, None, None, extra));
    case _ =>
  }

  // ---------------------------------------------------------------- batches and runs

  /** No synchronisation follows an earlier close of the same position. */
  predicate SyncsClean(l: Option<LedgerPos>, evs: seq<Event>, tp: Option<real>)
    decreases |evs|
  {
    evs == [] || (SyncClean(l, evs[0]) && SyncsClean(LedgerStep(l, evs[0], tp), evs[1..], tp))
  }

  function RootAfter(db: Db, root: nat, evs: seq<Event>, tp: Option<real>): nat
    decreases |evs|
  {
    if evs == [] then root
    else RootAfter(WriteEvent(db, evs[0], tp), NextRoot(root, db.positions, evs[0]), evs[1..], tp)
  }

  lemma {:induction false} EventsMirror(db: Db, l: Option<LedgerPos>, root: nat, evs: seq<Event>, tp: Option<real>)
    requires Mirrors(db.positions, l, root) && AllFit(l, evs, tp) && SyncsClean(l, evs, tp)
    ensures Mirrors(WriteEvents(db, evs, tp).positions, Ledger(l, evs, tp), RootAfter(db, root, evs, tp))
    decreases |evs|
  {
    if evs != [] {
      EventMirrors(db, l, root, evs[0], tp);
      EventsMirror(WriteEvent(db, evs[0], tp), LedgerStep(l, evs[0], tp), NextRoot(root, db.positions, evs[0]), evs[1..], tp);
    }
  }
}
