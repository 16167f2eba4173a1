module Shards {
  // The bounded-queue recorder (data/shards.py): receivers put rows without blocking, one writer thread turns them
  // into shard files, and the shutdown record says whether anything was lost. Every interleaving of puts, events,
  // writer turns and the stop is a sequence of steps here.

  import opened Types

  datatype Row = Row(ts: int, data: int)

  /** `None` is a kind no writer knows. */
  datatype Item = RowItem(kind: Option<Kind>, row: Row) | EventItem | StopItem

  /** Directory of the day and the kind; name from the first row's time of day, and a suffix if that is taken. */
  datatype Path = Path(day: int, kind: Kind, stamp: int, n: nat)

  datatype Shard = Shard(path: Path, rows: seq<Row>)

  /** One writer: rows in memory, shards written so far, and whether the last flush failed. `sent` and `lost` are
      history: all rows ever put, and whether a roll in mid-run threw rows away. */
  datatype Lane = Lane(buffer: seq<Row>, shards: seq<Shard>, flushFailed: bool, sent: seq<Row>, lost: bool)

  datatype State = State(
    queue: seq<Item>, capacity: nat, update: Lane, close: Lane, mark: Lane, disk: map<Path, seq<Row>>,
    dropped: nat, fatal: bool, stopping: bool, done: bool)
  {
    function Lane(k: Kind): Lane {
      match k case KlineUpdate => update case KlineClose => close case MarkPrice => mark
    }

    function With(k: Kind, l: Lane): State {
      match k case KlineUpdate => this.(update := l) case KlineClose => this.(close := l) case MarkPrice => this.(mark := l)
    }
  }

  // ---------------------------------------------------------------- one shard

  function FirstPath(kind: Kind, rows: seq<Row>, n: nat): Path
    requires rows != []
  {
    Path(rows[0].ts / DAY_MS, kind, rows[0].ts % DAY_MS, n)
  }

  /** The rename would replace an existing file silently, so that a free suffix is looked for first. */
  method FreePath(disk: map<Path, seq<Row>>, kind: Kind, rows: seq<Row>) returns (p: Path)
    requires rows != []
    ensures p == FreeFrom(disk.Keys, kind, rows, 0)
  {
    var n := 0;
    ghost var left := disk.Keys;
    while FirstPath(kind, rows, n) in disk
      invariant forall m: nat :: n <= m && FirstPath(kind, rows, m) in disk ==> FirstPath(kind, rows, m) in left
      invariant left <= disk.Keys && FreeFrom(left, kind, rows, n) == FreeFrom(disk.Keys, kind, rows, 0)
      decreases |left|
    {
      left := left - {FirstPath(kind, rows, n)};
      n := n + 1;
    }
    p := FirstPath(kind, rows, n);
  }

  /** The first free name from suffix `n` on. */
  function FreeFrom(taken: set<Path>, kind: Kind, rows: seq<Row>, n: nat): (p: Path)
    requires rows != []
    decreases |taken|
  {
    if FirstPath(kind, rows, n) in taken then FreeFrom(taken - {FirstPath(kind, rows, n)}, kind, rows, n + 1)
    else FirstPath(kind, rows, n)
  }

  lemma {:induction false} FreeIsFree(taken: set<Path>, kind: Kind, rows: seq<Row>, n: nat)
    requires rows != []
    ensures FreeFrom(taken, kind, rows, n) !in taken && FreeFrom(taken, kind, rows, n).n >= n
    ensures var p := FreeFrom(taken, kind, rows, n);
      p.kind == kind && p.day * DAY_MS + p.stamp == rows[0].ts && 0 <= p.stamp < DAY_MS
    decreases |taken|
  {
    if FirstPath(kind, rows, n) in taken {
      FreeIsFree(taken - {FirstPath(kind, rows, n)}, kind, rows, n + 1);
    }
  }

  /** A lane after its buffer became a shard. */
  function Rolled(l: Lane, p: Path): Lane {
    l.(buffer := [], shards := l.shards + [Shard(p, l.buffer)])
  }

  /** `roll`: write the buffer as a new file. */
  function Roll(s: State, k: Kind): State {
    var l := s.Lane(k);
    if l.buffer == [] then s
    else
      var p := FreeFrom(s.disk.Keys, k, l.buffer, 0);
      s.With(k, Rolled(l, p)).(disk := s.disk[p := l.buffer])
  }

  // ---------------------------------------------------------------- the steps

  /** A roll fails before its file is in place, or after the rename, when the rows are safe already. */
  datatype RollOutcome = NotDue | Written | FailsBefore | FailsAfter

  datatype Step =
    | Put(kind: Option<Kind>, row: Row)
    | Event
    | BeginStop(queued: bool)
    | Turn(rolls: Kind -> RollOutcome)

  function Enqueue(s: State, i: Item): State {
    if |s.queue| < s.capacity then s.(queue := s.queue + [i])
    else if i.RowItem? then s.(dropped := s.dropped + 1) else s
  }

  /** The row enters the account of what was put. */
  function Noted(s: State, kind: Option<Kind>, row: Row): (t: State)
    ensures t == s.(update := t.update, close := t.close, mark := t.mark)
    ensures SameKept(s.update, t.update) && SameKept(s.close, t.close) && SameKept(s.mark, t.mark)
  {
    match kind
    case None => s
    case Some(KlineUpdate) => s.(update := s.update.(sent := s.update.sent + [row]))
    case Some(KlineClose) => s.(close := s.close.(sent := s.close.sent + [row]))
    case Some(MarkPrice) => s.(mark := s.mark.(sent := s.mark.sent + [row]))
  }

  function PutRow(s: State, kind: Option<Kind>, row: Row): State {
    Enqueue(Noted(s, kind, row), RowItem(kind, row))
  }

  /** Hand one queued item to its writer; an unknown kind is remembered, the thread goes on. */
  function Dispatch(s: State, i: Item): (t: State)
    ensures t == s.(update := t.update, close := t.close, mark := t.mark, fatal := t.fatal)
    ensures t.update.shards == s.update.shards && t.close.shards == s.close.shards && t.mark.shards == s.mark.shards
  {
    match i
    case RowItem(Some(k), row) => s.With(k, s.Lane(k).(buffer := s.Lane(k).buffer + [row]))
    case RowItem(None, _) => s.(fatal := true)
    case EventItem => s
    case StopItem => s
  }

  /** A failure while running clears the buffer; the shutdown record does not hear of it. */
  function RollIfDue(s: State, k: Kind, r: RollOutcome): State {
    if s.Lane(k).buffer == [] then s
    else
      match r
      case NotDue => s
      case Written => Roll(s, k)
      case FailsBefore => s.With(k, s.Lane(k).(buffer := [], lost := true))
      case FailsAfter => Roll(s, k)
  }

  /** The last flush tries each writer and remembers the ones that failed; those keep their rows in memory. */
  function FinalFlush(s: State, k: Kind, r: RollOutcome): State {
    if s.Lane(k).buffer == [] then s
    else
      match r
      case FailsBefore => s.With(k, s.Lane(k).(flushFailed := true))
      case FailsAfter =>
        var t := Roll(s, k);
        t.With(k, t.Lane(k).(buffer := s.Lane(k).buffer, flushFailed := true))
      case _ => Roll(s, k)
  }

  /** The state after the next item, if there is one, was handed to its writer. */
  function Handed(s: State): State {
    if s.queue == [] then s else Dispatch(s.(queue := s.queue[1..]), s.queue[0])
  }

  predicate Stops(s: State) {
    s.queue != [] && s.queue[0].StopItem?
  }

  function WriterTurn(s: State, rolls: Kind -> RollOutcome): State {
    if s.done then s
    else if Stops(s) then
      var s1 := FinalFlush(s.(queue := s.queue[1..], done := true), KlineUpdate, rolls(KlineUpdate));
      FinalFlush(FinalFlush(s1, KlineClose, rolls(KlineClose)), MarkPrice, rolls(MarkPrice))
    else
      var s1 := RollIfDue(Handed(s), KlineUpdate, rolls(KlineUpdate));
      RollIfDue(RollIfDue(s1, KlineClose, rolls(KlineClose)), MarkPrice, rolls(MarkPrice))
  }

  function Take(s: State, i: Step): State {
    match i
    case Put(kind, row) => PutRow(s, kind, row)
    case Event => Enqueue(s, EventItem)
    case BeginStop(queued) => if queued then s.(queue := s.queue + [StopItem], stopping := true) else s.(stopping := true)
    case Turn(rolls) => WriterTurn(s, rolls)
  }

  /** Nothing is put once the stop has begun, and it begins once. A blocking put of the stop finds room or gives up. */
  predicate Allowed(s: State, i: Step) {
    match i
    case Put(_, _) => !s.stopping
    case Event => !s.stopping
    case BeginStop(queued) => !s.stopping && (queued ==> |s.queue| < s.capacity)
    case Turn(_) => true
  }

  function Run(s: State, steps: seq<Step>): State
    decreases |steps|
  {
    if steps == [] then s else Take(Run(s, steps[..|steps| - 1]), steps[|steps| - 1])
  }

  predicate RunOk(s: State, steps: seq<Step>)
    decreases |steps|
  {
    steps == [] || (RunOk(s, steps[..|steps| - 1]) && Allowed(Run(s, steps[..|steps| - 1]), steps[|steps| - 1]))
  }

  const EMPTY_LANE := Lane([], [], false, [], false)

  function Start(capacity: nat, disk: map<Path, seq<Row>>): State {
    State([], capacity, EMPTY_LANE, EMPTY_LANE, EMPTY_LANE, disk, 0, false, false, false)
  }

  datatype Verdict = CleanStop | DirtyStop

  /** `shutdown_record`: clean only if the writer finished, knew every item, flushed everything and nothing was dropped. */
  function ShutdownRecord(s: State): Verdict {
    if !s.done || s.fatal || s.update.flushFailed || s.close.flushFailed || s.mark.flushFailed || s.dropped > 0 then DirtyStop
    else CleanStop
  }

  // ---------------------------------------------------------------- what is never lost

  function RowsOf(shards: seq<Shard>): seq<Row> {
    if shards == [] then [] else RowsOf(shards[..|shards| - 1]) + shards[|shards| - 1].rows
  }

  /** Rows of one kind waiting in the queue. */
  function Waiting(queue: seq<Item>, k: Kind): seq<Row> {
    if queue == [] then []
    else (if queue[0].RowItem? && queue[0].kind == Some(k) then [queue[0].row] else []) + Waiting(queue[1..], k)
  }

  lemma {:induction false} WaitingAppend(queue: seq<Item>, i: Item, k: Kind)
    ensures Waiting(queue + [i], k) == Waiting(queue, k) + (if i.RowItem? && i.kind == Some(k) then [i.row] else [])
  {
    if queue == [] {
      assert [i][1..] == [];
    } else {
      assert (queue + [i])[1..] == queue[1..] + [i];
      WaitingAppend(queue[1..], i, k);
    }
  }

  /** Rows on disk, then rows in memory. */
  function Saved(l: Lane): seq<Row> {
    RowsOf(l.shards) + l.buffer
  }

  /** Every row put is on disk, in memory or in the queue, in the order it was put. */
  predicate Whole(l: Lane, waiting: seq<Row>) {
    l.sent == Saved(l) + waiting
  }

  /** Unless a row was dropped at the queue or lost in a roll, nothing is missing; and what is there never makes up
      for a loss. After a failed last flush nothing is claimed. */
  predicate LaneOk(l: Lane, waiting: seq<Row>, dropped: bool) {
    !l.flushFailed ==>
      && (dropped || l.lost || Whole(l, waiting))
      && |Saved(l)| + |waiting| <= |l.sent|
      && (l.lost ==> |Saved(l)| + |waiting| < |l.sent|)
  }

  predicate OkAt(s: State, k: Kind) {
    LaneOk(s.Lane(k), Waiting(s.queue, k), s.dropped > 0)
  }

  predicate Intact(s: State) {
    OkAt(s, KlineUpdate) && OkAt(s, KlineClose) && OkAt(s, MarkPrice)
  }

  predicate StopIsLast(s: State) {
    && (forall i :: 0 <= i < |s.queue| && s.queue[i].StopItem? ==> i == |s.queue| - 1)
    && (!s.stopping ==> (forall i :: 0 <= i < |s.queue| ==> !s.queue[i].StopItem?) && !s.done)
    && (s.done ==> s.queue == [])
  }

  /** After the last flush a writer that did not fail has nothing left in memory. */
  predicate Flushed(s: State) {
    s.done ==> forall k: Kind :: s.Lane(k).buffer == [] || s.Lane(k).flushFailed
  }

  predicate Kept(disk: map<Path, seq<Row>>, sh: Shard) {
    sh.path in disk && disk[sh.path] == sh.rows
  }

  predicate AllKept(disk: map<Path, seq<Row>>, shards: seq<Shard>) {
    forall i :: 0 <= i < |shards| ==> Kept(disk, shards[i])
  }

  /** Every shard written is still on disk with its rows. */
  predicate OnDisk(s: State) {
    AllKept(s.disk, s.update.shards) && AllKept(s.disk, s.close.shards) && AllKept(s.disk, s.mark.shards)
  }

  predicate DiskGrows(s: State, t: State) {
    forall p :: p in s.disk ==> p in t.disk && t.disk[p] == s.disk[p]
  }

  predicate Sound(s: State) {
    Intact(s) && StopIsLast(s) && Flushed(s) && OnDisk(s)
  }

  lemma SavedAfterRoll(l: Lane, p: Path)
    ensures Saved(Rolled(l, p)) == Saved(l)
  {
    assert (l.shards + [Shard(p, l.buffer)])[..|l.shards|] == l.shards;
    assert RowsOf(l.shards + [Shard(p, l.buffer)]) == RowsOf(l.shards) + l.buffer;
    hide RowsOf;
    assert (RowsOf(l.shards) + l.buffer) + [] == RowsOf(l.shards) + l.buffer;
  }

  lemma SavedAfterAdd(l: Lane, row: Row)
    ensures Saved(l.(buffer := l.buffer + [row])) == Saved(l) + [row]
  {
    hide RowsOf;
    assert RowsOf(l.shards) + (l.buffer + [row]) == (RowsOf(l.shards) + l.buffer) + [row];
  }

  lemma MoreKept(disk: map<Path, seq<Row>>, p: Path, rows: seq<Row>, shards: seq<Shard>)
    requires AllKept(disk, shards) && p !in disk
    ensures AllKept(disk[p := rows], shards) && AllKept(disk[p := rows], shards + [Shard(p, rows)])
  {}

  lemma RolledOk(l: Lane, p: Path, waiting: seq<Row>, dropped: bool)
    requires LaneOk(l, waiting, dropped)
    ensures LaneOk(Rolled(l, p), waiting, dropped)
  {
    SavedAfterRoll(l, p);
  }

  lemma ThrownOk(l: Lane, waiting: seq<Row>, dropped: bool)
    requires LaneOk(l, waiting, dropped) && l.buffer != []
    ensures LaneOk(l.(buffer := [], lost := true), waiting, dropped)
  {}

  /** A roll moves the buffer into a file of its own, and touches no other file. */
  lemma RollKeeps(s: State, k: Kind)
    requires OnDisk(s) && Intact(s)
    ensures var t := Roll(s, k);
      && OnDisk(t) && Intact(t) && DiskGrows(s, t) && t == s.With(k, t.Lane(k)).(disk := t.disk) && t.Lane(k).buffer == []
      && t.Lane(k).lost == s.Lane(k).lost && t.Lane(k).flushFailed == s.Lane(k).flushFailed
  {
    hide AllKept, LaneOk, FreeFrom, Waiting;
    var l := s.Lane(k);
    if l.buffer != [] {
      var p := FreeFrom(s.disk.Keys, k, l.buffer, 0);
      FreeIsFree(s.disk.Keys, k, l.buffer, 0);
      MoreKept(s.disk, p, l.buffer, s.update.shards);
      MoreKept(s.disk, p, l.buffer, s.close.shards);
      MoreKept(s.disk, p, l.buffer, s.mark.shards);
      RolledOk(l, p, Waiting(s.queue, k), s.dropped > 0);
    }
  }

  lemma RollIfDueKeeps(s: State, k: Kind, r: RollOutcome)
    requires Intact(s) && OnDisk(s)
    ensures var t := RollIfDue(s, k, r);
      && Intact(t) && OnDisk(t) && DiskGrows(s, t)
      && t.done == s.done && (StopIsLast(s) ==> StopIsLast(t))
  {
    hide AllKept, LaneOk, Roll, Waiting;
    RollKeeps(s, k);
    if s.Lane(k).buffer != [] { ThrownOk(s.Lane(k), Waiting(s.queue, k), s.dropped > 0); }
  }

  lemma FailedOk(l: Lane, waiting: seq<Row>, dropped: bool)
    requires l.flushFailed
    ensures LaneOk(l, waiting, dropped)
  {}

  /** A lane whose last flush failed, whatever else became of it. */
  lemma FailedKeeps(s: State, k: Kind, l: Lane)
    requires Intact(s) && OnDisk(s) && l.flushFailed && l.shards == s.Lane(k).shards
    ensures var t := s.With(k, l); Intact(t) && OnDisk(t) && t.disk == s.disk
  {
    hide AllKept, LaneOk, Waiting;
    FailedOk(l, Waiting(s.queue, k), s.dropped > 0);
  }

  lemma FlushKeeps(s: State, k: Kind, r: RollOutcome)
    requires Intact(s) && OnDisk(s)
    ensures var t := FinalFlush(s, k, r);
      && Intact(t) && OnDisk(t) && DiskGrows(s, t)
      && t == s.With(k, t.Lane(k)).(disk := t.disk)
      && (t.Lane(k).buffer == [] || t.Lane(k).flushFailed)
  {
    hide Intact, OnDisk, Roll;
    RollKeeps(s, k);
    if s.Lane(k).buffer != [] {
      match r
      case FailsBefore => FailedKeeps(s, k, s.Lane(k).(flushFailed := true));
      case FailsAfter => FailedKeeps(Roll(s, k), k, Roll(s, k).Lane(k).(buffer := s.Lane(k).buffer, flushFailed := true));
      case _ =>
    }
  }

  lemma DispatchWhole(l: Lane, i: Item, rest: seq<Item>, k: Kind)
    requires Whole(l, Waiting([i] + rest, k))
    ensures Whole(if i.RowItem? && i.kind == Some(k) then l.(buffer := l.buffer + [i.row]) else l, Waiting(rest, k))
  {
    assert ([i] + rest)[1..] == rest;
    var waiting := Waiting(rest, k);
    assert Waiting([i] + rest, k) == (if i.RowItem? && i.kind == Some(k) then [i.row] else []) + waiting;
    hide Saved, Waiting;
    if i.RowItem? && i.kind == Some(k) {
      SavedAfterAdd(l, i.row);
      assert Saved(l) + ([i.row] + waiting) == (Saved(l) + [i.row]) + waiting;
    } else {
      assert [] + waiting == waiting;
    }
  }

  lemma HandedOk(l: Lane, i: Item, rest: seq<Item>, k: Kind, dropped: bool)
    requires LaneOk(l, Waiting([i] + rest, k), dropped)
    ensures LaneOk(if i.RowItem? && i.kind == Some(k) then l.(buffer := l.buffer + [i.row]) else l, Waiting(rest, k), dropped)
  {
    assert ([i] + rest)[1..] == rest;
    if i.RowItem? && i.kind == Some(k) { SavedAfterAdd(l, i.row); }
    if Whole(l, Waiting([i] + rest, k)) { DispatchWhole(l, i, rest, k); }
    hide Whole, Saved;
  }

  lemma AllHandedOk(s: State, i: Item, rest: seq<Item>)
    requires Intact(s) && s.queue == [i] + rest
    ensures var add := (k: Kind) => if i.RowItem? && i.kind == Some(k) then s.Lane(k).(buffer := s.Lane(k).buffer + [i.row]) else s.Lane(k);
      && LaneOk(add(KlineUpdate), Waiting(rest, KlineUpdate), s.dropped > 0)
      && LaneOk(add(KlineClose), Waiting(rest, KlineClose), s.dropped > 0)
      && LaneOk(add(MarkPrice), Waiting(rest, MarkPrice), s.dropped > 0)
  {
    hide LaneOk, Waiting;
    HandedOk(s.update, i, rest, KlineUpdate, s.dropped > 0);
    HandedOk(s.close, i, rest, KlineClose, s.dropped > 0);
    HandedOk(s.mark, i, rest, MarkPrice, s.dropped > 0);
  }

  lemma HandedKeeps(s: State)
    requires Intact(s) && StopIsLast(s) && OnDisk(s) && !Stops(s)
    ensures var t := Handed(s); Intact(t) && OnDisk(t) && StopIsLast(t) && t.disk == s.disk && t.done == s.done
  {
    hide AllKept, LaneOk, Waiting;
    if s.queue != [] {
      var i, rest := s.queue[0], s.queue[1..];
      assert s.queue == [i] + rest;
      AllHandedOk(s, i, rest);
    }
  }

  lemma StopKeeps(s: State)
    requires Intact(s) && StopIsLast(s) && OnDisk(s) && Stops(s)
    ensures var t := s.(queue := s.queue[1..], done := true); Intact(t) && OnDisk(t) && StopIsLast(t)
  {
    hide AllKept, LaneOk, Waiting;
    var i, rest := s.queue[0], s.queue[1..];
    assert s.queue == [i] + rest;
    AllHandedOk(s, i, rest);
  }

  lemma LastTurnKeeps(s: State, rolls: Kind -> RollOutcome)
    requires Sound(s) && !s.done && Stops(s)
    ensures Sound(WriterTurn(s, rolls)) && DiskGrows(s, WriterTurn(s, rolls))
  {
    hide FinalFlush, Intact, OnDisk, Dispatch;
    StopKeeps(s);
    var s1 := s.(queue := s.queue[1..], done := true);
    FlushKeeps(s1, KlineUpdate, rolls(KlineUpdate));
    var s2 := FinalFlush(s1, KlineUpdate, rolls(KlineUpdate));
    FlushKeeps(s2, KlineClose, rolls(KlineClose));
    var s3 := FinalFlush(s2, KlineClose, rolls(KlineClose));
    FlushKeeps(s3, MarkPrice, rolls(MarkPrice));
  }

  lemma TurnKeeps(s: State, rolls: Kind -> RollOutcome)
    requires Sound(s)
    ensures Sound(WriterTurn(s, rolls)) && DiskGrows(s, WriterTurn(s, rolls))
  {
    if !s.done && Stops(s) {
      hide *;
      LastTurnKeeps(s, rolls);
    } else if !s.done {
      hide RollIfDue, FinalFlush, Intact, OnDisk, Handed, StopIsLast, Stops;
      HandedKeeps(s);
      var s1 := Handed(s);
      RollIfDueKeeps(s1, KlineUpdate, rolls(KlineUpdate));
      var s2 := RollIfDue(s1, KlineUpdate, rolls(KlineUpdate));
      RollIfDueKeeps(s2, KlineClose, rolls(KlineClose));
      var s3 := RollIfDue(s2, KlineClose, rolls(KlineClose));
      RollIfDueKeeps(s3, MarkPrice, rolls(MarkPrice));
    }
  }

  lemma QueuedWhole(l: Lane, queue: seq<Item>, i: Item, k: Kind)
    requires Whole(l, Waiting(queue, k))
    ensures Whole(if i.RowItem? && i.kind == Some(k) then l.(sent := l.sent + [i.row]) else l, Waiting(queue + [i], k))
  {
    var waiting := Waiting(queue, k);
    WaitingAppend(queue, i, k);
    hide RowsOf, Waiting;
    if i.RowItem? && i.kind == Some(k) {
      assert Saved(l.(sent := l.sent + [i.row])) == Saved(l);
      hide Saved;
      assert (Saved(l) + waiting) + [i.row] == Saved(l) + (waiting + [i.row]);
    } else {
      assert waiting + [] == waiting;
    }
  }

  lemma QueuedOk(l: Lane, queue: seq<Item>, i: Item, k: Kind, dropped: bool)
    requires LaneOk(l, Waiting(queue, k), dropped)
    ensures LaneOk(if i.RowItem? && i.kind == Some(k) then l.(sent := l.sent + [i.row]) else l, Waiting(queue + [i], k), dropped)
  {
    WaitingAppend(queue, i, k);
    if Whole(l, Waiting(queue, k)) { QueuedWhole(l, queue, i, k); }
    hide Whole, Waiting, RowsOf;
  }

  lemma AddedKeeps(s: State, t: State, i: Item)
    requires Sound(s) && !s.stopping && (i.StopItem? ==> t.stopping) && (!t.stopping ==> !i.StopItem?)
    requires t == s.(queue := s.queue + [i], update := t.update, close := t.close, mark := t.mark, stopping := t.stopping)
    requires forall k: Kind :: t.Lane(k) == if i.RowItem? && i.kind == Some(k) then s.Lane(k).(sent := s.Lane(k).sent + [i.row]) else s.Lane(k)
    ensures Sound(t)
  {
    hide AllKept, LaneOk, Waiting;
    assert t.Lane(KlineUpdate) == t.update && t.Lane(KlineClose) == t.close && t.Lane(MarkPrice) == t.mark;
    QueuedOk(s.update, s.queue, i, KlineUpdate, s.dropped > 0);
    QueuedOk(s.close, s.queue, i, KlineClose, s.dropped > 0);
    QueuedOk(s.mark, s.queue, i, MarkPrice, s.dropped > 0);
  }

  lemma EnqueueKeeps(s: State)
    requires Sound(s) && !s.stopping
    ensures Sound(Enqueue(s, EventItem)) && DiskGrows(s, Enqueue(s, EventItem))
  {
    hide Sound;
    if |s.queue| < s.capacity { AddedKeeps(s, Enqueue(s, EventItem), EventItem); }
  }

  /** The same files and rows in memory, and at least as many rows put. */
  predicate SameKept(l: Lane, m: Lane) {
    m == l.(sent := m.sent) && |l.sent| <= |m.sent|
  }

  lemma DroppedOk(l: Lane, m: Lane, waiting: seq<Row>, dropped: bool)
    requires LaneOk(l, waiting, dropped) && SameKept(l, m)
    ensures LaneOk(m, waiting, true)
  {}

  lemma LostIsSound(s: State, t: State)
    requires Sound(s) && t.dropped > 0 && t.queue == s.queue && t.disk == s.disk
    requires t.stopping == s.stopping && t.done == s.done
    requires SameKept(s.update, t.update) && SameKept(s.close, t.close) && SameKept(s.mark, t.mark)
    ensures Sound(t)
  {
    hide AllKept, LaneOk, Waiting;
    DroppedOk(s.update, t.update, Waiting(s.queue, KlineUpdate), s.dropped > 0);
    DroppedOk(s.close, t.close, Waiting(s.queue, KlineClose), s.dropped > 0);
    DroppedOk(s.mark, t.mark, Waiting(s.queue, MarkPrice), s.dropped > 0);
    forall k: Kind ensures SameKept(s.Lane(k), t.Lane(k)) {}
  }

  lemma DropKeeps(s: State, kind: Option<Kind>, row: Row)
    requires Sound(s) && |s.queue| >= s.capacity
    ensures Sound(PutRow(s, kind, row)) && DiskGrows(s, PutRow(s, kind, row))
  {
    hide Sound, Noted;
    LostIsSound(s, PutRow(s, kind, row));
  }

  lemma PutKeeps(s: State, kind: Option<Kind>, row: Row)
    requires Sound(s) && !s.stopping
    ensures Sound(PutRow(s, kind, row)) && DiskGrows(s, PutRow(s, kind, row))
  {
    if |s.queue| >= s.capacity { DropKeeps(s, kind, row); return; }
    hide Sound, DiskGrows;
    AddedKeeps(s, PutRow(s, kind, row), RowItem(kind, row));
  }

  lemma StopQueuedKeeps(s: State, queued: bool)
    requires Sound(s) && !s.stopping
    ensures Sound(Take(s, BeginStop(queued))) && DiskGrows(s, Take(s, BeginStop(queued)))
  {
    var t := Take(s, BeginStop(queued));
    if queued {
      hide Sound;
      AddedKeeps(s, t, StopItem);
    } else {
      hide AllKept, LaneOk;
    }
  }

  lemma StepKeeps(s: State, i: Step)
    requires Sound(s) && Allowed(s, i)
    ensures Sound(Take(s, i)) && DiskGrows(s, Take(s, i))
  {
    match i
    case Put(kind, row) => PutKeeps(s, kind, row);
    case Event => EnqueueKeeps(s);
    case BeginStop(queued) => StopQueuedKeeps(s, queued);
    case Turn(rolls) => TurnKeeps(s, rolls);
  }

  lemma StartIsSound(capacity: nat, disk: map<Path, seq<Row>>)
    ensures Sound(Start(capacity, disk))
  {}

  lemma {:induction false} RunKeeps(s: State, steps: seq<Step>)
    requires Sound(s) && RunOk(s, steps)
    ensures Sound(Run(s, steps)) && DiskGrows(s, Run(s, steps))
    decreases |steps|
  {
    hide Sound, Take, Allowed;
    if steps != [] {
      RunKeeps(s, steps[..|steps| - 1]);
      StepKeeps(Run(s, steps[..|steps| - 1]), steps[|steps| - 1]);
    }
  }

  // ---------------------------------------------------------------- which rolls lose rows

  /** The turn throws rows of kind `k` away: a roll in mid-run fails on them before its file is in place. */
  predicate LosesAt(s: State, i: Step, k: Kind) {
    i.Turn? && !s.done && !Stops(s) && Handed(s).Lane(k).buffer != [] && i.rolls(k).FailsBefore?
  }

  lemma TakeLoses(s: State, i: Step, k: Kind)
    ensures Take(s, i).Lane(k).lost <==> s.Lane(k).lost || LosesAt(s, i, k)
  {
    hide Handed;
    match i
    case Put(kind, row) =>
    case Event =>
    case BeginStop(queued) =>
    case Turn(rolls) =>
      if s.done {
      } else if Stops(s) {
        var s1 := s.(queue := s.queue[1..], done := true);
        FlushLoses(s1, KlineUpdate, rolls(KlineUpdate), k);
        var s2 := FinalFlush(s1, KlineUpdate, rolls(KlineUpdate));
        FlushLoses(s2, KlineClose, rolls(KlineClose), k);
        var s3 := FinalFlush(s2, KlineClose, rolls(KlineClose));
        FlushLoses(s3, MarkPrice, rolls(MarkPrice), k);
        hide FinalFlush;
      } else {
        HandedLoses(s, k);
        var s1 := Handed(s);
        RollLoses(s1, KlineUpdate, rolls(KlineUpdate), k);
        var s2 := RollIfDue(s1, KlineUpdate, rolls(KlineUpdate));
        RollLoses(s2, KlineClose, rolls(KlineClose), k);
        var s3 := RollIfDue(s2, KlineClose, rolls(KlineClose));
        RollLoses(s3, MarkPrice, rolls(MarkPrice), k);
        hide RollIfDue;
      }
  }

  lemma HandedLoses(s: State, k: Kind)
    ensures Handed(s).Lane(k).lost == s.Lane(k).lost
  {}

  lemma FlushLoses(s: State, j: Kind, r: RollOutcome, k: Kind)
    ensures FinalFlush(s, j, r).Lane(k).lost == s.Lane(k).lost
  {}

  lemma RollLoses(s: State, j: Kind, r: RollOutcome, k: Kind)
    ensures var t := RollIfDue(s, j, r);
      && (t.Lane(k).lost <==> s.Lane(k).lost || (j == k && s.Lane(k).buffer != [] && r.FailsBefore?))
      && (j != k ==> t.Lane(k) == s.Lane(k))
  {}

  /** Some step of the run throws rows of kind `k` away. */
  ghost predicate LosesIn(s: State, steps: seq<Step>, k: Kind) {
    exists n :: 0 <= n < |steps| && LosesAt(Run(s, steps[..n]), steps[n], k)
  }

  lemma LosesInMore(s: State, steps: seq<Step>, k: Kind)
    requires steps != []
    ensures var m := |steps| - 1;
      LosesIn(s, steps, k) <==> LosesIn(s, steps[..m], k) || LosesAt(Run(s, steps[..m]), steps[m], k)
  {
    hide Run, LosesAt;
    var m := |steps| - 1;
    assert forall n :: 0 <= n < m ==> steps[..m][..n] == steps[..n] && steps[..m][n] == steps[n];
    if n :| 0 <= n < |steps| && LosesAt(Run(s, steps[..n]), steps[n], k) {
      if n < m { assert LosesAt(Run(s, steps[..m][..n]), steps[..m][n], k); }
    }
    if n :| 0 <= n < m && LosesAt(Run(s, steps[..m][..n]), steps[..m][n], k) {
      assert LosesAt(Run(s, steps[..n]), steps[n], k);
    }
  }

  lemma {:induction false} LostIff(s: State, steps: seq<Step>, k: Kind)
    ensures Run(s, steps).Lane(k).lost <==> s.Lane(k).lost || LosesIn(s, steps, k)
    decreases |steps|
  {
    hide Take, LosesAt;
    if steps != [] {
      var m := |steps| - 1;
      LostIff(s, steps[..m], k);
      TakeLoses(Run(s, steps[..m]), steps[m], k);
      LosesInMore(s, steps, k);
      hide LosesIn;
    }
  }

  /** Main theorem. In every interleaving a clean stop means, kind by kind: the shard files, taken in the order they
      were written and as they are on disk, are exactly the rows put, in order, if and only if no roll of that kind
      failed in mid-run with rows to write and no file in place. No file that was there before, or written on the
      way, is ever replaced. */
  lemma CleanStopIff(capacity: nat, disk: map<Path, seq<Row>>, steps: seq<Step>, k: Kind)
    requires RunOk(Start(capacity, disk), steps)
    ensures var s0 := Start(capacity, disk);
      var s := Run(s0, steps);
      && AllKept(s.disk, s.Lane(k).shards) && DiskGrows(s0, s)
      && (ShutdownRecord(s).CleanStop? ==>
            (RowsOf(s.Lane(k).shards) == s.Lane(k).sent
             <==> !LosesIn(s0, steps, k)))
  {
    hide Run, RunOk, AllKept, RowsOf, LosesIn;
    StartIsSound(capacity, disk);
    RunKeeps(Start(capacity, disk), steps);
    LostIff(Start(capacity, disk), steps, k);
    var s := Run(Start(capacity, disk), steps);
    if ShutdownRecord(s).CleanStop? {
      assert OkAt(s, k) && s.queue == [] && s.Lane(k).buffer == [];
      assert RowsOf(s.Lane(k).shards) + [] + [] == RowsOf(s.Lane(k).shards);
    }
  }

  // ---------------------------------------------------------------- when the verdict is clean

  datatype Flag = Stopped | UnknownKind | Dropped | Unflushed(kind: Kind)

  predicate IsUp(s: State, f: Flag) {
    match f
    case Stopped => s.done
    case UnknownKind => s.fatal
    case Dropped => s.dropped > 0
    case Unflushed(k) => s.Lane(k).flushFailed
  }

  /** What puts a flag up: a turn that meets the stop, or a row of no known kind; a row put on a full queue; a last flush that
      fails on rows. */
  predicate PutsUp(s: State, i: Step, f: Flag) {
    match f
    case Stopped => i.Turn? && !s.done && Stops(s)
    case UnknownKind => i.Turn? && !s.done && s.queue != [] && s.queue[0].RowItem? && s.queue[0].kind.None?
    case Dropped => i.Put? && |s.queue| >= s.capacity
    case Unflushed(k) => i.Turn? && !s.done && Stops(s) && s.Lane(k).buffer != [] && (i.rolls(k).FailsBefore? || i.rolls(k).FailsAfter?)
  }

  lemma RollFlags(s: State, j: Kind, r: RollOutcome, f: Flag)
    ensures IsUp(RollIfDue(s, j, r), f) == IsUp(s, f)
  {
    hide FreeFrom;
  }

  lemma FlushFlags(s: State, j: Kind, r: RollOutcome, f: Flag)
    ensures var t := FinalFlush(s, j, r);
      && (IsUp(t, f) <==> IsUp(s, f) || (f == Unflushed(j) && s.Lane(j).buffer != [] && (r.FailsBefore? || r.FailsAfter?)))
      && (forall k: Kind :: k != j ==> t.Lane(k) == s.Lane(k))
  {
    hide FreeFrom;
  }

  lemma HandedFlags(s: State, f: Flag)
    requires !Stops(s)
    ensures IsUp(Handed(s), f) <==> IsUp(s, f) || (f.UnknownKind? && s.queue != [] && s.queue[0].RowItem? && s.queue[0].kind.None?)
  {}

  lemma TurnFlags(s: State, rolls: Kind -> RollOutcome, f: Flag)
    ensures IsUp(WriterTurn(s, rolls), f) <==> IsUp(s, f) || PutsUp(s, Turn(rolls), f)
  {
    if s.done {
    } else if Stops(s) {
      var s1 := s.(queue := s.queue[1..], done := true);
      FlushFlags(s1, KlineUpdate, rolls(KlineUpdate), f);
      var s2 := FinalFlush(s1, KlineUpdate, rolls(KlineUpdate));
      FlushFlags(s2, KlineClose, rolls(KlineClose), f);
      var s3 := FinalFlush(s2, KlineClose, rolls(KlineClose));
      FlushFlags(s3, MarkPrice, rolls(MarkPrice), f);
      assert forall k: Kind :: s1.Lane(k) == s.Lane(k);
      hide FinalFlush;
    } else {
      HandedFlags(s, f);
      var s1 := Handed(s);
      RollFlags(s1, KlineUpdate, rolls(KlineUpdate), f);
      var s2 := RollIfDue(s1, KlineUpdate, rolls(KlineUpdate));
      RollFlags(s2, KlineClose, rolls(KlineClose), f);
      RollFlags(RollIfDue(s2, KlineClose, rolls(KlineClose)), MarkPrice, rolls(MarkPrice), f);
      hide RollIfDue, Handed;
    }
  }

  lemma TakeFlags(s: State, i: Step, f: Flag)
    ensures IsUp(Take(s, i), f) <==> IsUp(s, f) || PutsUp(s, i, f)
  {
    if i.Turn? {
      TurnFlags(s, i.rolls, f);
      hide *;
    } else {
      hide WriterTurn;
    }
  }

  ghost predicate PutsUpIn(s: State, steps: seq<Step>, f: Flag) {
    exists n :: 0 <= n < |steps| && PutsUp(Run(s, steps[..n]), steps[n], f)
  }

  lemma PutsUpMore(s: State, steps: seq<Step>, f: Flag)
    requires steps != []
    ensures var m := |steps| - 1;
      PutsUpIn(s, steps, f) <==> PutsUpIn(s, steps[..m], f) || PutsUp(Run(s, steps[..m]), steps[m], f)
  {
    hide Run, PutsUp;
    var m := |steps| - 1;
    assert forall n :: 0 <= n < m ==> steps[..m][..n] == steps[..n] && steps[..m][n] == steps[n];
    if n :| 0 <= n < |steps| && PutsUp(Run(s, steps[..n]), steps[n], f) {
      if n < m { assert PutsUp(Run(s, steps[..m][..n]), steps[..m][n], f); }
    }
    if n :| 0 <= n < m && PutsUp(Run(s, steps[..m][..n]), steps[..m][n], f) {
      assert PutsUp(Run(s, steps[..n]), steps[n], f);
    }
  }

  lemma {:induction false} FlagIff(s: State, steps: seq<Step>, f: Flag)
    ensures IsUp(Run(s, steps), f) <==> IsUp(s, f) || PutsUpIn(s, steps, f)
    decreases |steps|
  {
    hide Take, PutsUp, IsUp;
    if steps != [] {
      var m := |steps| - 1;
      FlagIff(s, steps[..m], f);
      TakeFlags(Run(s, steps[..m]), steps[m], f);
      PutsUpMore(s, steps, f);
      hide PutsUpIn;
    }
  }

  /** Main theorem on the verdict. In every interleaving the shutdown record is clean exactly if the writer met the stop, met
      no row of an unknown kind, no row was put on a full queue, and no last flush failed on rows. */
  lemma CleanIff(capacity: nat, disk: map<Path, seq<Row>>, steps: seq<Step>)
    ensures
      var s0 := Start(capacity, disk);
      ShutdownRecord(Run(s0, steps)).CleanStop?
      <==> PutsUpIn(s0, steps, Stopped) && !PutsUpIn(s0, steps, UnknownKind) && !PutsUpIn(s0, steps, Dropped)
           && forall k: Kind :: !PutsUpIn(s0, steps, Unflushed(k))
  {
    hide Run, PutsUpIn;
    var s0 := Start(capacity, disk);
    FlagIff(s0, steps, Stopped);
    FlagIff(s0, steps, UnknownKind);
    FlagIff(s0, steps, Dropped);
    forall k: Kind ensures s0.Lane(k) == EMPTY_LANE && (IsUp(Run(s0, steps), Unflushed(k)) <==> PutsUpIn(s0, steps, Unflushed(k))) {
      FlagIff(s0, steps, Unflushed(k));
    }
    var s := Run(s0, steps);
    assert IsUp(s, Unflushed(KlineUpdate)) == s.update.flushFailed;
    assert IsUp(s, Unflushed(KlineClose)) == s.close.flushFailed;
    assert IsUp(s, Unflushed(MarkPrice)) == s.mark.flushFailed;
  }

  // ---------------------------------------------------------------- the writer gets on

  /** In mid-run each due roll ends with an empty buffer: as one file more, or, if it fails before its file is in place, as
      nothing. A roll that is not due leaves its writer alone. */
  lemma TurnRolls(s: State, rolls: Kind -> RollOutcome, k: Kind)
    requires !s.done && !Stops(s)
    ensures
      var l, m := Handed(s).Lane(k), WriterTurn(s, rolls).Lane(k);
      if l.buffer == [] || rolls(k).NotDue? then m == l
      else
        && m.buffer == []
        && (if rolls(k).FailsBefore? then m.shards == l.shards
            else |m.shards| == |l.shards| + 1 && m.shards[..|l.shards|] == l.shards && m.shards[|l.shards|].rows == l.buffer)
  {
    var s1 := Handed(s);
    RollOne(s1, KlineUpdate, rolls(KlineUpdate), k);
    var s2 := RollIfDue(s1, KlineUpdate, rolls(KlineUpdate));
    RollOne(s2, KlineClose, rolls(KlineClose), k);
    RollOne(RollIfDue(s2, KlineClose, rolls(KlineClose)), MarkPrice, rolls(MarkPrice), k);
    hide RollIfDue, Handed;
  }

  lemma RollOne(s: State, j: Kind, r: RollOutcome, k: Kind)
    ensures
      var l, m := s.Lane(k), RollIfDue(s, j, r).Lane(k);
      if k != j || l.buffer == [] || r.NotDue? then m == l
      else
        && m.buffer == []
        && (if r.FailsBefore? then m.shards == l.shards
            else |m.shards| == |l.shards| + 1 && m.shards[..|l.shards|] == l.shards && m.shards[|l.shards|].rows == l.buffer)
  {
    hide FreeFrom;
  }

  lemma TurnTakes(s: State, rolls: Kind -> RollOutcome)
    requires !s.done && s.queue != []
    ensures WriterTurn(s, rolls).queue == s.queue[1..] && (WriterTurn(s, rolls).done <==> Stops(s))
  {
    if Stops(s) {
      var s1 := s.(queue := s.queue[1..], done := true);
      FlushOnlyWrites(s1, KlineUpdate, rolls(KlineUpdate));
      FlushOnlyWrites(FinalFlush(s1, KlineUpdate, rolls(KlineUpdate)), KlineClose, rolls(KlineClose));
      FlushOnlyWrites(FinalFlush(FinalFlush(s1, KlineUpdate, rolls(KlineUpdate)), KlineClose, rolls(KlineClose)), MarkPrice, rolls(MarkPrice));
      hide FinalFlush;
    } else {
      var s1 := Handed(s);
      RollOnlyWrites(s1, KlineUpdate, rolls(KlineUpdate));
      RollOnlyWrites(RollIfDue(s1, KlineUpdate, rolls(KlineUpdate)), KlineClose, rolls(KlineClose));
      RollOnlyWrites(RollIfDue(RollIfDue(s1, KlineUpdate, rolls(KlineUpdate)), KlineClose, rolls(KlineClose)), MarkPrice, rolls(MarkPrice));
      hide RollIfDue;
    }
  }

  lemma FlushOnlyWrites(s: State, k: Kind, r: RollOutcome)
    ensures FinalFlush(s, k, r).queue == s.queue && FinalFlush(s, k, r).done == s.done
  {
    hide FreeFrom;
  }

  lemma RollOnlyWrites(s: State, k: Kind, r: RollOutcome)
    ensures RollIfDue(s, k, r).queue == s.queue && RollIfDue(s, k, r).done == s.done
  {
    hide FreeFrom;
  }

  /** Once the stop is queued, as many turns as there are items bring the writer to its end, whatever fails on the way. */
  lemma {:induction false} TurnsFinish(s: State, turns: seq<Step>)
    requires StopIsLast(s) && s.queue != [] && s.queue[|s.queue| - 1].StopItem? && !s.done
    requires forall n :: 0 <= n < |turns| ==> turns[n].Turn?
    ensures
      var t := Run(s, turns);
      if |turns| < |s.queue| then !t.done && t.queue == s.queue[|turns|..] else t.done && t.queue == []
    decreases |turns|
  {
    hide WriterTurn;
    if turns != [] {
      var n := |turns| - 1;
      TurnsFinish(s, turns[..n]);
      var before := Run(s, turns[..n]);
      if n < |s.queue| {
        assert before.queue[0] == s.queue[n];
        TurnTakes(before, turns[n].rolls);
      } else {
        DoneStays(before, turns[n].rolls);
      }
    }
  }

  lemma DoneStays(s: State, rolls: Kind -> RollOutcome)
    requires s.done
    ensures WriterTurn(s, rolls) == s
  {}

  /** A roll that fails in mid-run is the one loss the shutdown record does not show. */
  lemma RollFailureIsHidden(row: Row)
    ensures var bad := (k: Kind) => FailsBefore;
      var steps := [Put(Some(MarkPrice), row), Turn(bad), BeginStop(true), Turn(bad)];
      var s := Run(Start(10, map[]), steps);
      RunOk(Start(10, map[]), steps) && ShutdownRecord(s).CleanStop? && s.mark.sent == [row] && s.mark.shards == []
  {
    var bad := (k: Kind) => FailsBefore;
    var all := [Put(Some(MarkPrice), row), Turn(bad), BeginStop(true), Turn(bad)];
    var s0 := Start(10, map[]);
    var s1 := s0.(queue := [RowItem(Some(MarkPrice), row)], mark := EMPTY_LANE.(sent := [row]));
    var s2 := s1.(queue := [], mark := EMPTY_LANE.(sent := [row], lost := true));
    var s3 := s2.(queue := [StopItem], stopping := true);
    var s4 := s3.(queue := [], done := true);
    assert Take(s0, all[0]) == s1;
    assert Take(s1, all[1]) == s2;
    assert Take(s2, all[2]) == s3;
    assert Take(s3, all[3]) == s4;
    assert Allowed(s0, all[0]) && Allowed(s1, all[1]) && Allowed(s2, all[2]) && Allowed(s3, all[3]);
    hide Take, Allowed;
    assert all[..0] == [] && all[..4] == all;
    RunNext(s0, all, 0);
    RunNext(s0, all, 1);
    RunNext(s0, all, 2);
    RunNext(s0, all, 3);
  }

  lemma RunNext(s: State, steps: seq<Step>, n: nat)
    requires n < |steps|
    ensures Run(s, steps[..n + 1]) == Take(Run(s, steps[..n]), steps[n])
    ensures RunOk(s, steps[..n + 1]) <==> RunOk(s, steps[..n]) && Allowed(Run(s, steps[..n]), steps[n])
  {
    assert steps[..n + 1][..n] == steps[..n];
  }
}
