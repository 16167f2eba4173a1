module TripProtocol {
  // How a kill-switch trip and the operator log survive database failures and crashes (ops/runtime.py, db/record.py,
  // ops/run_bot.py). The database keeps every saved gate state and every operator event; a breadcrumb file outside it
  // carries what the database refused. `visited` lists every durable state a callback passes through, so that a crash
  // may strike at any of them. Breadcrumb writes succeed; everything else may fail.

  import opened Types
  import opened SafetyGate

  /** An event of the operator log is known by its kind and its id. */
  datatype Op = Op(kind: string, id: string)

  datatype Crumb = Crumb(base: Option<nat>, gate: GateState, ops: seq<Op>)

  /** Row `i` of `states` has id `i`: ids grow with every save. */
  datatype Disk = Disk(states: seq<GateState>, ops: seq<Op>, crumb: Option<Crumb>)

  datatype Memory = Memory(
    gate: GateState, saved: Option<GateState>, savedId: Option<nat>, saveFailed: bool, unrecorded: seq<Op>)

  datatype Process = Process(mem: Memory, disk: Disk, visited: seq<Disk>)

  // ---------------------------------------------------------------- the operations

  function Touch(p: Process, d: Disk): Process {
    p.(disk := d, visited := p.visited + [d])
  }

  function WriteCrumb(p: Process): Process {
    Touch(p, p.disk.(crumb := Some(Crumb(p.mem.savedId, p.mem.gate, p.mem.unrecorded))))
  }

  function ClearCrumb(p: Process, unlinkOk: bool): Process {
    if p.mem.saveFailed || p.mem.unrecorded != [] || !unlinkOk then p else Touch(p, p.disk.(crumb := None))
  }

  /** An event already stored is not stored again. */
  function InsertOp(d: Disk, op: Op): Disk {
    if op in d.ops then d else d.(ops := d.ops + [op])
  }

  function LatestId(d: Disk): Option<nat> {
    if d.states == [] then None else Some(|d.states| - 1)
  }

  /** `save_state` up to the deletion of the breadcrumb. A state equal to the last one saved is not saved again. */
  function SaveCore(p: Process, ok: bool): Process {
    var m := p.mem;
    if m.saved == Some(m.gate) then p.(mem := m.(saveFailed := false))
    else if ok then
      var d := p.disk.(states := p.disk.states + [m.gate]);
      var p1 := Touch(p.(mem := m.(savedId := LatestId(d), saved := Some(m.gate), saveFailed := false)), d);
      if m.unrecorded != [] then WriteCrumb(p1) else p1
    else WriteCrumb(p.(mem := m.(saveFailed := true)))
  }

  function SaveState(p: Process, ok: bool, unlinkOk: bool): Process {
    ClearCrumb(SaveCore(p, ok), unlinkOk)
  }

  function RecordOps(p: Process, op: Op, ok: bool): Process {
    var m := p.mem;
    if m.unrecorded == [] && ok then Touch(p, InsertOp(p.disk, op))
    else WriteCrumb(p.(mem := m.(unrecorded := m.unrecorded + [op])))
  }

  /** The retry loop: `n` inserts succeed before one fails or nothing is left. */
  function RetryLoop(p: Process, n: nat): Process
    decreases n
  {
    var m := p.mem;
    if m.unrecorded == [] || n == 0 then p
    else
      var p1 := Touch(p.(mem := m.(unrecorded := m.unrecorded[1..])), InsertOp(p.disk, m.unrecorded[0]));
      RetryLoop(if p1.mem.unrecorded != [] || m.saveFailed then WriteCrumb(p1) else p1, n - 1)
  }

  function RetryOps(p: Process, n: nat, unlinkOk: bool): Process {
    ClearCrumb(RetryLoop(p, n), unlinkOk)
  }

  // ---------------------------------------------------------------- restart

  function LoadGate(d: Disk, blank: GateState): GateState {
    if d.states == [] then blank else d.states[|d.states| - 1]
  }

  function LoadTrip(d: Disk): Option<Trip> {
    if d.states == [] then None else d.states[|d.states| - 1].kill.tripped
  }

  /** A breadcrumb is out of date when a newer row was saved after it and it holds no trip the database lacks. */
  predicate Quarantined(d: Disk) {
    && d.crumb.Some? && d.crumb.value.base.Some?
    && LatestId(d).Some? && LatestId(d).value > d.crumb.value.base.value
    && !(d.crumb.value.gate.kill.tripped.Some? && LoadTrip(d).None?)
  }

  /** The trip a restart would find. */
  function RestartTrip(d: Disk): Option<Trip> {
    if d.crumb.None? || Quarantined(d) then LoadTrip(d) else d.crumb.value.gate.kill.tripped
  }

  const RESTART_PAUSE := "system:restart_with_unsaved_safety_state"

  datatype RestartScript = RestartScript(
    blank: GateState, saveOk: bool, unlinkOk: bool, retries: nat, unlinkOk2: bool, note: Op, noteOk: bool)

  /** Startup up to the replay: load the gate, set an out-of-date breadcrumb aside or restore from it. */
  function Boot(d: Disk, blank: GateState): Process {
    if d.crumb.None? then
      Process(Memory(LoadGate(d, blank), None, LatestId(d), false, []), d, [d])
    else
      var k := d.crumb.value;
      var d1 := if Quarantined(d) then d.(crumb := None) else d;
      var g := (if Quarantined(d) then LoadGate(d, blank) else k.gate).(pausedBy := Some(RESTART_PAUSE));
      Process(Memory(g, None, LatestId(d), false, k.ops), d1, [d, d1])
  }

  function Restart(d: Disk, x: RestartScript): Process {
    var p := Boot(d, x.blank);
    if d.crumb.None? then p
    else RecordOps(RetryOps(SaveState(p, x.saveOk, x.unlinkOk), x.retries, x.unlinkOk2), x.note, x.noteOk)
  }

  // ---------------------------------------------------------------- runs

  datatype Recorded = Recorded(op: Op, ok: bool)

  function RecordAll(p: Process, rs: seq<Recorded>): Process
    decreases |rs|
  {
    if rs == [] then p else RecordAll(RecordOps(p, rs[0].op, rs[0].ok), rs[1..])
  }

  /** Callbacks as the runtime runs them. `Change` is every callback that saves: a trip, a pause, a start, the
      end of a bar. `Note` is one that does not save: it cannot move the switch. */
  datatype Input =
    | Change(gate: GateState, recs: seq<Recorded>, saveOk: bool, unlinkOk: bool)
    | Note(gate: GateState, recs: seq<Recorded>)
    | Tick(retries: nat, unlinkOk: bool, saveOk: bool, unlinkOk2: bool)
    | CrashAt(k: nat, x: RestartScript)

  function Begin(p: Process): Process {
    p.(visited := [p.disk])
  }

  function Callback(p: Process, i: Input): Process {
    match i
    case Change(g, recs, saveOk, unlinkOk) => SaveState(BeforeSave(p, i), saveOk, unlinkOk)
    case Note(g, recs) => BeforeSave(p, i)
    case Tick(n, unlinkOk, saveOk, unlinkOk2) =>
      var p1 := RetryOps(Begin(p), n, unlinkOk);
      if p1.mem.saveFailed then SaveState(p1, saveOk, unlinkOk2) else p1
    case CrashAt(k, x) => Restart(CrashPoint(p, k), x)
  }

  /** The durable state a crash leaves: one inside the last callback, or the one after it. */
  function CrashPoint(p: Process, k: nat): Disk {
    if k < |p.visited| then p.visited[k] else p.disk
  }

  function BeforeSave(p: Process, i: Input): Process
    requires i.Change? || i.Note?
  {
    RecordAll(Begin(p).(mem := p.mem.(gate := i.gate)), i.recs)
  }

  /** What a failed deletion leaves stands for the switch in memory: there is no file, or it will be set aside, or it
      carries the same trip. */
  predicate LeftStands(p: Process) {
    p.disk.crumb.None? || Quarantined(p.disk) || p.disk.crumb.value.gate.kill.tripped == p.mem.gate.kill.tripped
  }

  /** Where a deletion is due, it succeeds or leaves that behind. */
  predicate ClearSafe(p: Process, unlinkOk: bool) {
    unlinkOk || p.mem.saveFailed || p.mem.unrecorded != [] || LeftStands(p)
  }

  predicate SaveSafe(p: Process, ok: bool, unlinkOk: bool) {
    ClearSafe(SaveCore(p, ok), unlinkOk)
  }

  predicate RestartSafe(d: Disk, x: RestartScript) {
    var p := Boot(d, x.blank);
    x.blank.kill.tripped.None? &&
    (d.crumb.Some? ==> SaveSafe(p, x.saveOk, x.unlinkOk)
                       && ClearSafe(RetryLoop(SaveState(p, x.saveOk, x.unlinkOk), x.retries), x.unlinkOk2))
  }

  /** A callback that moves the switch records why; one that does not save leaves it alone. */
  predicate InputOk(p: Process, i: Input) {
    match i
    case Change(g, recs, saveOk, unlinkOk) =>
      (g.kill.tripped == p.mem.gate.kill.tripped || recs != []) && SaveSafe(BeforeSave(p, i), saveOk, unlinkOk)
    case Note(g, recs) => g.kill.tripped == p.mem.gate.kill.tripped
    case Tick(n, unlinkOk, saveOk, unlinkOk2) =>
      && ClearSafe(RetryLoop(Begin(p), n), unlinkOk)
      && (RetryOps(Begin(p), n, unlinkOk).mem.saveFailed ==> SaveSafe(RetryOps(Begin(p), n, unlinkOk), saveOk, unlinkOk2))
    case CrashAt(k, x) => RestartSafe(CrashPoint(p, k), x)
  }

  function Run(p: Process, ins: seq<Input>): Process
    decreases |ins|
  {
    if ins == [] then p else Callback(Run(p, ins[..|ins| - 1]), ins[|ins| - 1])
  }

  predicate RunOk(p: Process, ins: seq<Input>)
    decreases |ins|
  {
    ins == [] || (RunOk(p, ins[..|ins| - 1]) && InputOk(Run(p, ins[..|ins| - 1]), ins[|ins| - 1]))
  }

  // ---------------------------------------------------------------- what every durable state keeps

  predicate OncePerId(ops: seq<Op>) {
    forall i, j :: 0 <= i < j < |ops| ==> ops[i] != ops[j]
  }

  predicate DiskOk(d: Disk) {
    && OncePerId(d.ops)
    && (d.crumb.Some? && d.crumb.value.base.Some? ==> d.crumb.value.base.value < |d.states|)
  }

  predicate AllOk(ds: seq<Disk>) {
    forall i :: 0 <= i < |ds| ==> DiskOk(ds[i])
  }

  /** The memory knows what the database holds. */
  predicate Base(p: Process) {
    && p.visited != [] && p.visited[|p.visited| - 1] == p.disk && AllOk(p.visited)
    && p.mem.savedId == LatestId(p.disk)
    && (p.mem.saved.Some? ==> p.disk.states != [] && p.disk.states[|p.disk.states| - 1] == p.mem.saved.value)
  }

  /** The breadcrumb on disk is the one the memory would write now, as far as a restart is concerned. */
  predicate Current(p: Process) {
    && p.disk.crumb.Some? && p.disk.crumb.value.base == p.mem.savedId && p.disk.crumb.value.ops == p.mem.unrecorded
    && p.disk.crumb.value.gate.kill.tripped == p.mem.gate.kill.tripped
  }

  predicate Carried(p: Process) {
    p.mem.unrecorded != [] ==> Current(p)
  }

  /** A restart would find the switch in memory. */
  predicate Stands(p: Process) {
    RestartTrip(p.disk) == p.mem.gate.kill.tripped
  }

  predicate Saved(p: Process) {
    if p.mem.saveFailed then Current(p) else LoadTrip(p.disk) == p.mem.gate.kill.tripped
  }

  /** Between callbacks. */
  predicate Settled(p: Process) {
    Base(p) && Carried(p) && Saved(p) && Stands(p)
  }

  lemma TouchKeepsOk(p: Process, d: Disk)
    requires AllOk(p.visited) && DiskOk(d)
    ensures AllOk(Touch(p, d).visited) && Touch(p, d).visited != []
    ensures Touch(p, d).visited[|Touch(p, d).visited| - 1] == d
  {}

  lemma RecordKeeps(p: Process, op: Op, ok: bool)
    requires Base(p)
    ensures var q := RecordOps(p, op, ok);
      && Base(q) && Carried(q) && q.mem.gate == p.mem.gate && q.mem.saveFailed == p.mem.saveFailed
      && (Stands(p) ==> Stands(q)) && (Carried(p) && Saved(p) ==> Saved(q))
  {
    var q := RecordOps(p, op, ok);
    TouchKeepsOk(p.(mem := q.mem), q.disk);
  }

  lemma {:induction false} RecordAllKeeps(p: Process, rs: seq<Recorded>)
    requires Base(p) && (rs == [] ==> Carried(p))
    ensures var q := RecordAll(p, rs);
      && Base(q) && Carried(q) && q.mem.gate == p.mem.gate
      && (Stands(p) ==> Stands(q)) && (Carried(p) && Saved(p) ==> Saved(q))
    decreases |rs|
  {
    if rs != [] {
      RecordKeeps(p, rs[0].op, rs[0].ok);
      RecordAllKeeps(RecordOps(p, rs[0].op, rs[0].ok), rs[1..]);
    }
  }

  /** A breadcrumb the memory would write now stands for it. */
  lemma CurrentStands(p: Process)
    requires Base(p) && Current(p)
    ensures Stands(p)
  {}

  lemma ClearKeeps(p: Process, unlinkOk: bool)
    requires Base(p) && Carried(p) && Saved(p) && ClearSafe(p, unlinkOk)
    ensures Settled(ClearCrumb(p, unlinkOk)) && ClearCrumb(p, unlinkOk).mem == p.mem
  {
    TouchKeepsOk(p, p.disk.(crumb := None));
    if p.mem.saveFailed || p.mem.unrecorded != [] { CurrentStands(p); }
  }

  lemma ClearStandsIff(p: Process, unlinkOk: bool)
    requires Base(p) && Carried(p) && Saved(p)
    ensures Stands(ClearCrumb(p, unlinkOk)) <==> ClearSafe(p, unlinkOk)
    ensures ClearCrumb(p, unlinkOk).mem == p.mem
  {
    if p.mem.saveFailed || p.mem.unrecorded != [] { CurrentStands(p); }
  }

  lemma SaveCoreKeeps(p: Process, ok: bool)
    requires Base(p) && (p.mem.saved == Some(p.mem.gate) ==> Carried(p))
    ensures var q := SaveCore(p, ok); Base(q) && Carried(q) && Saved(q) && q.mem.gate == p.mem.gate
  {
    var m := p.mem;
    if m.saved == Some(m.gate) {
    } else if ok {
      var d := p.disk.(states := p.disk.states + [m.gate]);
      var p1 := Touch(p.(mem := m.(savedId := LatestId(d), saved := Some(m.gate), saveFailed := false)), d);
      TouchKeepsOk(p, d);
      if m.unrecorded != [] { TouchKeepsOk(p1, WriteCrumb(p1).disk); }
    } else {
      TouchKeepsOk(p, SaveCore(p, ok).disk);
    }
  }

  lemma SaveSettles(p: Process, ok: bool, unlinkOk: bool)
    requires Base(p) && (p.mem.saved == Some(p.mem.gate) ==> Carried(p)) && SaveSafe(p, ok, unlinkOk)
    ensures Settled(SaveState(p, ok, unlinkOk)) && SaveState(p, ok, unlinkOk).mem.gate == p.mem.gate
  {
    SaveCoreKeeps(p, ok);
    ClearKeeps(SaveCore(p, ok), unlinkOk);
  }

  lemma {:induction false} RetryLoopKeeps(p: Process, n: nat)
    requires Base(p) && Carried(p) && Saved(p)
    ensures var q := RetryLoop(p, n); Base(q) && Carried(q) && Saved(q) && q.mem.gate == p.mem.gate
    decreases n
  {
    var m := p.mem;
    if m.unrecorded != [] && n > 0 {
      var p1 := Touch(p.(mem := m.(unrecorded := m.unrecorded[1..])), InsertOp(p.disk, m.unrecorded[0]));
      TouchKeepsOk(p.(mem := p1.mem), p1.disk);
      var next := if p1.mem.unrecorded != [] || m.saveFailed then WriteCrumb(p1) else p1;
      TouchKeepsOk(p1, WriteCrumb(p1).disk);
      RetryLoopKeeps(next, n - 1);
    }
  }

  lemma RetrySettles(p: Process, n: nat, unlinkOk: bool)
    requires Base(p) && Carried(p) && Saved(p) && ClearSafe(RetryLoop(p, n), unlinkOk)
    ensures Settled(RetryOps(p, n, unlinkOk)) && RetryOps(p, n, unlinkOk).mem.gate == p.mem.gate
  {
    RetryLoopKeeps(p, n);
    ClearKeeps(RetryLoop(p, n), unlinkOk);
  }

  lemma BootIsBase(d: Disk, blank: GateState)
    requires DiskOk(d)
    ensures Base(Boot(d, blank))
  {}

  lemma BootTrip(d: Disk, blank: GateState)
    requires DiskOk(d) && blank.kill.tripped.None?
    ensures Boot(d, blank).mem.gate.kill.tripped == RestartTrip(d) && Boot(d, blank).mem.saved.None?
    ensures d.crumb.None? ==> Carried(Boot(d, blank)) && Saved(Boot(d, blank)) && Stands(Boot(d, blank))
  {}

  /** A restart from any durable state settles again, with the trip that state stands for. */
  lemma RestartSettles(d: Disk, x: RestartScript)
    requires DiskOk(d) && RestartSafe(d, x)
    ensures Settled(Restart(d, x)) && Restart(d, x).mem.gate.kill.tripped == RestartTrip(d)
  {
    hide Boot, Base, Carried, Saved, Stands, SaveState, RetryOps, RecordOps, ClearSafe, RetryLoop, DiskOk, RestartTrip;
    var p := Boot(d, x.blank);
    BootIsBase(d, x.blank);
    BootTrip(d, x.blank);
    if d.crumb.Some? {
      var p1 := SaveState(p, x.saveOk, x.unlinkOk);
      SaveSettles(p, x.saveOk, x.unlinkOk);
      RetrySettles(p1, x.retries, x.unlinkOk2);
      RecordKeeps(RetryOps(p1, x.retries, x.unlinkOk2), x.note, x.noteOk);
    }
  }

  lemma CrashPointOk(p: Process, k: nat)
    requires Base(p)
    ensures DiskOk(CrashPoint(p, k))
  {
    assert DiskOk(p.visited[|p.visited| - 1]);
  }

  lemma CallbackSettles(p: Process, i: Input)
    requires Settled(p) && InputOk(p, i)
    ensures Settled(Callback(p, i))
  {
    match i
    case Change(g, recs, saveOk, unlinkOk) =>
      var p0 := Begin(p).(mem := p.mem.(gate := g));
      assert Base(p0);
      RecordAllKeeps(p0, recs);
      SaveSettles(BeforeSave(p, i), saveOk, unlinkOk);
    case Note(g, recs) =>
      var p0 := Begin(p).(mem := p.mem.(gate := g));
      assert Base(p0) && Carried(p0) && Stands(p0) && Saved(p0);
      RecordAllKeeps(p0, recs);
    case Tick(n, unlinkOk, saveOk, unlinkOk2) =>
      assert Settled(Begin(p));
      RetrySettles(Begin(p), n, unlinkOk);
      if RetryOps(Begin(p), n, unlinkOk).mem.saveFailed {
        SaveSettles(RetryOps(Begin(p), n, unlinkOk), saveOk, unlinkOk2);
      }
    case CrashAt(k, x) =>
      CrashPointOk(p, k);
      RestartSettles(CrashPoint(p, k), x);
  }

  function FirstStart(blank: GateState): Process {
    var d := Disk([], [], None);
    Process(Memory(blank, None, None, false, []), d, [d])
  }

  lemma {:induction false} RunSettles(p: Process, ins: seq<Input>)
    requires Settled(p) && RunOk(p, ins)
    ensures Settled(Run(p, ins))
    decreases |ins|
  {
    if ins != [] {
      RunSettles(p, ins[..|ins| - 1]);
      CallbackSettles(Run(p, ins[..|ins| - 1]), ins[|ins| - 1]);
    }
  }

  /** Main theorem. After any run of callbacks, whatever the database refused and wherever the process died on the
      way, a restart finds exactly the switch in memory at the end of the last callback: no trip is lost and none that was
      released comes back, provided each failed deletion left what stands for the switch. And no operator event has more
      than one row, in any durable state on the way. */
  lemma TripSurvives(blank: GateState, ins: seq<Input>)
    requires blank.kill.tripped.None? && RunOk(FirstStart(blank), ins)
    ensures var p := Run(FirstStart(blank), ins);
      && RestartTrip(p.disk) == p.mem.gate.kill.tripped
      && (forall i :: 0 <= i < |p.visited| ==> OncePerId(p.visited[i].ops))
  {
    RunSettles(FirstStart(blank), ins);
    var p := Run(FirstStart(blank), ins);
    forall i | 0 <= i < |p.visited| ensures OncePerId(p.visited[i].ops) {
      assert DiskOk(p.visited[i]);
    }
  }

  // ---------------------------------------------------------------- the whole gate

  /** The gate a restart comes back with. */
  function RestartGate(d: Disk, x: RestartScript): GateState {
    Restart(d, x).mem.gate
  }

  /** As it stands in memory, but paused if a breadcrumb was found. */
  function Resumed(g: GateState, found: bool): GateState {
    if found then g.(pausedBy := Some(RESTART_PAUSE)) else g
  }

  lemma StartsFrom(d: Disk, x: RestartScript)
    requires DiskOk(d)
    ensures
      RestartGate(d, x) == Resumed(if d.crumb.Some? && !Quarantined(d) then d.crumb.value.gate
                                   else if d.states == [] then x.blank else d.states[|d.states| - 1], d.crumb.Some?)
  {
    hide Base, Carried, Saved, SaveState, RetryOps, RecordOps;
    if d.crumb.Some? {
      var p := Boot(d, x.blank);
      SaveKeepsGate(p, x.saveOk, x.unlinkOk);
      RetryKeepsGate(SaveState(p, x.saveOk, x.unlinkOk), x.retries, x.unlinkOk2);
      RecordKeepsSaved(RetryOps(SaveState(p, x.saveOk, x.unlinkOk), x.retries, x.unlinkOk2), x.note, x.noteOk);
    }
  }

  lemma SaveKeepsGate(p: Process, ok: bool, unlinkOk: bool)
    ensures SaveState(p, ok, unlinkOk).mem.gate == p.mem.gate
  {}

  lemma {:induction false} RetryLoopKeepsGate(p: Process, n: nat)
    ensures RetryLoop(p, n).mem.gate == p.mem.gate
    decreases n
  {
    var m := p.mem;
    if m.unrecorded != [] && n > 0 {
      var p1 := Touch(p.(mem := m.(unrecorded := m.unrecorded[1..])), InsertOp(p.disk, m.unrecorded[0]));
      RetryLoopKeepsGate(if p1.mem.unrecorded != [] || m.saveFailed then WriteCrumb(p1) else p1, n - 1);
    }
  }

  lemma RetryKeepsGate(p: Process, n: nat, unlinkOk: bool)
    ensures RetryOps(p, n, unlinkOk).mem.gate == p.mem.gate
  {
    RetryLoopKeepsGate(p, n);
  }

  lemma RecordKeepsSaved(p: Process, op: Op, ok: bool)
    ensures var m := RecordOps(p, op, ok).mem; m.gate == p.mem.gate && m.saved == p.mem.saved
  {}

  lemma {:induction false} RecordAllKeepsSaved(p: Process, rs: seq<Recorded>)
    ensures var m := RecordAll(p, rs).mem; m.gate == p.mem.gate && m.saved == p.mem.saved
    decreases |rs|
  {
    hide RecordOps;
    if rs != [] {
      RecordKeepsSaved(p, rs[0].op, rs[0].ok);
      RecordAllKeepsSaved(RecordOps(p, rs[0].op, rs[0].ok), rs[1..]);
    }
  }

  /** A gate that is not the one saved last is in the database or in the breadcrumb after a save, as it is. */
  lemma SavedWhole(p: Process, ok: bool, x: RestartScript)
    requires Base(p) && p.mem.saved != Some(p.mem.gate)
    ensures var d := SaveState(p, ok, true).disk;
      DiskOk(d) && RestartGate(d, x) == Resumed(p.mem.gate, d.crumb.Some?)
  {
    hide Restart, Boot, RestartGate;
    var q := SaveState(p, ok, true);
    SaveCoreKeeps(p, ok);
    TouchKeepsOk(SaveCore(p, ok), SaveCore(p, ok).disk.(crumb := None));
    assert DiskOk(q.disk);
    StartsFrom(q.disk, x);
  }

  /** Main lemma on the whole gate: pause, comparisons, engine blocks and notices as well as the switch. After a callback that
      changes it, wherever the database refused, and a due deletion that succeeded, a restart comes back with the gate in
      memory, and paused if there was anything the database did not have. */
  lemma GateSurvives(blank: GateState, ins: seq<Input>, i: Input, x: RestartScript)
    requires blank.kill.tripped.None? && RunOk(FirstStart(blank), ins) && i.Change? && i.unlinkOk
    requires Run(FirstStart(blank), ins).mem.saved != Some(i.gate)
    ensures var q := Callback(Run(FirstStart(blank), ins), i);
      && RestartGate(q.disk, x) == Resumed(i.gate, q.disk.crumb.Some?)
      && (q.disk.crumb.Some? <==> q.mem.saveFailed || q.mem.unrecorded != [])
  {
    hide RunOk, Run, Base, Carried, Saved, RecordAll, SaveState, Restart;
    FirstIsSettled(blank);
    RunSettles(FirstStart(blank), ins);
    var p := Run(FirstStart(blank), ins);
    BeginBase(p, i.gate);
    var p0 := Begin(p).(mem := p.mem.(gate := i.gate));
    RecordAllBase(p0, i.recs);
    RecordAllKeepsSaved(p0, i.recs);
    SavedWhole(BeforeSave(p, i), i.saveOk, x);
    CrumbIff(BeforeSave(p, i), i.saveOk);
  }

  lemma {:induction false} RecordAllBase(p: Process, rs: seq<Recorded>)
    requires Base(p)
    ensures Base(RecordAll(p, rs))
    decreases |rs|
  {
    hide RecordOps, Base;
    if rs != [] {
      RecordKeeps(p, rs[0].op, rs[0].ok);
      RecordAllBase(RecordOps(p, rs[0].op, rs[0].ok), rs[1..]);
    }
  }

  lemma CrumbIff(p: Process, ok: bool)
    requires p.mem.saved != Some(p.mem.gate)
    ensures var q := SaveState(p, ok, true); q.disk.crumb.Some? <==> q.mem.saveFailed || q.mem.unrecorded != []
  {}

  // ---------------------------------------------------------------- a startup fails closed

  /** A row was saved after the one the breadcrumb goes on from. */
  predicate Overtaken(d: Disk) {
    d.crumb.Some? && d.crumb.value.base.Some? && |d.states| > d.crumb.value.base.value + 1
  }

  /** From any durable state whatever: a startup is tripped exactly if the breadcrumb is, or if the last row is and there is no
      breadcrumb or an overtaken one. A trip only one of them has is never missed, but for a row a newer breadcrumb releases. */
  lemma StartsTrippedIff(d: Disk)
    ensures
      var row := if d.states == [] then None else d.states[|d.states| - 1].kill.tripped;
      && (RestartTrip(d).Some? <==> (d.crumb.Some? && d.crumb.value.gate.kill.tripped.Some?)
                                    || (row.Some? && (d.crumb.None? || Overtaken(d))))
      && (RestartTrip(d).Some? ==> RestartTrip(d) == row || (d.crumb.Some? && RestartTrip(d) == d.crumb.value.gate.kill.tripped))
      && (row.Some? && Overtaken(d) ==> RestartTrip(d) == row)
  {}

  // ---------------------------------------------------------------- when the database answers again

  lemma {:induction false} RetryDrains(p: Process, n: nat)
    requires n >= |p.mem.unrecorded|
    ensures
      var q := RetryLoop(p, n);
      && q.mem == p.mem.(unrecorded := []) && q.disk.states == p.disk.states
      && (forall op :: op in p.disk.ops || op in p.mem.unrecorded ==> op in q.disk.ops)
    decreases n
  {
    var m := p.mem;
    if m.unrecorded != [] {
      var p1 := Touch(p.(mem := m.(unrecorded := m.unrecorded[1..])), InsertOp(p.disk, m.unrecorded[0]));
      RetryDrains(if p1.mem.unrecorded != [] || m.saveFailed then WriteCrumb(p1) else p1, n - 1);
      forall op | op in m.unrecorded ensures op == m.unrecorded[0] || op in m.unrecorded[1..] {}
    }
  }

  /** A tick during which everything succeeds leaves nothing outside the database: the events are in it, so is a gate that had
      not been saved, and the breadcrumb is gone. */
  lemma TickCatchesUp(p: Process, i: Input)
    requires Base(p) && i.Tick? && i.saveOk && i.unlinkOk && i.unlinkOk2 && i.retries >= |p.mem.unrecorded|
    ensures
      var q := Callback(p, i);
      && q.mem.gate == p.mem.gate && !q.mem.saveFailed && q.mem.unrecorded == [] && q.disk.crumb.None?
      && (forall op :: op in p.disk.ops || op in p.mem.unrecorded ==> op in q.disk.ops)
      && (p.mem.saveFailed ==> q.disk.states != [] && q.disk.states[|q.disk.states| - 1] == p.mem.gate)
  {
    RetryDrains(Begin(p), i.retries);
    hide RetryLoop;
  }

  // ---------------------------------------------------------------- failed deletions

  /** Main lemma on deletions, at every reachable state. After a callback that saves or retries, a restart finds the
      switch in memory if and only if a deletion that was due succeeded, or found no file, or left one that the id
      comparison sets aside or that carries the same trip. */
  lemma FailedUnlinkIff(blank: GateState, ins: seq<Input>, i: Input)
    requires blank.kill.tripped.None? && RunOk(FirstStart(blank), ins) && (i.Change? || i.Tick?)
    requires i.Change? ==> i.gate.kill.tripped == Run(FirstStart(blank), ins).mem.gate.kill.tripped || i.recs != []
    ensures var p := Run(FirstStart(blank), ins);
      RestartTrip(Callback(p, i).disk) == Callback(p, i).mem.gate.kill.tripped <==> InputOk(p, i)
  {
    hide RunOk, Run, Base, Carried, Saved, RetryLoop, RecordAll, SaveCore, ClearCrumb;
    FirstIsSettled(blank);
    RunSettles(FirstStart(blank), ins);
    var p := Run(FirstStart(blank), ins);
    match i
    case Change(g, recs, saveOk, unlinkOk) =>
      BeginBase(p, g);
      RecordAllKeeps(Begin(p).(mem := p.mem.(gate := g)), recs);
      SaveCoreKeeps(BeforeSave(p, i), saveOk);
      ClearStandsIff(SaveCore(BeforeSave(p, i), saveOk), unlinkOk);
    case Tick(n, unlinkOk, saveOk, unlinkOk2) =>
      BeginBase(p, p.mem.gate);
      RetryLoopKeeps(Begin(p), n);
      var q := RetryLoop(Begin(p), n);
      ClearStandsIff(q, unlinkOk);
      if q.mem.saveFailed {
        ClearNotDue(q, unlinkOk);
        SaveCoreKeeps(q, saveOk);
        ClearStandsIff(SaveCore(q, saveOk), unlinkOk2);
      }
  }

  lemma FirstIsSettled(blank: GateState)
    requires blank.kill.tripped.None?
    ensures Settled(FirstStart(blank))
  {}

  lemma BeginBase(p: Process, g: GateState)
    requires Settled(p)
    ensures Base(Begin(p).(mem := p.mem.(gate := g)))
    ensures g.kill.tripped == p.mem.gate.kill.tripped ==>
      Carried(Begin(p).(mem := p.mem.(gate := g))) && Saved(Begin(p).(mem := p.mem.(gate := g)))
    ensures Begin(p).(mem := p.mem.(gate := p.mem.gate)) == Begin(p)
  {}

  lemma ClearNotDue(p: Process, unlinkOk: bool)
    requires p.mem.saveFailed
    ensures ClearCrumb(p, unlinkOk) == p
  {}

  // ---------------------------------------------------------------- a crash inside a callback

  /** A restart from `d` finds trip `a` or trip `b`. */
  predicate Reads(d: Disk, a: Option<Trip>, b: Option<Trip>) {
    RestartTrip(d) == a || RestartTrip(d) == b
  }

  predicate AllRead(ds: seq<Disk>, a: Option<Trip>, b: Option<Trip>) {
    forall i :: 0 <= i < |ds| ==> Reads(ds[i], a, b)
  }

  /** Every durable state so far reads as the trip before the callback or the trip now in memory. */
  predicate Atomic(p: Process, a: Option<Trip>) {
    var b := p.mem.gate.kill.tripped;
    && Base(p) && AllRead(p.visited, a, b)
    && (p.disk.crumb.Some? ==> p.disk.crumb.value.gate.kill.tripped == a || p.disk.crumb.value.gate.kill.tripped == b)
  }

  lemma TouchReads(p: Process, d: Disk, a: Option<Trip>)
    requires AllRead(p.visited, a, p.mem.gate.kill.tripped) && Reads(d, a, p.mem.gate.kill.tripped)
    ensures AllRead(Touch(p, d).visited, a, p.mem.gate.kill.tripped)
  {}

  lemma RecordAtomic(p: Process, op: Op, ok: bool, a: Option<Trip>)
    requires Atomic(p, a)
    ensures Atomic(RecordOps(p, op, ok), a)
  {
    RecordKeeps(p, op, ok);
    var q := RecordOps(p, op, ok);
    assert Reads(p.disk, a, p.mem.gate.kill.tripped);
    TouchReads(p.(mem := q.mem), q.disk, a);
  }

  lemma {:induction false} RecordAllAtomic(p: Process, rs: seq<Recorded>, a: Option<Trip>)
    requires Atomic(p, a)
    ensures Atomic(RecordAll(p, rs), a) && RecordAll(p, rs).mem.gate == p.mem.gate
    decreases |rs|
  {
    if rs != [] {
      RecordAtomic(p, rs[0].op, rs[0].ok, a);
      RecordAllAtomic(RecordOps(p, rs[0].op, rs[0].ok), rs[1..], a);
    }
  }

  lemma ClearAtomic(p: Process, unlinkOk: bool, a: Option<Trip>)
    requires Atomic(p, a) && Saved(p)
    ensures Atomic(ClearCrumb(p, unlinkOk), a)
  {
    TouchKeepsOk(p, p.disk.(crumb := None));
    if !p.mem.saveFailed { TouchReads(p, p.disk.(crumb := None), a); }
  }

  lemma SaveCoreAtomic(p: Process, ok: bool, a: Option<Trip>)
    requires Atomic(p, a) && (p.mem.saved == Some(p.mem.gate) ==> Carried(p))
    ensures Atomic(SaveCore(p, ok), a)
  {
    var m := p.mem;
    SaveCoreKeeps(p, ok);
    if m.saved == Some(m.gate) {
    } else if ok {
      var d := p.disk.(states := p.disk.states + [m.gate]);
      var p1 := Touch(p.(mem := m.(savedId := LatestId(d), saved := Some(m.gate), saveFailed := false)), d);
      TouchReads(p, d, a);
      if m.unrecorded != [] { TouchReads(p1, WriteCrumb(p1).disk, a); }
    } else {
      TouchReads(p.(mem := m.(saveFailed := true)), SaveCore(p, ok).disk, a);
    }
  }

  lemma SaveAtomic(p: Process, ok: bool, unlinkOk: bool, a: Option<Trip>)
    requires Atomic(p, a) && (p.mem.saved == Some(p.mem.gate) ==> Carried(p))
    ensures Atomic(SaveState(p, ok, unlinkOk), a)
  {
    SaveCoreKeeps(p, ok);
    SaveCoreAtomic(p, ok, a);
    ClearAtomic(SaveCore(p, ok), unlinkOk, a);
  }

  lemma {:induction false} RetryLoopAtomic(p: Process, n: nat, a: Option<Trip>)
    requires Atomic(p, a) && Carried(p) && Saved(p)
    ensures Atomic(RetryLoop(p, n), a)
    decreases n
  {
    var m := p.mem;
    if m.unrecorded != [] && n > 0 {
      var p1 := Touch(p.(mem := m.(unrecorded := m.unrecorded[1..])), InsertOp(p.disk, m.unrecorded[0]));
      RetryLoopKeeps(p, 1);
      assert Reads(p.disk, a, m.gate.kill.tripped);
      TouchReads(p.(mem := p1.mem), p1.disk, a);
      var next := if p1.mem.unrecorded != [] || m.saveFailed then WriteCrumb(p1) else p1;
      TouchReads(p1, WriteCrumb(p1).disk, a);
      assert RetryLoop(next, 0) == next;
      RetryLoopAtomic(next, n - 1, a);
    }
  }

  lemma RetryAtomic(p: Process, n: nat, unlinkOk: bool, a: Option<Trip>)
    requires Atomic(p, a) && Carried(p) && Saved(p)
    ensures Atomic(RetryOps(p, n, unlinkOk), a)
  {
    RetryLoopKeeps(p, n);
    RetryLoopAtomic(p, n, a);
    ClearAtomic(RetryLoop(p, n), unlinkOk, a);
  }

  /** A startup interrupted anywhere, and started again, finds the same trip. */
  lemma RestartIsAtomic(d: Disk, x: RestartScript)
    requires DiskOk(d) && RestartSafe(d, x)
    ensures AllRead(Restart(d, x).visited, RestartTrip(d), RestartTrip(d))
  {
    var p, a := Boot(d, x.blank), RestartTrip(d);
    assert Atomic(p, a);
    if d.crumb.Some? {
      var p1 := SaveState(p, x.saveOk, x.unlinkOk);
      SaveSettles(p, x.saveOk, x.unlinkOk);
      SaveAtomic(p, x.saveOk, x.unlinkOk, a);
      RetrySettles(p1, x.retries, x.unlinkOk2);
      RetryAtomic(p1, x.retries, x.unlinkOk2, a);
      RecordAtomic(RetryOps(p1, x.retries, x.unlinkOk2), x.note, x.noteOk, a);
      RestartSettles(d, x);
    }
  }

  /** A crash anywhere inside a callback reads as the trip before it or after it, unless an older breadcrumb, left by a
      failed deletion, carries yet another one. */
  lemma CallbackIsAtomic(p: Process, i: Input)
    requires Settled(p) && InputOk(p, i) && !i.CrashAt?
    requires p.disk.crumb.Some? ==>
      var trip := p.disk.crumb.value.gate.kill.tripped;
      trip == p.mem.gate.kill.tripped || trip == Callback(p, i).mem.gate.kill.tripped
    ensures AllRead(Callback(p, i).visited, p.mem.gate.kill.tripped, Callback(p, i).mem.gate.kill.tripped)
  {
    hide Base, Carried, Saved, Stands, RestartTrip, SaveState, RetryOps, RecordAll, ClearSafe;
    var a := p.mem.gate.kill.tripped;
    CallbackGate(p, i);
    match i
    case Change(g, recs, saveOk, unlinkOk) =>
      BeginAtomic(p, g);
      var p0 := Begin(p).(mem := p.mem.(gate := g));
      RecordAllAtomic(p0, recs, a);
      RecordAllKeeps(p0, recs);
      SaveAtomic(BeforeSave(p, i), saveOk, unlinkOk, a);
    case Note(g, recs) =>
      BeginAtomic(p, g);
      RecordAllAtomic(Begin(p).(mem := p.mem.(gate := g)), recs, a);
    case Tick(n, unlinkOk, saveOk, unlinkOk2) =>
      BeginAtomic(p, p.mem.gate);
      BeginSettled(p);
      RetryAtomic(Begin(p), n, unlinkOk, a);
      RetrySettles(Begin(p), n, unlinkOk);
      if RetryOps(Begin(p), n, unlinkOk).mem.saveFailed { SaveAtomic(RetryOps(Begin(p), n, unlinkOk), saveOk, unlinkOk2, a); }
  }

  lemma BeginSettled(p: Process)
    requires Settled(p)
    ensures Settled(Begin(p))
  {}

  lemma BeginAtomic(p: Process, g: GateState)
    requires Settled(p)
    requires p.disk.crumb.Some? ==>
      var trip := p.disk.crumb.value.gate.kill.tripped; trip == p.mem.gate.kill.tripped || trip == g.kill.tripped
    ensures var p0 := Begin(p).(mem := p.mem.(gate := g));
      Atomic(p0, p.mem.gate.kill.tripped) && (g == p.mem.gate ==> Begin(p) == p0)
    ensures Base(Begin(p).(mem := p.mem.(gate := g)))
    ensures g.kill.tripped == p.mem.gate.kill.tripped ==> Carried(Begin(p).(mem := p.mem.(gate := g)))
  {}

  /** The switch in memory after a callback. */
  lemma CallbackGate(p: Process, i: Input)
    requires Settled(p) && InputOk(p, i) && !i.CrashAt?
    ensures Callback(p, i).mem.gate.kill.tripped == if i.Tick? then p.mem.gate.kill.tripped else i.gate.kill.tripped
  {
    match i
    case Change(g, recs, saveOk, unlinkOk) =>
      var p0 := Begin(p).(mem := p.mem.(gate := g));
      assert Base(p0);
      RecordAllKeeps(p0, recs);
      SaveSettles(BeforeSave(p, i), saveOk, unlinkOk);
    case Note(g, recs) =>
      var p0 := Begin(p).(mem := p.mem.(gate := g));
      assert Base(p0) && Carried(p0);
      RecordAllKeeps(p0, recs);
    case Tick(n, unlinkOk, saveOk, unlinkOk2) =>
      assert Settled(Begin(p));
      RetrySettles(Begin(p), n, unlinkOk);
      if RetryOps(Begin(p), n, unlinkOk).mem.saveFailed { SaveSettles(RetryOps(Begin(p), n, unlinkOk), saveOk, unlinkOk2); }
  }

  // ---------------------------------------------------------------- operator events

  predicate Holds(d: Disk, o: Op) {
    o in d.ops || (d.crumb.Some? && o in d.crumb.value.ops)
  }

  predicate AllHold(ds: seq<Disk>, o: Op) {
    forall i :: 0 <= i < |ds| ==> Holds(ds[i], o)
  }

  /** The breadcrumb carries what the database lacks, and nothing the memory has dropped. */
  predicate OpsCovered(p: Process) {
    && p.visited != [] && p.visited[|p.visited| - 1] == p.disk
    && (p.mem.unrecorded != [] ==> p.disk.crumb.Some? && p.disk.crumb.value.ops == p.mem.unrecorded)
    && (p.disk.crumb.Some? ==> forall o :: o in p.disk.crumb.value.ops ==> o in p.disk.ops || o in p.mem.unrecorded)
  }

  predicate Kept(p: Process, o: Op) {
    o in p.disk.ops || o in p.mem.unrecorded
  }

  lemma HeldIsKept(p: Process, o: Op)
    requires OpsCovered(p)
    ensures Holds(p.disk, o) <==> Kept(p, o)
  {}

  lemma RecordHolds(p: Process, op: Op, ok: bool, o: Op)
    requires OpsCovered(p)
    ensures var q := RecordOps(p, op, ok);
      && OpsCovered(q) && Kept(q, op) && (Kept(p, o) ==> Kept(q, o))
      && (Kept(p, o) && AllHold(p.visited, o) ==> AllHold(q.visited, o))
  {
    var q := RecordOps(p, op, ok);
    if Kept(p, o) { assert Holds(q.disk, o); }
  }

  lemma {:induction false} RecordAllHolds(p: Process, rs: seq<Recorded>, o: Op)
    requires OpsCovered(p)
    ensures var q := RecordAll(p, rs);
      && OpsCovered(q) && (Kept(p, o) || (exists i :: 0 <= i < |rs| && rs[i].op == o) ==> Kept(q, o))
      && (Kept(p, o) && AllHold(p.visited, o) ==> AllHold(q.visited, o))
    decreases |rs|
  {
    if rs != [] {
      RecordHolds(p, rs[0].op, rs[0].ok, o);
      RecordAllHolds(RecordOps(p, rs[0].op, rs[0].ok), rs[1..], o);
      if i :| 0 <= i < |rs| && rs[i].op == o {
        if i > 0 { assert rs[1..][i - 1].op == o; }
      }
    }
  }

  lemma ClearHolds(p: Process, unlinkOk: bool, o: Op)
    requires OpsCovered(p)
    ensures var q := ClearCrumb(p, unlinkOk);
      && OpsCovered(q) && (Kept(p, o) ==> Kept(q, o)) && (Kept(p, o) && AllHold(p.visited, o) ==> AllHold(q.visited, o))
  {}

  lemma SaveHolds(p: Process, ok: bool, unlinkOk: bool, o: Op)
    requires OpsCovered(p)
    ensures var q := SaveState(p, ok, unlinkOk);
      && OpsCovered(q) && (Kept(p, o) ==> Kept(q, o)) && (Kept(p, o) && AllHold(p.visited, o) ==> AllHold(q.visited, o))
  {
    ClearHolds(SaveCore(p, ok), unlinkOk, o);
  }

  /** The same for a startup that has just set a breadcrumb aside: its events are in memory only, and the first
      save, whether it succeeds or not, writes them back. */
  lemma SaveRecovers(p: Process, ok: bool, unlinkOk: bool, o: Op)
    requires p.visited != [] && p.disk.crumb.None? && p.mem.saved.None?
    ensures OpsCovered(SaveState(p, ok, unlinkOk)) && (Kept(p, o) ==> Kept(SaveState(p, ok, unlinkOk), o))
    ensures o in p.disk.ops && AllHold(p.visited, o) ==> AllHold(SaveState(p, ok, unlinkOk).visited, o)
  {}

  lemma {:induction false} RetryLoopHolds(p: Process, n: nat, o: Op)
    requires OpsCovered(p)
    ensures var q := RetryLoop(p, n);
      && OpsCovered(q) && (Kept(p, o) ==> Kept(q, o)) && (Kept(p, o) && AllHold(p.visited, o) ==> AllHold(q.visited, o))
    decreases n
  {
    var m := p.mem;
    if m.unrecorded != [] && n > 0 {
      var rest := m.unrecorded[1..];
      assert m.unrecorded == [m.unrecorded[0]] + rest;
      var p1 := Touch(p.(mem := m.(unrecorded := rest)), InsertOp(p.disk, m.unrecorded[0]));
      var next := if p1.mem.unrecorded != [] || m.saveFailed then WriteCrumb(p1) else p1;
      assert OpsCovered(next);
      if Kept(p, o) { assert Holds(p1.disk, o) && Kept(p1, o) && Holds(next.disk, o); }
      RetryLoopHolds(next, n - 1, o);
    }
  }

  lemma RetryHolds(p: Process, n: nat, unlinkOk: bool, o: Op)
    requires OpsCovered(p)
    ensures var q := RetryOps(p, n, unlinkOk);
      && OpsCovered(q) && (Kept(p, o) ==> Kept(q, o)) && (Kept(p, o) && AllHold(p.visited, o) ==> AllHold(q.visited, o))
  {
    RetryLoopHolds(p, n, o);
    ClearHolds(RetryLoop(p, n), unlinkOk, o);
  }

  /** A startup keeps every event the durable state held. It is absent from both places on the way if and only if
      the breadcrumb was set aside and the event was in it alone. */
  lemma RestartHolds(d: Disk, x: RestartScript, o: Op)
    requires Holds(d, o)
    ensures OpsCovered(Restart(d, x)) && Holds(Restart(d, x).disk, o)
    ensures AllHold(Restart(d, x).visited, o) <==> !(Quarantined(d) && o !in d.ops)
  {
    var p := Boot(d, x.blank);
    hide SaveState, RetryOps, RecordOps;
    if d.crumb.Some? {
      var p1 := SaveState(p, x.saveOk, x.unlinkOk);
      if Quarantined(d) {
        SaveRecovers(p, x.saveOk, x.unlinkOk, o);
        VisitedGrow(p, x);
        assert Restart(d, x).visited[1] == p.visited[1];
      } else {
        SaveHolds(p, x.saveOk, x.unlinkOk, o);
      }
      RetryHolds(p1, x.retries, x.unlinkOk2, o);
      RecordHolds(RetryOps(p1, x.retries, x.unlinkOk2), x.note, x.noteOk, o);
      HeldIsKept(Restart(d, x), o);
    }
  }

  lemma {:induction false} RetryGrows(p: Process, n: nat)
    ensures p.visited <= RetryLoop(p, n).visited
    decreases n
  {
    var m := p.mem;
    if m.unrecorded != [] && n > 0 {
      var p1 := Touch(p.(mem := m.(unrecorded := m.unrecorded[1..])), InsertOp(p.disk, m.unrecorded[0]));
      RetryGrows(if p1.mem.unrecorded != [] || m.saveFailed then WriteCrumb(p1) else p1, n - 1);
    }
  }

  lemma VisitedGrow(p: Process, x: RestartScript)
    ensures p.visited
         <= RecordOps(RetryOps(SaveState(p, x.saveOk, x.unlinkOk), x.retries, x.unlinkOk2), x.note, x.noteOk).visited
  {
    RetryGrows(SaveState(p, x.saveOk, x.unlinkOk), x.retries);
  }

  lemma CallbackHolds(p: Process, i: Input, o: Op)
    requires OpsCovered(p) && !i.CrashAt?
    ensures OpsCovered(Callback(p, i))
    ensures Holds(p.disk, o) ==> AllHold(Callback(p, i).visited, o)
    ensures (i.Change? || i.Note?) && (exists j :: 0 <= j < |i.recs| && i.recs[j].op == o) ==> Holds(Callback(p, i).disk, o)
  {
    HeldIsKept(p, o);
    match i
    case Change(g, recs, saveOk, unlinkOk) =>
      RecordAllHolds(Begin(p).(mem := p.mem.(gate := g)), recs, o);
      SaveHolds(BeforeSave(p, i), saveOk, unlinkOk, o);
      HeldIsKept(Callback(p, i), o);
    case Note(g, recs) =>
      RecordAllHolds(Begin(p).(mem := p.mem.(gate := g)), recs, o);
      HeldIsKept(Callback(p, i), o);
    case Tick(n, unlinkOk, saveOk, unlinkOk2) =>
      RetryHolds(Begin(p), n, unlinkOk, o);
      if RetryOps(Begin(p), n, unlinkOk).mem.saveFailed { SaveHolds(RetryOps(Begin(p), n, unlinkOk), saveOk, unlinkOk2, o); }
  }

  predicate QuarantinesAt(p: Process, i: Input) {
    i.CrashAt? && Quarantined(CrashPoint(p, i.k))
  }

  /** A startup that set a breadcrumb aside is not itself interrupted before it is done. */
  predicate WindowFree(p: Process, ins: seq<Input>)
    decreases |ins|
  {
    ins == [] ||
    (var n := |ins| - 1;
     && WindowFree(p, ins[..n])
     && (n > 0 && QuarantinesAt(Run(p, ins[..n - 1]), ins[n - 1]) && ins[n].CrashAt? ==>
           ins[n].k == 0 || ins[n].k >= |Run(p, ins[..n]).visited| - 1))
  }

  /** An operator event whose callback has returned is never absent from both the database and the breadcrumb
      again, over any run that does not die inside a quarantine. */
  lemma {:induction false} OpNeverLost(p: Process, ins: seq<Input>, o: Op)
    requires OpsCovered(p) && AllHold(p.visited, o) && WindowFree(p, ins)
    ensures var q := Run(p, ins); OpsCovered(q) && Holds(q.disk, o) && Holds(q.visited[0], o)
    ensures AllHold(Run(p, ins).visited, o) || (ins != [] && QuarantinesAt(Run(p, ins[..|ins| - 1]), ins[|ins| - 1]))
    decreases |ins|
  {
    hide Restart, Holds;
    if ins == [] {
      assert Holds(p.visited[|p.visited| - 1], o) && Holds(p.visited[0], o);
    } else {
      var n := |ins| - 1;
      var q := Run(p, ins[..n]);
      OpNeverLost(p, ins[..n], o);
      if n > 0 {
        assert ins[..n][..n - 1] == ins[..n - 1] && ins[..n][n - 1] == ins[n - 1];
      }
      if ins[n].CrashAt? {
        var d := CrashPoint(q, ins[n].k);
        if !AllHold(q.visited, o) {
          assert ins[n].k == 0 || ins[n].k >= |q.visited| - 1;
          assert d == q.visited[0] || d == q.disk;
        }
        assert Holds(d, o);
        RestartHolds(d, ins[n].x, o);
        RestartVisits(d, ins[n].x);
      } else {
        CallbackHolds(q, ins[n], o);
        var r := Callback(q, ins[n]);
        assert r.visited != [] && Holds(r.visited[0], o) && Holds(r.visited[|r.visited| - 1], o);
      }
    }
  }

  lemma RestartVisits(d: Disk, x: RestartScript)
    ensures Restart(d, x).visited != [] && Restart(d, x).visited[0] == d
  {
    VisitedGrow(Boot(d, x.blank), x);
  }

  // ---------------------------------------------------------------- where the hypotheses are needed

  /** Dying inside a quarantine loses an event: the set-aside file is not read again. */
  lemma QuarantineWindowLosesOps(d: Disk, x: RestartScript, y: RestartScript, o: Op)
    requires Quarantined(d) && o in d.crumb.value.ops && o !in d.ops
    ensures 1 < |Restart(d, x).visited|
    ensures Holds(d, o) && !Holds(Restart(d, x).visited[1], o)
    ensures !Holds(Restart(Restart(d, x).visited[1], y).disk, o)
  {
    var p := Boot(d, x.blank);
    VisitedGrow(p, x);
    assert Restart(d, x).visited[1] == p.visited[1];
  }

  lemma RunTwo(p: Process, a: Input, b: Input)
    ensures Run(p, [a]) == Callback(p, a) && Run(p, [a, b]) == Callback(Callback(p, a), b)
    ensures RunOk(p, [a]) <==> InputOk(p, a)
  {
    assert [a, b][..1] == [a] && [a][..0] == [];
  }

  lemma RunThree(p: Process, a: Input, b: Input, c: Input)
    ensures Run(p, [a, b, c]) == Callback(Callback(Callback(p, a), b), c)
    ensures RunOk(p, [a, b]) <==> InputOk(p, a) && InputOk(Callback(p, a), b)
  {
    hide Callback, InputOk;
    RunTwo(p, a, b);
    assert [a, b, c][..2] == [a, b] && [a, b][..1] == [a];
  }

  lemma OneRecord(p: Process, r: Recorded)
    ensures RecordAll(p, [r]) == RecordOps(p, r.op, r.ok)
  {
    assert [r][1..] == [];
  }

  /** It happens from a first start. A gate is saved, the database refuses an event, the next save succeeds: between
      that save and the rewriting of the breadcrumb the older file is out of date. A death there, and another one right
      after the file has been set aside, lose the event that two callbacks had kept. */
  lemma QuarantineIsReachable(off: GateState, g: GateState, o: Op, x: RestartScript, y: RestartScript)
    requires off.kill.tripped.None? && g.kill.tripped.None? && g != off
    ensures
      var start, note, save := Change(off, [], true, true), Note(off, [Recorded(o, false)]), Change(g, [], true, true);
      var p, q := Run(FirstStart(off), [start, note]), Run(FirstStart(off), [start, note, save]);
      && RunOk(FirstStart(off), [start, note]) && InputOk(p, save)
      && Holds(p.disk, o) && Holds(q.disk, o)
      && 1 < |q.visited| && Quarantined(q.visited[1])
      && !Holds(Callback(Callback(q, CrashAt(1, x)), CrashAt(1, y)).disk, o)
  {
    var start, note, save := Change(off, [], true, true), Note(off, [Recorded(o, false)]), Change(g, [], true, true);
    hide Callback, InputOk, Holds, Quarantined;
    RunThree(FirstStart(off), start, note, save);
    RunTwo(FirstStart(off), start, note);
    RefusedNote(off, o);
    var q := Callback(Callback(FirstStart(off), start), note);
    SavedOverCrumb(q, off, g, o);
    var r := Callback(q, save);
    QuarantineWindowLosesOps(r.visited[1], x, y, o);
    TwoDeaths(r, x, y);
  }

  lemma TwoDeaths(p: Process, x: RestartScript, y: RestartScript)
    requires 1 < |p.visited| && 1 < |Restart(p.visited[1], x).visited|
    ensures Callback(Callback(p, CrashAt(1, x)), CrashAt(1, y)) == Restart(Restart(p.visited[1], x).visited[1], y)
  {
    hide Restart;
  }

  lemma RefusedNote(off: GateState, o: Op)
    requires off.kill.tripped.None?
    ensures
      var start, note := Change(off, [], true, true), Note(off, [Recorded(o, false)]);
      var p := Callback(FirstStart(off), start);
      var q := Callback(p, note);
      && InputOk(FirstStart(off), start) && InputOk(p, note)
      && q.mem == Memory(off, Some(off), Some(0), false, [o]) && q.disk == Disk([off], [], Some(Crumb(Some(0), off, [o])))
  {
    var start := Change(off, [], true, true);
    var p := Callback(FirstStart(off), start);
    assert p.mem == Memory(off, Some(off), Some(0), false, []) && p.disk == Disk([off], [], None);
    OneRecord(Begin(p).(mem := p.mem.(gate := off)), Recorded(o, false));
  }

  lemma SavedOverCrumb(q: Process, off: GateState, g: GateState, o: Op)
    requires q.mem == Memory(off, Some(off), Some(0), false, [o]) && q.disk == Disk([off], [], Some(Crumb(Some(0), off, [o])))
    requires off.kill.tripped.None? && g.kill.tripped.None? && g != off
    ensures
      var save := Change(g, [], true, true);
      var r := Callback(q, save);
      && InputOk(q, save) && r.visited == [q.disk, q.disk.(states := [off, g]), r.disk]
      && r.disk == Disk([off, g], [], Some(Crumb(Some(1), g, [o]))) && Quarantined(r.visited[1])
      && Holds(q.disk, o) && Holds(r.disk, o)
  {
    var save := Change(g, [], true, true);
    var p0 := Begin(q).(mem := q.mem.(gate := g));
    assert BeforeSave(q, save) == p0;
    var d := q.disk.(states := [off] + [g]);
    var p1 := Touch(p0.(mem := p0.mem.(savedId := Some(1), saved := Some(g))), d);
    assert SaveCore(p0, true) == WriteCrumb(p1);
    var r := WriteCrumb(p1);
    assert Callback(q, save) == r;
    assert d.states == [off, g] && r.visited == [q.disk] + [d] + [r.disk];
    assert r.disk.crumb == Some(Crumb(Some(1), g, [o]));
    assert LatestId(d) == Some(1) && LoadTrip(d).None?;
  }

  /** A trip lost. The very first save fails and leaves a breadcrumb that names no row; the switch trips, the next save
      succeeds, and the deletion fails: a restart always believes that breadcrumb. */
  lemma FailedUnlinkWithoutRowLosesTrip(on: GateState, off: GateState, o: Op)
    requires on.kill.tripped.Some? && off.kill.tripped.None?
    ensures
      var first, trip := Change(off, [], false, true), Change(on, [Recorded(o, true)], true, false);
      var q := Run(FirstStart(off), [first, trip]);
      && RunOk(FirstStart(off), [first])
      && q.mem.gate == on && !q.mem.saveFailed && RestartTrip(q.disk).None?
  {
    var first, trip := Change(off, [], false, true), Change(on, [Recorded(o, true)], true, false);
    RunTwo(FirstStart(off), first, trip);
    var p := Callback(FirstStart(off), first);
    assert p.disk.crumb == Some(Crumb(None, off, []));
    OneRecord(Begin(p).(mem := p.mem.(gate := on)), Recorded(o, true));
  }

  /** A released switch comes back. It trips while the database refuses the row, a person starts the bot again, which
      restores the saved state, and the deletion fails: the breadcrumb's base is the newest row. */
  lemma FailedUnlinkRevivesTrip(on: GateState, off: GateState, o: Op)
    requires on.kill.tripped.Some? && off.kill.tripped.None?
    ensures
      var start, trip := Change(off, [], true, true), Change(on, [Recorded(o, true)], false, true);
      var release := Change(off, [Recorded(o, true)], true, false);
      var q := Run(FirstStart(off), [start, trip, release]);
      && RunOk(FirstStart(off), [start, trip])
      && q.mem.gate == off && !q.mem.saveFailed && RestartTrip(q.disk) == on.kill.tripped
  {
    var start, trip := Change(off, [], true, true), Change(on, [Recorded(o, true)], false, true);
    var release := Change(off, [Recorded(o, true)], true, false);
    RunThree(FirstStart(off), start, trip, release);
    var p := Callback(FirstStart(off), start);
    assert p.mem == Memory(off, Some(off), Some(0), false, []) && p.disk == Disk([off], [], None);
    OneRecord(Begin(p).(mem := p.mem.(gate := on)), Recorded(o, true));
    var q := Callback(p, trip);
    assert q.mem == Memory(on, Some(off), Some(0), true, []) && q.disk.crumb == Some(Crumb(Some(0), on, []));
    OneRecord(Begin(q).(mem := q.mem.(gate := off)), Recorded(o, true));
  }

  // ---------------------------------------------------------------- the object

  /** The part of `BotRuntime` that keeps the gate and the operator log durable. The `bool` arguments say which
      database and file operations succeed. */
  class SafetyStore {
    var gate: GateState
    var saved: Option<GateState>
    var savedId: Option<nat>
    var saveFailed: bool
    var unrecorded: seq<Op>
    var disk: Disk
    ghost var visited: seq<Disk>

    ghost function State(): Process
      reads this
    {
      Process(Memory(gate, saved, savedId, saveFailed, unrecorded), disk, visited)
    }

    constructor (blank: GateState)
      ensures State() == FirstStart(blank)
    {
      gate, saved, savedId, saveFailed, unrecorded := blank, None, None, false, [];
      disk, visited := Disk([], [], None), [Disk([], [], None)];
    }

    method Put(d: Disk)
      modifies this`disk, this`visited
      ensures State() == Touch(old(State()), d)
    {
      disk := d;
      visited := visited + [d];
    }

    method WriteBreadcrumb()
      modifies this`disk, this`visited
      ensures State() == WriteCrumb(old(State()))
    {
      Put(disk.(crumb := Some(Crumb(savedId, gate, unrecorded))));
    }

    method ClearBreadcrumbIfDurable(unlinkOk: bool)
      modifies this`disk, this`visited
      ensures State() == ClearCrumb(old(State()), unlinkOk)
    {
      if saveFailed || unrecorded != [] { return; }
      if unlinkOk { Put(disk.(crumb := None)); }
    }

    method Save(ok: bool, unlinkOk: bool)
      modifies this
      ensures State() == SaveState(old(State()), ok, unlinkOk)
    {
      if saved == Some(gate) {
        saveFailed := false;
        ClearBreadcrumbIfDurable(unlinkOk);
        return;
      }
      if ok {
        Put(disk.(states := disk.states + [gate]));
        savedId, saved, saveFailed := Some(|disk.states| - 1), Some(gate), false;
        if unrecorded != [] { WriteBreadcrumb(); }
        ClearBreadcrumbIfDurable(unlinkOk);
      } else {
        saveFailed := true;
        WriteBreadcrumb();
      }
    }

    method Record(op: Op, ok: bool)
      modifies this
      ensures State() == RecordOps(old(State()), op, ok)
    {
      if unrecorded == [] && ok {
        Put(if op in disk.ops then disk else disk.(ops := disk.ops + [op]));
      } else {
        unrecorded := unrecorded + [op];
        WriteBreadcrumb();
      }
    }

    /** `_retry_unrecorded`: the insert after `n` successful ones fails. */
    method Retry(n: nat, unlinkOk: bool)
      modifies this
      ensures State() == RetryOps(old(State()), n, unlinkOk)
    {
      var left := n;
      while unrecorded != []
        invariant RetryLoop(State(), left) == RetryLoop(old(State()), n)
        decreases |unrecorded|
      {
        if left == 0 { break; }
        var op := unrecorded[0];
        Put(if op in disk.ops then disk else disk.(ops := disk.ops + [op]));
        unrecorded := unrecorded[1..];
        if unrecorded != [] || saveFailed { WriteBreadcrumb(); }
        left := left - 1;
      }
      ClearBreadcrumbIfDurable(unlinkOk);
    }
  }
}
