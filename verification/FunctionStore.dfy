/**
 Function rows in PostgreSQL against code on disk. Requests run concurrently; a step is one access to one
 of the two stores, and may fail. A request may end after any step.
 */
module FunctionStore {
  import opened Types
  import Timeouts

  type Code = seq<int>

  // SHA-256, taken to be free of collisions.
  datatype Digest = Digest(of: Code)

  // A path below the storage directory: a directory per function, and a file in it.
  datatype Location = Location(dir: Id, file: string)

  datatype CodeInfo = CodeInfo(source: Location, checksum: Digest, size: nat)

  datatype Function = Function(name: string, version: string, runtime: string, handler: string, code: CodeInfo,
                               timeout: int, memory: int, concurrency: int,
                               environment: map<string, string>, metadata: map<string, string>)

  // The lengths of the columns for names and handlers, and for versions and runtimes.
  const LONG: nat := 255
  const SHORT: nat := 50

  // What a row gives back of the function written to it.
  function Persisted(fn: Function): Function {
    fn.(name := Cut(fn.name, LONG), version := Cut(fn.version, SHORT), runtime := Cut(fn.runtime, SHORT),
        handler := Cut(fn.handler, LONG), timeout := Timeouts.Reloaded(fn.timeout))
  }

  // UPDATE leaves the name, the version and the runtime alone.
  function Overwritten(row: Function, fn: Function): Function {
    Persisted(fn).(name := row.name, version := row.version, runtime := row.runtime)
  }

  function CodeAt(id: Id): Location {
    Location(id, "code")
  }

  function InfoOf(id: Id, code: Code): CodeInfo {
    CodeInfo(CodeAt(id), Digest(code), |code|)
  }

  // The checks and types of the columns an UPDATE writes.
  predicate FitsUpdate(fn: Function) {
    && 0 < Timeouts.StoredSeconds(fn.timeout) <= Timeouts.MAX_INTEGER
    && 0 < fn.memory <= Timeouts.MAX_INTEGER && 0 < fn.concurrency <= Timeouts.MAX_INTEGER
    && FitsIn(fn.handler, LONG) && Clean(fn.handler) && AllClean(fn.environment) && AllClean(fn.metadata)
  }

  // Those of all columns.
  predicate Fits(fn: Function) {
    && FitsUpdate(fn)
    && FitsIn(fn.name, LONG) && FitsIn(fn.version, SHORT) && FitsIn(fn.runtime, SHORT)
    && Clean(fn.name) && Clean(fn.version) && Clean(fn.runtime)
  }

  // JSONB refuses a NUL in a key or a value.
  predicate AllClean(texts: map<string, string>) {
    forall key :: key in texts ==> Clean(key) && Clean(texts[key])
  }

  // Two functions of one name and version, as their columns keep them.
  predicate SameKey(row: Function, fn: Function) {
    row.name == Cut(fn.name, LONG) && row.version == Cut(fn.version, SHORT)
  }

  // The table's constraints on a new row.
  predicate Acceptable(rows: map<Id, Function>, fn: Function) {
    && (forall id :: id in rows ==> !SameKey(rows[id], fn))
    && Fits(fn)
  }

  // os.RemoveAll of the directory a location is in.
  function RemoveDir(files: map<Location, Code>, location: Location): map<Location, Code> {
    map l | l in files && l.dir != location.dir :: files[l]
  }

  // Where a request stands.
  datatype Pc =
    | Storing(id: Id, fn: Function, bytes: Code)      // CreateFunction, before Store
    | Inserting(id: Id, fn: Function)                 // the code is stored
    | Undoing(id: Id, source: Location)               // the insert failed
    | Loaded(id: Id, fn: Function)                    // UpdateFunction, with the row it read
    | Stored(id: Id, fn: Function)                    // the new code is stored, and described in the record
    | Deleting(id: Id, source: Location)              // DeleteFunction, with the location it read
    | Removing(id: Id, source: Location)              // the row is gone
    | Over

  datatype State = State(rows: map<Id, Function>, files: map<Location, Code>, used: set<Id>, requests: seq<Pc>)

  datatype Step =
    | BeginCreate(id: Id, fn: Function, bytes: Code)
    | StoreNew(r: nat, left: Option<Code>, ok: bool)            // left: what the file holds afterwards, if written
    | Insert(r: nat, ok: bool)
    | InsertLost(r: nat)                                               // applied, but reported as failed
    | Undo(r: nat, ok: bool)
    | BeginUpdate(id: Id)
    | StoreUpdate(r: nat, bytes: Code, left: Option<Code>, ok: bool)
    | Save(r: nat, fn: Function, applied: bool)
    | BeginDelete(id: Id)
    | DeleteRow(r: nat, applied: bool, ok: bool)
    | RemoveCode(r: nat, ok: bool)
    | Quit(r: nat)

  predicate Creating(pc: Pc) {
    pc.Storing? || pc.Inserting?
  }

  predicate Editing(pc: Pc) {
    pc.Loaded? || pc.Stored?
  }

  predicate At(s: State, r: nat) {
    r < |s.requests|
  }

  predicate Enabled(s: State, step: Step) {
    match step
    case BeginCreate(id, fn, bytes) => id !in s.used && fn.code == InfoOf(id, bytes)
    case StoreNew(r, left, ok) => At(s, r) && s.requests[r].Storing? && (ok ==> left == Some(s.requests[r].bytes))
    case Insert(r, ok) => At(s, r) && s.requests[r].Inserting? && (ok ==> Acceptable(s.rows, s.requests[r].fn))
    case InsertLost(r) => At(s, r) && s.requests[r].Inserting? && Acceptable(s.rows, s.requests[r].fn)
    case Undo(r, _) => At(s, r) && s.requests[r].Undoing?
    case BeginUpdate(id) => id in s.rows
    case StoreUpdate(r, bytes, left, ok) => At(s, r) && s.requests[r].Loaded? && (ok ==> left == Some(bytes))
    case Save(r, fn, applied) =>
      && At(s, r) && Editing(s.requests[r]) && fn.code == s.requests[r].fn.code
      && (applied && s.requests[r].id in s.rows ==> FitsUpdate(fn))
    case BeginDelete(id) => id in s.rows
    case DeleteRow(r, applied, ok) => At(s, r) && s.requests[r].Deleting?
      && (ok ==> applied && s.requests[r].id in s.rows)
    case RemoveCode(r, _) => At(s, r) && s.requests[r].Removing?
    case Quit(r) => At(s, r)
  }

  function Goto(s: State, r: nat, pc: Pc): State
    requires At(s, r)
  {
    s.(requests := s.requests[r := pc])
  }

  function Put(s: State, id: Id, left: Option<Code>): State {
    if left.Some? then s.(files := s.files[CodeAt(id) := left.value]) else s
  }

  function Do(s: State, step: Step): State
    requires Enabled(s, step)
  {
    match step
    case BeginCreate(id, fn, bytes) => s.(used := s.used + {id}, requests := s.requests + [Storing(id, fn, bytes)])
    case StoreNew(r, left, ok) =>
      var pc := s.requests[r];
      Goto(Put(s, pc.id, left), r, if ok then Inserting(pc.id, pc.fn) else Over)
    case Insert(r, ok) =>
      var pc := s.requests[r];
      if ok then Goto(s.(rows := s.rows[pc.id := Persisted(pc.fn)]), r, Over)
      else Goto(s, r, Undoing(pc.id, pc.fn.code.source))
    case InsertLost(r) =>
      var pc := s.requests[r];
      Goto(s.(rows := s.rows[pc.id := Persisted(pc.fn)]), r, Undoing(pc.id, pc.fn.code.source))
    case Undo(r, ok) => Goto(if ok then s.(files := RemoveDir(s.files, s.requests[r].source)) else s, r, Over)
    case BeginUpdate(id) => s.(requests := s.requests + [Loaded(id, s.rows[id])])
    case StoreUpdate(r, bytes, left, ok) =>
      var pc := s.requests[r];
      Goto(Put(s, pc.id, left), r, if ok then Stored(pc.id, pc.fn.(code := InfoOf(pc.id, bytes))) else Over)
    case Save(r, fn, applied) =>
      var id := s.requests[r].id;
      Goto(if applied && id in s.rows then s.(rows := s.rows[id := Overwritten(s.rows[id], fn)]) else s, r, Over)
    case BeginDelete(id) => s.(requests := s.requests + [Deleting(id, s.rows[id].code.source)])
    case DeleteRow(r, applied, ok) =>
      var pc := s.requests[r];
      Goto(if applied then s.(rows := s.rows - {pc.id}) else s, r, if ok then Removing(pc.id, pc.source) else Over)
    case RemoveCode(r, ok) => Goto(if ok then s.(files := RemoveDir(s.files, s.requests[r].source)) else s, r, Over)
    case Quit(r) => Goto(s, r, Over)
  }

  function Init(): State {
    State(map[], map[], {}, [])
  }

  ghost predicate Run(s: State, steps: seq<Step>, t: State)
    decreases |steps|
  {
    if steps == [] then s == t
    else Enabled(s, steps[0]) && Run(Do(s, steps[0]), steps[1..], t)
  }

  // ---------- consistency ----------

  /** Every row points at its own function's code, and the code is stored. */
  predicate Consistent(rows: map<Id, Function>, files: map<Location, Code>) {
    forall id :: id in rows ==> rows[id].code.source == CodeAt(id) && CodeAt(id) in files
  }

  predicate PcOk(s: State, pc: Pc) {
    pc != Over ==>
      && pc.id in s.used
      && (Creating(pc) ==> pc.id !in s.rows)
      && (Creating(pc) || Editing(pc) ==> pc.fn.code.source == CodeAt(pc.id))
      && (pc.Inserting? ==> CodeAt(pc.id) in s.files)
      && (pc.Undoing? || pc.Deleting? || pc.Removing? ==> pc.source == CodeAt(pc.id))
      && (pc.Removing? ==> pc.id !in s.rows)
  }

  // The id of a function that is being created belongs to that one request.
  predicate Apart(a: Pc, b: Pc) {
    Creating(a) && b != Over ==> a.id != b.id
  }

  ghost predicate AllOk(s: State) {
    forall r :: 0 <= r < |s.requests| ==> PcOk(s, s.requests[r])
  }

  ghost predicate AllApart(s: State) {
    forall q, r :: 0 <= q < |s.requests| && 0 <= r < |s.requests| && q != r ==> Apart(s.requests[q], s.requests[r])
  }

  ghost predicate Known(s: State) {
    && (forall id :: id in s.rows ==> id in s.used && s.rows[id].code.source == CodeAt(id))
    && forall l :: l in s.files ==> l.dir in s.used
  }

  // What every access keeps.
  ghost predicate Inv(s: State) {
    AllOk(s) && AllApart(s) && Known(s)
  }

  // The request that takes the step, or the one it begins.
  function Taker(s: State, step: Step): nat {
    match step
    case BeginCreate(_, _, _) => |s.requests|
    case BeginUpdate(_) => |s.requests|
    case BeginDelete(_) => |s.requests|
    case _ => step.r
  }

  lemma RequestsStep(s: State, step: Step)
    requires Enabled(s, step)
    ensures |s.requests| <= |Do(s, step).requests| && s.used <= Do(s, step).used
    ensures Taker(s, step) < |Do(s, step).requests|
    ensures forall r :: 0 <= r < |Do(s, step).requests| && r != Taker(s, step) ==>
      r < |s.requests| && Do(s, step).requests[r] == s.requests[r]
  {
    var t, r := Do(s, step), Taker(s, step);
    if r < |s.requests| {
      assert t.requests == s.requests[r := t.requests[r]];
    } else {
      assert t.requests == s.requests + [t.requests[r]];
    }
  }

  // A request keeps to its function, and none that is under way starts to create one.
  lemma TakerStays(s: State, step: Step)
    requires Enabled(s, step) && At(s, Taker(s, step)) && Taker(s, step) < |Do(s, step).requests|
    ensures var was, now_ := s.requests[Taker(s, step)], Do(s, step).requests[Taker(s, step)];
      now_ != Over ==>
        was != Over && now_.id == was.id && (Creating(now_) ==> Creating(was)) && (Editing(now_) ==> Editing(was))
  {
  }

  lemma TakerOk(s: State, step: Step)
    requires Inv(s) && Enabled(s, step) && Taker(s, step) < |Do(s, step).requests|
    ensures PcOk(Do(s, step), Do(s, step).requests[Taker(s, step)])
  {
    if At(s, Taker(s, step)) {
      assert PcOk(s, s.requests[Taker(s, step)]);
    }
  }

  lemma BystanderOk(s: State, step: Step, r: nat)
    requires Inv(s) && Enabled(s, step) && At(s, r) && r != Taker(s, step)
    ensures PcOk(Do(s, step), s.requests[r])
  {
    assert PcOk(s, s.requests[r]);
    var q := Taker(s, step);
    if At(s, q) {
      assert Apart(s.requests[q], s.requests[r]) && Apart(s.requests[r], s.requests[q]);
      assert PcOk(s, s.requests[q]);
    }
  }

  lemma ApartStep(s: State, step: Step)
    requires Inv(s) && Enabled(s, step)
    ensures AllApart(Do(s, step))
  {
    var t, k := Do(s, step), Taker(s, step);
    RequestsStep(s, step);
    forall q, r | 0 <= q < |t.requests| && 0 <= r < |t.requests| && q != r ensures Apart(t.requests[q], t.requests[r]) {
      if At(s, q) {
        assert PcOk(s, s.requests[q]);
      }
      if At(s, r) {
        assert PcOk(s, s.requests[r]);
      }
      if At(s, q) && At(s, r) {
        assert Apart(s.requests[q], s.requests[r]);
        if At(s, k) {
          TakerStays(s, step);
        }
      }
    }
  }

  lemma KnownStep(s: State, step: Step)
    requires Inv(s) && Enabled(s, step)
    ensures Known(Do(s, step))
  {
    if At(s, Taker(s, step)) {
      assert PcOk(s, s.requests[Taker(s, step)]);
    }
  }

  /** Every access, of whichever request, applied, failed or both, keeps the invariant. */
  lemma InvStep(s: State, step: Step)
    requires Inv(s) && Enabled(s, step)
    ensures Inv(Do(s, step))
  {
    var t := Do(s, step);
    RequestsStep(s, step);
    forall r | 0 <= r < |t.requests| ensures PcOk(t, t.requests[r]) {
      if r == Taker(s, step) {
        TakerOk(s, step);
      } else {
        BystanderOk(s, step, r);
      }
    }
    ApartStep(s, step);
    KnownStep(s, step);
  }

  // The one access that can leave a row without code: the clean-up after an insert that was applied although it failed.
  predicate Safe(s: State, step: Step) {
    step.Undo? && step.ok && At(s, step.r) && s.requests[step.r].Undoing? ==> s.requests[step.r].id !in s.rows
  }

  /** An access keeps the stores consistent exactly when it is not that one. */
  lemma ConsistentStep(s: State, step: Step)
    requires Inv(s) && Consistent(s.rows, s.files) && Enabled(s, step)
    ensures Consistent(Do(s, step).rows, Do(s, step).files) <==> Safe(s, step)
  {
    if step.Undo? {
      UndoConsistent(s, step.r, step.ok);
    } else {
      OtherConsistent(s, step);
    }
  }

  lemma UndoConsistent(s: State, r: nat, ok: bool)
    requires Inv(s) && Consistent(s.rows, s.files) && Enabled(s, Undo(r, ok))
    ensures Consistent(Do(s, Undo(r, ok)).rows, Do(s, Undo(r, ok)).files) <==> Safe(s, Undo(r, ok))
  {
    assert PcOk(s, s.requests[r]);
    if !Safe(s, Undo(r, ok)) {
      assert s.requests[r].id in Do(s, Undo(r, ok)).rows && CodeAt(s.requests[r].id) !in Do(s, Undo(r, ok)).files;
    }
  }

  lemma OtherConsistent(s: State, step: Step)
    requires Inv(s) && Consistent(s.rows, s.files) && Enabled(s, step) && !step.Undo?
    ensures Consistent(Do(s, step).rows, Do(s, step).files)
  {
    if At(s, Taker(s, step)) {
      assert PcOk(s, s.requests[Taker(s, step)]);
    }
  }

  // Consistent at the start, and after every access.
  ghost predicate StaysConsistent(s: State, steps: seq<Step>)
    decreases |steps|
  {
    && Consistent(s.rows, s.files)
    && (steps != [] && Enabled(s, steps[0]) ==> StaysConsistent(Do(s, steps[0]), steps[1..]))
  }

  ghost predicate AllSafe(s: State, steps: seq<Step>)
    decreases |steps|
  {
    steps != [] && Enabled(s, steps[0]) ==> Safe(s, steps[0]) && AllSafe(Do(s, steps[0]), steps[1..])
  }

  lemma {:induction false} SafeRun(s: State, steps: seq<Step>, t: State)
    requires Inv(s) && Consistent(s.rows, s.files) && Run(s, steps, t)
    ensures Inv(t)
    ensures StaysConsistent(s, steps) <==> AllSafe(s, steps)
    ensures AllSafe(s, steps) ==> Consistent(t.rows, t.files)
    decreases |steps|
  {
    if steps != [] {
      InvStep(s, steps[0]);
      ConsistentStep(s, steps[0]);
      if Safe(s, steps[0]) {
        SafeRun(Do(s, steps[0]), steps[1..], t);
      } else {
        InvRun(Do(s, steps[0]), steps[1..], t);
        assert !StaysConsistent(Do(s, steps[0]), steps[1..]);
      }
    }
  }

  lemma {:induction false} InvRun(s: State, steps: seq<Step>, t: State)
    requires Inv(s) && Run(s, steps, t)
    ensures Inv(t)
    decreases |steps|
  {
    if steps != [] {
      InvStep(s, steps[0]);
      InvRun(Do(s, steps[0]), steps[1..], t);
    }
  }

  /**
   Over every run, requests interleaved and cut off anywhere, accesses applied or not whatever is reported: every row
   points at stored code all the time exactly when no clean-up after a failed insert found its row in the table.
   */
  lemma ConsistentExactly(steps: seq<Step>, t: State)
    requires Run(Init(), steps, t)
    ensures StaysConsistent(Init(), steps) <==> AllSafe(Init(), steps)
  {
    SafeRun(Init(), steps, t);
  }

  predicate AllReliable(steps: seq<Step>) {
    forall i :: 0 <= i < |steps| ==> !steps[i].InsertLost?
  }

  // As long as what failed was not applied, nothing is cleaned up that has a row.
  ghost predicate Undone(s: State) {
    forall r :: 0 <= r < |s.requests| && s.requests[r].Undoing? ==> s.requests[r].id !in s.rows
  }

  lemma UndoneStep(s: State, step: Step)
    requires Inv(s) && Undone(s) && Enabled(s, step) && !step.InsertLost?
    ensures Undone(Do(s, step)) && Safe(s, step)
  {
    var t, k := Do(s, step), Taker(s, step);
    RequestsStep(s, step);
    if At(s, k) {
      assert PcOk(s, s.requests[k]);
    }
    forall r | 0 <= r < |t.requests| && t.requests[r].Undoing? ensures t.requests[r].id !in t.rows {
      if r != k && At(s, k) {
        assert Apart(s.requests[k], s.requests[r]);
      }
    }
  }

  lemma {:induction false} ReliableRun(s: State, steps: seq<Step>, t: State)
    requires Inv(s) && Undone(s) && Consistent(s.rows, s.files) && Run(s, steps, t) && AllReliable(steps)
    ensures Consistent(t.rows, t.files)
    decreases |steps|
  {
    if steps != [] {
      assert !steps[0].InsertLost?;
      UndoneStep(s, steps[0]);
      InvStep(s, steps[0]);
      ConsistentStep(s, steps[0]);
      ReliableRun(Do(s, steps[0]), steps[1..], t);
    }
  }

  /** In particular they stay consistent as long as no insert is applied that is reported as failed. */
  lemma AlwaysConsistent(steps: seq<Step>, t: State)
    requires Run(Init(), steps, t) && AllReliable(steps)
    ensures Consistent(t.rows, t.files)
  {
    ReliableRun(Init(), steps, t);
  }

  /**
   When an insert is reported as failed and the code is then removed, the stores stay consistent iff the insert was not
   applied.
   */
  lemma FailedInsert(steps: seq<Step>, s: State, r: nat, applied: bool)
    requires Run(Init(), steps, s) && Consistent(s.rows, s.files) && At(s, r) && s.requests[r].Inserting?
    requires Acceptable(s.rows, s.requests[r].fn)
    ensures var mid := Do(s, if applied then InsertLost(r) else Insert(r, false));
      && Enabled(mid, Undo(r, true))
      && (Consistent(Do(mid, Undo(r, true)).rows, Do(mid, Undo(r, true)).files) <==> !applied)
  {
    InvRun(Init(), steps, s);
    assert PcOk(s, s.requests[r]);
    var step := if applied then InsertLost(r) else Insert(r, false);
    InvStep(s, step);
    ConsistentStep(s, step);
    ConsistentStep(Do(s, step), Undo(r, true));
  }

  // ---------- isolation ----------

  // The function a step is about.
  function Subject(s: State, step: Step): Option<Id>
    requires Enabled(s, step)
  {
    match step
    case BeginCreate(id, _, _) => Some(id)
    case BeginUpdate(id) => Some(id)
    case BeginDelete(id) => Some(id)
    case Quit(r) => if s.requests[r].Over? then None else Some(s.requests[r].id)
    case _ => Some(s.requests[step.r].id)
  }

  /** Creating, updating or deleting one function touches neither the row nor the files of another. */
  lemma OnlyItsOwn(s: State, step: Step, other: Id)
    requires Inv(s) && Enabled(s, step) && Subject(s, step) != Some(other)
    ensures var t := Do(s, step);
      && (other in t.rows <==> other in s.rows) && (other in s.rows ==> t.rows[other] == s.rows[other])
      && forall l :: l in s.files || l in t.files ==> l.dir == other ==>
           l in s.files && l in t.files && t.files[l] == s.files[l]
  {
    if At(s, Taker(s, step)) {
      assert PcOk(s, s.requests[Taker(s, step)]);
    }
  }

  // ---------- checksums ----------

  /** Every row describes the code that is stored for it. */
  predicate Matching(rows: map<Id, Function>, files: map<Location, Code>) {
    forall id :: id in rows ==> CodeAt(id) in files && rows[id].code == InfoOf(id, files[CodeAt(id)])
  }

  predicate Agrees(s: State, id: Id)
    requires id in s.rows
  {
    CodeAt(id) in s.files && s.rows[id].code == InfoOf(id, s.files[CodeAt(id)])
  }

  ghost predicate Edited(s: State, id: Id) {
    exists r :: 0 <= r < |s.requests| && Editing(s.requests[r]) && s.requests[r].id == id
  }

  // The record a request holds describes the code that is stored now, or will be.
  predicate Described(s: State, pc: Pc) {
    && (pc.Storing? ==> pc.fn.code == InfoOf(pc.id, pc.bytes))
    && (pc.Inserting? ==> CodeAt(pc.id) in s.files && pc.fn.code == InfoOf(pc.id, s.files[CodeAt(pc.id)]))
    && (Editing(pc) && pc.id in s.rows ==>
          && CodeAt(pc.id) in s.files && pc.fn.code == InfoOf(pc.id, s.files[CodeAt(pc.id)])
          && (pc.Loaded? ==> s.rows[pc.id].code == pc.fn.code))
  }

  ghost predicate OneEditor(s: State) {
    forall q, r :: 0 <= q < r < |s.requests| && Editing(s.requests[q]) && Editing(s.requests[r]) ==>
      s.requests[q].id != s.requests[r].id
  }

  ghost predicate Checked(s: State) {
    && OneEditor(s)
    && (forall r :: 0 <= r < |s.requests| ==> Described(s, s.requests[r]))
    && (forall id :: id in s.rows && !Edited(s, id) ==> Agrees(s, id))
  }

  /**
   An update does not begin while another of the same function is under way; a store that fails leaves the code as it
   was; an update whose new code is stored does not end without its row, unless that code is the one the row describes
   already; and no clean-up finds a row.
   */
  ghost predicate Careful(s: State, step: Step) {
    match step
    case BeginUpdate(id) => !Edited(s, id)
    case StoreUpdate(r, _, left, ok) =>
      At(s, r) && s.requests[r].Loaded? && !ok && s.requests[r].id in s.rows && left.Some? ==>
        CodeAt(s.requests[r].id) in s.files && left.value == s.files[CodeAt(s.requests[r].id)]
    case Save(r, fn, applied) =>
      At(s, r) && s.requests[r].Stored? && !applied && s.requests[r].id in s.rows ==>
        s.rows[s.requests[r].id].code == s.requests[r].fn.code
    case Quit(r) =>
      At(s, r) && s.requests[r].Stored? && s.requests[r].id in s.rows ==>
        s.rows[s.requests[r].id].code == s.requests[r].fn.code
    case _ => Safe(s, step)
  }

  lemma OneEditorStep(s: State, step: Step)
    requires OneEditor(s) && Enabled(s, step) && Careful(s, step)
    ensures OneEditor(Do(s, step))
  {
    var t, k := Do(s, step), Taker(s, step);
    RequestsStep(s, step);
    forall q, r | 0 <= q < r < |t.requests| && Editing(t.requests[q]) && Editing(t.requests[r])
      ensures t.requests[q].id != t.requests[r].id
    {
      if At(s, k) {
        TakerStays(s, step);
      }
    }
  }

  lemma TakerDescribed(s: State, step: Step)
    requires Inv(s) && Checked(s) && Enabled(s, step) && Taker(s, step) < |Do(s, step).requests|
    requires Careful(s, step)
    ensures Described(Do(s, step), Do(s, step).requests[Taker(s, step)])
  {
    if At(s, Taker(s, step)) {
      GoesOnDescribed(s, step);
    } else {
      BeginsDescribed(s, step);
    }
  }

  lemma GoesOnDescribed(s: State, step: Step)
    requires Inv(s) && Checked(s) && Enabled(s, step) && At(s, Taker(s, step))
    requires Taker(s, step) < |Do(s, step).requests|
    ensures Described(Do(s, step), Do(s, step).requests[Taker(s, step)])
  {
    if step.StoreNew? || step.StoreUpdate? {
      StoresDescribed(s, step);
    } else {
      assert PcOk(s, s.requests[Taker(s, step)]) && Described(s, s.requests[Taker(s, step)]);
    }
  }

  lemma StoresDescribed(s: State, step: Step)
    requires Inv(s) && Checked(s) && Enabled(s, step) && (step.StoreNew? || step.StoreUpdate?)
    ensures At(s, Taker(s, step)) && At(Do(s, step), Taker(s, step))
    ensures Described(Do(s, step), Do(s, step).requests[Taker(s, step)])
  {
    assert PcOk(s, s.requests[step.r]) && Described(s, s.requests[step.r]);
  }

  lemma BeginsDescribed(s: State, step: Step)
    requires Checked(s) && Enabled(s, step) && Careful(s, step)
    requires Taker(s, step) == |s.requests| && Taker(s, step) < |Do(s, step).requests| && !At(s, Taker(s, step))
    ensures Described(Do(s, step), Do(s, step).requests[Taker(s, step)])
  {
    if step.BeginUpdate? {
      assert Agrees(s, step.id);
    }
  }

  // What the access leaves alone of a function.
  predicate Untouched(s: State, t: State, id: Id) {
    && (id in s.rows <==> id in t.rows) && (id in s.rows ==> t.rows[id].code == s.rows[id].code)
    && (CodeAt(id) in s.files <==> CodeAt(id) in t.files)
    && (CodeAt(id) in s.files ==> t.files[CodeAt(id)] == s.files[CodeAt(id)])
  }

  lemma OtherUntouched(s: State, step: Step, id: Id)
    requires Inv(s) && Enabled(s, step) && Subject(s, step) != Some(id)
    ensures Untouched(s, Do(s, step), id)
  {
    OnlyItsOwn(s, step, id);
  }

  // Requests about one function, neither of which creates it.
  lemma SameFunction(s: State, step: Step, pc: Pc)
    requires Inv(s) && OneEditor(s) && Enabled(s, step) && Careful(s, step) && Editing(pc)
    requires Subject(s, step) == Some(pc.id)
    requires exists r :: 0 <= r < |s.requests| && r != Taker(s, step) && s.requests[r] == pc
    ensures pc.id !in Do(s, step).rows || Untouched(s, Do(s, step), pc.id)
  {
    var r :| 0 <= r < |s.requests| && r != Taker(s, step) && s.requests[r] == pc;
    assert Edited(s, pc.id);
    var k := Taker(s, step);
    if At(s, k) {
      assert PcOk(s, s.requests[k]) && Apart(s.requests[k], pc);
      assert !Editing(s.requests[k]);
    }
  }

  lemma BystanderDescribed(s: State, step: Step, r: nat)
    requires Inv(s) && Checked(s) && Enabled(s, step) && At(s, r) && r != Taker(s, step) && Careful(s, step)
    ensures Described(Do(s, step), s.requests[r])
  {
    var pc := s.requests[r];
    assert Described(s, pc) && PcOk(s, pc);
    if pc != Over {
      if Subject(s, step) != Some(pc.id) {
        OtherUntouched(s, step, pc.id);
      } else if Editing(pc) {
        SameFunction(s, step, pc);
      } else if At(s, Taker(s, step)) {
        assert Apart(pc, s.requests[Taker(s, step)]);
      }
    }
  }

  lemma EditedKept(s: State, step: Step, id: Id)
    requires Enabled(s, step) && Subject(s, step) != Some(id) && !Edited(Do(s, step), id)
    ensures !Edited(s, id)
  {
    RequestsStep(s, step);
    if r :| 0 <= r < |s.requests| && Editing(s.requests[r]) && s.requests[r].id == id {
      assert Do(s, step).requests[r] == s.requests[r];
    }
  }

  lemma NotEditedBefore(s: State, step: Step, id: Id)
    requires Enabled(s, step) && Subject(s, step) == Some(id) && !Edited(Do(s, step), id)
    requires At(s, Taker(s, step)) ==> !Editing(s.requests[Taker(s, step)])
    ensures !Edited(s, id) && !step.BeginUpdate?
  {
    var t, k := Do(s, step), Taker(s, step);
    RequestsStep(s, step);
    forall r | 0 <= r < |s.requests| && Editing(s.requests[r]) ensures s.requests[r].id != id {
      assert t.requests[r] == s.requests[r];
    }
    assert !(Editing(t.requests[k]) && t.requests[k].id == id);
  }

  // A row whose function the access is about.
  lemma SubjectAgrees(s: State, step: Step, id: Id)
    requires Inv(s) && Checked(s) && Enabled(s, step) && Careful(s, step) && Subject(s, step) == Some(id)
    requires id in Do(s, step).rows && !Edited(Do(s, step), id)
    ensures Agrees(Do(s, step), id)
  {
    var t, k := Do(s, step), Taker(s, step);
    RequestsStep(s, step);
    if At(s, k) && Editing(s.requests[k]) {
      assert PcOk(s, s.requests[k]) && Described(s, s.requests[k]);
      assert !Editing(t.requests[k]);
    } else {
      NotEditedBefore(s, step, id);
      if At(s, k) {
        assert PcOk(s, s.requests[k]) && Described(s, s.requests[k]);
      }
    }
  }

  lemma CheckedStep(s: State, step: Step)
    requires Inv(s) && Checked(s) && Enabled(s, step) && Careful(s, step)
    ensures Checked(Do(s, step))
  {
    var t := Do(s, step);
    RequestsStep(s, step);
    OneEditorStep(s, step);
    forall r | 0 <= r < |t.requests| ensures Described(t, t.requests[r]) {
      if r == Taker(s, step) {
        TakerDescribed(s, step);
      } else {
        BystanderDescribed(s, step, r);
      }
    }
    forall id | id in t.rows && !Edited(t, id) ensures Agrees(t, id) {
      if Subject(s, step) == Some(id) {
        SubjectAgrees(s, step, id);
      } else {
        OtherUntouched(s, step, id);
        EditedKept(s, step, id);
        assert Agrees(s, id);
      }
    }
  }

  ghost predicate AllCareful(s: State, steps: seq<Step>)
    decreases |steps|
  {
    steps != [] && Enabled(s, steps[0]) ==> Careful(s, steps[0]) && AllCareful(Do(s, steps[0]), steps[1..])
  }

  lemma {:induction false} CheckedRun(s: State, steps: seq<Step>, t: State)
    requires Inv(s) && Checked(s) && Run(s, steps, t) && AllCareful(s, steps)
    ensures Inv(t) && Checked(t)
    decreases |steps|
  {
    if steps != [] {
      InvStep(s, steps[0]);
      CheckedStep(s, steps[0]);
      CheckedRun(Do(s, steps[0]), steps[1..], t);
    }
  }

  /**
   Over every run of careful accesses, with any number of requests interleaved and cut off: each row nobody is just
   editing has the checksum and the size of the code that is stored for it.
   */
  lemma ChecksumsMatch(steps: seq<Step>, t: State, id: Id)
    requires Run(Init(), steps, t) && AllCareful(Init(), steps)
    requires id in t.rows && !Edited(t, id)
    ensures Agrees(t, id) && CodeAt(id) in t.files
    ensures var code, file := t.rows[id].code, t.files[CodeAt(id)];
      code.source == CodeAt(id) && code.checksum == Digest(file) && code.size == |file|
  {
    CheckedRun(Init(), steps, t);
  }

  /**
   And each access that is not careful breaks that at once, but for an update that begins too early, which only can.
   */
  lemma CarelessStep(s: State, step: Step)
    requires Inv(s) && Checked(s) && Enabled(s, step) && !Careful(s, step) && !step.BeginUpdate?
    ensures var id, t := s.requests[step.r].id, Do(s, step);
      id in t.rows && !Agrees(t, id) && (!step.Undo? ==> !Edited(t, id))
  {
    var t, r := Do(s, step), step.r;
    RequestsStep(s, step);
    var pc := s.requests[r];
    assert PcOk(s, pc) && Described(s, pc);
    if !step.Undo? {
      forall q | 0 <= q < |t.requests| && Editing(t.requests[q]) ensures t.requests[q].id != pc.id {
        assert t.requests[q] == s.requests[q] && q != r;
      }
    }
  }

  // Two requests that have loaded one row store their code, one after the other.
  lemma StoreBoth(s: State, p: nat, q: nat, a: Code, b: Code) returns (t: State)
    requires At(s, p) && At(s, q) && p != q && s.requests[p].Loaded? && s.requests[q].Loaded?
    requires s.requests[p].id == s.requests[q].id
    ensures Enabled(s, StoreUpdate(p, a, Some(a), true))
    ensures Enabled(Do(s, StoreUpdate(p, a, Some(a), true)), StoreUpdate(q, b, Some(b), true))
    ensures t == Do(Do(s, StoreUpdate(p, a, Some(a), true)), StoreUpdate(q, b, Some(b), true))
    ensures var id := s.requests[p].id;
      && t.rows == s.rows && CodeAt(id) in t.files && t.files[CodeAt(id)] == b && At(t, p) && At(t, q)
      && t.requests[p] == Stored(id, s.requests[p].fn.(code := InfoOf(id, a)))
      && t.requests[q] == Stored(id, s.requests[q].fn.(code := InfoOf(id, b)))
  {
    var s1 := Do(s, StoreUpdate(p, a, Some(a), true));
    assert s1.requests[q] == s.requests[q];
    t := Do(s1, StoreUpdate(q, b, Some(b), true));
  }

  /**
   What an early update can do: two that have read one row, and neither of which fails, can leave it with the wrong
   code.
   */
  lemma RacingUpdates(s: State, p: nat, q: nat, a: Code, b: Code) returns (steps: seq<Step>, t: State)
    requires At(s, p) && At(s, q) && p != q && s.requests[p].Loaded? && s.requests[q].Loaded?
    requires s.requests[p].id == s.requests[q].id && s.requests[p].id in s.rows && a != b
    requires FitsUpdate(s.requests[p].fn) && FitsUpdate(s.requests[q].fn)
    ensures Run(s, steps, t) && s.requests[p].id in t.rows && !Agrees(t, s.requests[p].id)
    ensures var id := s.requests[p].id;
      steps == [StoreUpdate(p, a, Some(a), true), StoreUpdate(q, b, Some(b), true),
                Save(q, s.requests[q].fn.(code := InfoOf(id, b)), true),
                Save(p, s.requests[p].fn.(code := InfoOf(id, a)), true)]
  {
    var id := s.requests[p].id;
    var s2 := StoreBoth(s, p, q, a, b);
    var second, first := Save(q, s2.requests[q].fn, true), Save(p, s2.requests[p].fn, true);
    var s3 := Do(s2, second);
    assert s3.requests[p] == s2.requests[p] && s3.files == s2.files && id in s3.rows;
    t := Do(s3, first);
    steps := [StoreUpdate(p, a, Some(a), true), StoreUpdate(q, b, Some(b), true), second, first];
    Four(s, steps[0], steps[1], steps[2], steps[3]);
    assert t.rows[id].code == InfoOf(id, a) && t.files[CodeAt(id)] == b;
  }

  lemma Four(s: State, a: Step, b: Step, c: Step, d: Step)
    requires Enabled(s, a) && Enabled(Do(s, a), b) && Enabled(Do(Do(s, a), b), c) && Enabled(Do(Do(Do(s, a), b), c), d)
    ensures Run(s, [a, b, c, d], Do(Do(Do(Do(s, a), b), c), d))
  {
    assert [a, b, c, d][1..] == [b, c, d] && [b, c, d][1..] == [c, d] && [c, d][1..] == [d] && [d][1..] == [];
    var s3 := Do(Do(Do(s, a), b), c);
    assert Run(s3, [d], Do(s3, d));
    assert Run(Do(Do(s, a), b), [c, d], Do(s3, d));
    assert Run(Do(s, a), [b, c, d], Do(s3, d));
  }
}
