/**
 The function service over its two stores, one request at a time. Every access is also a step of
 FunctionStore, so that what is proved there about interleaved requests covers these accesses.
 */
module FunctionService {
  import opened Types
  import opened FunctionStore
  import opened Timeouts

  datatype Result<+T> = Success(value: T) | Failure(error: Error)

  datatype Error = Invalid(what: string) | NotFound | Conflict | Internal

  // A request's code field: missing, something base64 decodes, or something it does not.
  datatype Base64 = Empty | Text(bytes: Code) | Malformed

  datatype CreateRequest = CreateRequest(name: string, version: string, runtime: string, handler: string, code: Base64,
                                         timeout: int, memory: int, environment: map<string, string>, concurrency: int,
                                         metadata: map<string, string>)

  // An absent field leaves the function's as it is.
  datatype UpdateRequest = UpdateRequest(handler: Option<string>, code: Option<Base64>, timeout: Option<int>,
                                         memory: Option<int>, environment: Option<map<string, string>>,
                                         concurrency: Option<int>)

  // ---------- validation ----------

  predicate NameChar(c: char) {
    'a' <= c <= 'z' || 'A' <= c <= 'Z' || '0' <= c <= '9' || c == '_' || c == '-'
  }

  predicate ValidName(name: string) {
    0 < |name| <= 255 && forall i :: 0 <= i < |name| ==> NameChar(name[i])
  }

  predicate ValidRuntime(runtime: string) {
    runtime == "go" || runtime == "python" || runtime == "nodejs"
  }

  // validateCreateRequest: the first fault found, if there is one.
  function FirstFault(req: CreateRequest): Option<string> {
    if !ValidName(req.name) then Some("function name")
    else if req.version == "" then Some("version is required")
    else if !ValidRuntime(req.runtime) then Some("unsupported runtime")
    else if req.handler == "" then Some("handler is required")
    else if req.code == Empty then Some("function code is required")
    else if req.timeout <= 0 then Some("timeout must be positive")
    else if req.memory <= 0 then Some("memory must be positive")
    else if req.concurrency <= 0 then Some("concurrency must be positive")
    else None
  }

  // The checks in their order.
  function Checks(req: CreateRequest): seq<(bool, string)> {
    [(ValidName(req.name), "function name"), (req.version != "", "version is required"),
     (ValidRuntime(req.runtime), "unsupported runtime"), (req.handler != "", "handler is required"),
     (req.code != Empty, "function code is required"), (req.timeout > 0, "timeout must be positive"),
     (req.memory > 0, "memory must be positive"), (req.concurrency > 0, "concurrency must be positive")]
  }

  /** A request is refused exactly when a check fails, and for the first that does. */
  lemma FirstFaultExactly(req: CreateRequest)
    ensures FirstFault(req) == None <==> forall i :: 0 <= i < 8 ==> Checks(req)[i].0
    ensures forall i :: 0 <= i < 8 && !Checks(req)[i].0 && (forall j :: 0 <= j < i ==> Checks(req)[j].0) ==>
      FirstFault(req) == Some(Checks(req)[i].1)
  {
    var checks := Checks(req);
    assert |checks| == 8;
    forall i | 0 <= i < 8 && !checks[i].0 && forall j :: 0 <= j < i ==> checks[j].0
      ensures FirstFault(req) == Some(checks[i].1)
    {
      assert i > 0 ==> checks[0].0;
      assert i > 1 ==> checks[1].0;
      assert i > 2 ==> checks[2].0;
      assert i > 3 ==> checks[3].0;
      assert i > 4 ==> checks[4].0;
      assert i > 5 ==> checks[5].0;
      assert i > 6 ==> checks[6].0;
    }
    assert (forall i :: 0 <= i < 8 ==> checks[i].0) <==>
      && checks[0].0 && checks[1].0 && checks[2].0 && checks[3].0
      && checks[4].0 && checks[5].0 && checks[6].0 && checks[7].0;
  }

  // What DecodeString returns; the empty string decodes to no bytes.
  function Decoded(code: Base64): Option<Code> {
    match code
    case Empty => Some([])
    case Text(bytes) => Some(bytes)
    case Malformed => None
  }

  // The function a create request asks for.
  function Requested(req: CreateRequest, id: Id): Function {
    var bytes := if Decoded(req.code).Some? then Decoded(req.code).value else [];
    Function(req.name, req.version, req.runtime, req.handler, InfoOf(id, bytes), req.timeout, req.memory,
             req.concurrency, req.environment, req.metadata)
  }

  /**
   Validation and the table disagree about exactly this much: timeouts under a second, numbers and texts too long for
   their columns, and NULs, which JSON can write and no column takes. A timeout is an int64 of nanoseconds.
   */
  lemma WhatValidationMisses(req: CreateRequest, id: Id)
    requires FirstFault(req) == None && req.timeout < HORIZON
    ensures Fits(Requested(req, id)) <==>
      && SECOND <= req.timeout <= 2147483648 * SECOND - 120
      && req.memory <= MAX_INTEGER && req.concurrency <= MAX_INTEGER
      && FitsIn(req.version, SHORT) && FitsIn(req.handler, LONG) && Clean(req.version) && Clean(req.handler)
      && AllClean(req.environment) && AllClean(req.metadata)
  {
    FitsColumn(req.timeout);
    assert ValidName(req.name) && Clean(req.name);
    assert |req.runtime| <= SHORT && Clean(req.runtime);
  }

  // The checks UpdateFunction makes before it touches a store.
  function FirstUpdateFault(req: UpdateRequest): Option<string> {
    if req.timeout.Some? && req.timeout.value <= 0 then Some("timeout must be positive")
    else if req.memory.Some? && req.memory.value <= 0 then Some("memory must be positive")
    else if req.concurrency.Some? && req.concurrency.value <= 0 then Some("concurrency must be positive")
    else if req.code.Some? && Decoded(req.code.value).None? then Some("invalid base64 code")
    else None
  }

  /** Which updates are refused before anything is touched. */
  lemma FirstUpdateFaultExactly(req: UpdateRequest)
    ensures FirstUpdateFault(req) == None <==>
      && (req.timeout.Some? ==> req.timeout.value > 0) && (req.memory.Some? ==> req.memory.value > 0)
      && (req.concurrency.Some? ==> req.concurrency.value > 0) && (req.code.Some? ==> !req.code.value.Malformed?)
  {
  }

  function OrElse<T>(field: Option<T>, was: T): T {
    if field.Some? then field.value else was
  }

  // The function an update asks for.
  function Merged(fn: Function, req: UpdateRequest): Function {
    fn.(handler := OrElse(req.handler, fn.handler), timeout := OrElse(req.timeout, fn.timeout),
        memory := OrElse(req.memory, fn.memory), environment := OrElse(req.environment, fn.environment),
        concurrency := OrElse(req.concurrency, fn.concurrency))
  }

  // ---------- what was asked for, field by field ----------

  predicate IsCode(code: CodeInfo, id: Id, bytes: Code) {
    code.source == CodeAt(id) && code.checksum == Digest(bytes) && code.size == |bytes|
  }

  // A new function has what the request says.
  predicate Asked(req: CreateRequest, id: Id, fn: Function) {
    && fn.name == req.name && fn.version == req.version && fn.runtime == req.runtime && fn.handler == req.handler
    && fn.timeout == req.timeout && fn.memory == req.memory && fn.concurrency == req.concurrency
    && fn.environment == req.environment && fn.metadata == req.metadata
    && (Decoded(req.code).Some? ==> IsCode(fn.code, id, Decoded(req.code).value))
  }

  // Each field of the request that is present is the function's, and each that is absent is what it was.
  predicate Takes(was: Function, req: UpdateRequest, fn: Function) {
    && (req.handler.Some? ==> fn.handler == req.handler.value) && (req.handler.None? ==> fn.handler == was.handler)
    && (req.timeout.Some? ==> fn.timeout == req.timeout.value) && (req.timeout.None? ==> fn.timeout == was.timeout)
    && (req.memory.Some? ==> fn.memory == req.memory.value) && (req.memory.None? ==> fn.memory == was.memory)
    && (req.environment.Some? ==> fn.environment == req.environment.value)
    && (req.environment.None? ==> fn.environment == was.environment)
    && (req.concurrency.Some? ==> fn.concurrency == req.concurrency.value)
    && (req.concurrency.None? ==> fn.concurrency == was.concurrency)
    && fn.name == was.name && fn.version == was.version && fn.runtime == was.runtime && fn.metadata == was.metadata
  }

  predicate TakesCode(was: Function, req: UpdateRequest, id: Id, fn: Function) {
    && (req.code.None? ==> fn.code == was.code)
    && (req.code.Some? && Decoded(req.code.value).Some? ==> IsCode(fn.code, id, Decoded(req.code.value).value))
  }

  // What an UPDATE makes of a row's columns, and an INSERT of all of them.
  predicate Holds(row: Function, fn: Function) {
    && row.handler == Cut(fn.handler, LONG) && row.timeout == StoredSeconds(fn.timeout) * SECOND && row.code == fn.code
    && row.memory == fn.memory && row.concurrency == fn.concurrency
    && row.environment == fn.environment && row.metadata == fn.metadata
  }

  predicate HoldsAll(row: Function, fn: Function) {
    && Holds(row, fn)
    && row.name == Cut(fn.name, LONG) && row.version == Cut(fn.version, SHORT) && row.runtime == Cut(fn.runtime, SHORT)
  }

  // A row as the columns give it: nothing to cut, and full seconds.
  predicate AsStored(row: Function) {
    |row.handler| <= LONG && StoredSeconds(row.timeout) * SECOND == row.timeout
  }

  ghost predicate AllAsStored(rows: map<Id, Function>) {
    forall id :: id in rows ==> AsStored(rows[id])
  }

  // The row of an updated function, as it is read back.
  predicate RowTakes(was: Function, req: UpdateRequest, row: Function) {
    && (req.handler.Some? ==> row.handler == Cut(req.handler.value, LONG))
      && (req.handler.None? ==> row.handler == was.handler)
    && (req.timeout.Some? ==> row.timeout == StoredSeconds(req.timeout.value) * SECOND)
    && (req.timeout.None? ==> row.timeout == was.timeout)
    && (req.memory.Some? ==> row.memory == req.memory.value) && (req.memory.None? ==> row.memory == was.memory)
    && (req.environment.Some? ==> row.environment == req.environment.value)
    && (req.environment.None? ==> row.environment == was.environment)
    && (req.concurrency.Some? ==> row.concurrency == req.concurrency.value)
    && (req.concurrency.None? ==> row.concurrency == was.concurrency)
    && row.name == was.name && row.version == was.version && row.runtime == was.runtime && row.metadata == was.metadata
  }

  // What an update gives back and leaves: as the request asks, field by field.
  predicate Updated(was: Function, req: UpdateRequest, id: Id, fn: Function, row: Function) {
    && Takes(was, req, fn) && TakesCode(was, req, id, fn)
    && RowTakes(was, req, row)
  }

  lemma RequestedIsAsked(req: CreateRequest, id: Id)
    ensures Asked(req, id, Requested(req, id))
  {
  }

  lemma MergedTakes(was: Function, req: UpdateRequest)
    ensures Takes(was, req, Merged(was, req)) && Merged(was, req).code == was.code
  {
  }

  lemma RowsHold(row: Function, fn: Function)
    ensures HoldsAll(Persisted(fn), fn) && Holds(Overwritten(row, fn), fn)
    ensures var next := Overwritten(row, fn);
      next.name == row.name && next.version == row.version && next.runtime == row.runtime
  {
  }

  // What fits is read back as it was stored.
  lemma RowAsStored(fn: Function, row: Function)
    requires FitsUpdate(fn) && Holds(row, fn)
    ensures AsStored(row)
  {
    Settled(StoredSeconds(fn.timeout));
  }

  lemma RowOfUpdate(was: Function, req: UpdateRequest, id: Id, edited: Function, fn: Function, row: Function)
    requires Takes(was, req, edited) && edited.code == was.code && FirstUpdateFault(req) == None && FitsUpdate(edited)
    requires fn == if req.code.Some? then edited.(code := InfoOf(id, Decoded(req.code.value).value)) else edited
    requires row == Overwritten(was, fn) && AsStored(was)
    ensures Updated(was, req, id, fn, row)
  {
    RowsHold(was, fn);
    UpdateTakes(was, req, id, fn, row);
  }

  lemma UpdateTakes(was: Function, req: UpdateRequest, id: Id, fn: Function, row: Function)
    requires Takes(was, req, fn) && Holds(row, fn) && AsStored(was)
    requires row.name == was.name && row.version == was.version && row.runtime == was.runtime
    ensures RowTakes(was, req, row)
  {
  }

  // ---------- the stores ----------

  // How a write to disk can go: done, failed before the file was opened, or failed half way.
  datatype WriteFault = Sound | Untouched | Torn(left: Code)

  function Written(fault: WriteFault, code: Code): Option<Code> {
    match fault
    case Sound => Some(code)
    case Untouched => None
    case Torn(left) => Some(left)
  }

  class LocalStorage {
    var files: map<Location, Code>

    constructor ()
      ensures files == map[]
    {
      files := map[];
    }

    method Store(id: Id, code: Code, fault: WriteFault) returns (location: Option<Location>)
      modifies this
      ensures location == if fault == Sound then Some(CodeAt(id)) else None
      ensures files
        == if Written(fault, code).Some? then old(files)[CodeAt(id) := Written(fault, code).value] else old(files)
    {
      match fault
      case Untouched =>
        return None;
      case Torn(left) =>
        files := files[Location(id, "code") := left];
        return None;
      case Sound =>
        files := files[Location(id, "code") := code];
        return Some(Location(id, "code"));
    }

    method Retrieve(location: Location, fails: bool) returns (code: Option<Code>)
      ensures code.Some? <==> location in files && !fails
      ensures code.Some? ==> code.value == files[location]
    {
      if location in files && !fails {
        return Some(files[location]);
      }
      return None;
    }

    // Removes the directory the location is in, not only the file.
    method Delete(location: Location, fails: bool) returns (err: bool)
      modifies this
      ensures err == fails
      ensures files == if fails then old(files) else RemoveDir(old(files), location)
      ensures !fails ==> forall l :: l in files <==> l in old(files) && l.dir != location.dir
      ensures forall l :: l in files ==> l in old(files) && files[l] == old(files)[l]
    {
      if fails {
        return true;
      }
      var functionDir := location.dir;
      files := map l | l in files && l.dir != functionDir :: files[l];
      return false;
    }
  }

  class FunctionTable {
    var rows: map<Id, Function>

    constructor ()
      ensures rows == map[]
    {
      rows := map[];
    }

    // A call that fails or violates a constraint inserts nothing. Types and checks come before the unique index.
    method Create(id: Id, fn: Function, fails: bool) returns (error: Option<Error>)
      requires id !in rows
      modifies this
      ensures error == None <==> !fails && Acceptable(old(rows), fn)
      ensures rows == if error == None then old(rows)[id := Persisted(fn)] else old(rows)
      ensures error == None ==> HoldsAll(rows[id], fn) && AsStored(rows[id])
      ensures error.Some? ==>
        error.value == if !fails && Fits(fn) && exists other :: other in rows && SameKey(rows[other], fn) then Conflict
                       else Internal
    {
      if fails || !Fits(fn) {
        return Some(Internal);
      }
      if exists other :: other in rows && SameKey(rows[other], fn) {
        return Some(Conflict);
      }
      rows := rows[id := fn.(name := Cut(fn.name, LONG), version := Cut(fn.version, SHORT),
                             runtime := Cut(fn.runtime, SHORT),
                             handler := Cut(fn.handler, LONG), timeout := StoredSeconds(fn.timeout) * SECOND)];
      RowAsStored(fn, rows[id]);
      return None;
    }

    method GetByID(id: Id, fails: bool) returns (fn: Result<Function>)
      ensures fn == if fails then Failure(Internal) else if id in rows then Success(rows[id]) else Failure(NotFound)
    {
      if fails {
        return Failure(Internal);
      }
      return if id in rows then Success(rows[id]) else Failure(NotFound);
    }

    method Update(id: Id, fn: Function, fails: bool) returns (err: bool)
      modifies this
      ensures err <==> fails || id !in old(rows) || !FitsUpdate(fn)
      ensures rows == if err then old(rows) else old(rows)[id := Overwritten(old(rows)[id], fn)]
      ensures !err ==> Holds(rows[id], fn) && AsStored(rows[id])
    {
      if fails || id !in rows || !FitsUpdate(fn) {
        return true;
      }
      rows := rows[id := rows[id].(handler := Cut(fn.handler, LONG), code := fn.code,
                                   timeout := StoredSeconds(fn.timeout) * SECOND,
                                   memory := fn.memory, concurrency := fn.concurrency, environment := fn.environment,
                                   metadata := fn.metadata)];
      RowAsStored(fn, rows[id]);
      return false;
    }

    method Delete(id: Id, fails: bool) returns (err: bool)
      modifies this
      ensures err <==> fails || id !in old(rows)
      ensures rows == if err then old(rows) else old(rows) - {id}
    {
      if fails || id !in rows {
        return true;
      }
      rows := rows - {id};
      return false;
    }
  }

  // ---------- the service ----------

  lemma CreateMatches(rows: map<Id, Function>, files: map<Location, Code>, id: Id, fn: Function,
                      files': map<Location, Code>, saved: bool)
    requires Matching(rows, files) && id !in rows
    requires forall l :: l in files && l.dir != id ==> l in files' && files'[l] == files[l]
    requires saved ==> CodeAt(id) in files' && fn.code == InfoOf(id, files'[CodeAt(id)])
    ensures Matching(if saved then rows[id := Persisted(fn)] else rows, files')
  {
  }

  // One row and one file change. They match if the new row describes the new file, or the old file is as it was.
  lemma UpdateMatches(rows: map<Id, Function>, files: map<Location, Code>, id: Id, rows': map<Id, Function>,
                      files': map<Location, Code>, saved: bool)
    requires Matching(rows, files) && id in rows && CodeAt(id) in files'
    requires id in rows' && rows' == (if saved then rows[id := rows'[id]] else rows) && files'.Keys >= files.Keys
    requires files' == files[CodeAt(id) := files'[CodeAt(id)]]
    ensures Matching(rows', files') <==> rows'[id].code == InfoOf(id, files'[CodeAt(id)])
    ensures !saved ==> (Matching(rows', files') <==> files'[CodeAt(id)] == files[CodeAt(id)])
  {
  }

  // A function that has no files leaves none when its directory is removed.
  lemma NoneLeft(files: map<Location, Code>, id: Id, code: Code)
    requires forall l :: l in files ==> l.dir != id
    ensures RemoveDir(files, CodeAt(id)) == files && RemoveDir(files[CodeAt(id) := code], CodeAt(id)) == files
  {
  }

  // Why an update is refused.
  function UpdateRefusal(found: bool, req: UpdateRequest, loadFails: bool): Error {
    if loadFails then Internal
    else if !found then NotFound
    else if FirstUpdateFault(req).Some? then Invalid(FirstUpdateFault(req).value)
    else Internal
  }

  // Why a function that is valid is not created: a conflict only if nothing else speaks against it.
  function Refusal(rows: map<Id, Function>, fn: Function, storing: WriteFault, insertFails: bool): Error {
    var taken := exists other :: other in rows && SameKey(rows[other], fn);
    if storing == Sound && !insertFails && Fits(fn) && taken then Conflict else Internal
  }

  class Service {
    const repo: FunctionTable
    const storage: LocalStorage
    ghost var state: State

    ghost predicate Valid()
      reads this, repo, storage
    {
      state.rows == repo.rows && state.files == storage.files && Inv(state) && Consistent(state.rows, state.files)
      && AllAsStored(repo.rows)
    }

    constructor (repo: FunctionTable, storage: LocalStorage)
      requires repo.rows == map[] && storage.files == map[]
      ensures Valid() && this.repo == repo && this.storage == storage && state == Init()
    {
      this.repo, this.storage := repo, storage;
      state := Init();
    }

    ghost method Commit(step: Step)
      requires Inv(state) && Consistent(state.rows, state.files) && Enabled(state, step) && Safe(state, step)
      requires Do(state, step).rows == repo.rows && Do(state, step).files == storage.files && AllAsStored(repo.rows)
      modifies this
      ensures Valid() && state == Do(old(state), step)
    {
      InvStep(state, step);
      ConsistentStep(state, step);
      state := Do(state, step);
    }

    /** The id is the UUID the service generates. */
    method CreateFunction(req: CreateRequest, id: Id, storing: WriteFault, insertFails: bool, cleanupFails: bool)
      returns (r: Result<Function>)
      requires Valid() && id !in state.used
      modifies this, repo, storage
      ensures Valid()
      ensures FirstFault(req).Some? || req.code.Malformed? ==> r.Failure? && r.error.Invalid? && state == old(state)
      ensures r.Success? <==>
        && FirstFault(req) == None && !req.code.Malformed? && storing == Sound && !insertFails
        && Acceptable(old(repo.rows), Requested(req, id))
      ensures r.Success? ==>
        && r.value == Requested(req, id)
        && repo.rows == old(repo.rows)[id := Persisted(r.value)]
        && storage.files == old(storage.files)[CodeAt(id) := Decoded(req.code).value]
      ensures r.Success? ==> Asked(req, id, r.value) && HoldsAll(repo.rows[id], r.value)
      ensures r.Failure? && FirstFault(req).Some? ==> r.error == Invalid(FirstFault(req).value)
      ensures r.Failure? && FirstFault(req).None? && !req.code.Malformed? ==>
        r.error == Refusal(old(repo.rows), Requested(req, id), storing, insertFails)
      ensures r.Failure? ==> repo.rows == old(repo.rows) && RemoveDir(storage.files, CodeAt(id)) == old(storage.files)
      ensures r.Failure? && !storing.Torn? && !cleanupFails ==> storage.files == old(storage.files)
      ensures old(Matching(repo.rows, storage.files)) ==> Matching(repo.rows, storage.files)
    {
      var fault := FirstFault(req);
      if fault.Some? {
        return Failure(Invalid(fault.value));
      }
      var decoded := Decoded(req.code);
      if decoded.None? {
        return Failure(Invalid("invalid base64 code"));
      }
      r := StoreAndInsert(req, id, decoded.value, storing, insertFails, cleanupFails);
      RequestedIsAsked(req, id);
      RowsHold(Requested(req, id), Requested(req, id));
      if old(Matching(repo.rows, storage.files)) {
        CreateMatches(old(repo.rows), old(storage.files), id, Requested(req, id), storage.files, r.Success?);
      }
    }

    // The part of CreateFunction that touches the stores.
    method StoreAndInsert(req: CreateRequest, id: Id, codeBytes: Code, storing: WriteFault, insertFails: bool,
                          cleanupFails: bool)
      returns (r: Result<Function>)
      requires Valid() && id !in state.used && Decoded(req.code) == Some(codeBytes)
      modifies this, repo, storage
      ensures Valid()
      ensures r.Success? <==> storing == Sound && !insertFails && Acceptable(old(repo.rows), Requested(req, id))
      ensures r.Success? ==>
        && r.value == Requested(req, id)
        && repo.rows == old(repo.rows)[id := Persisted(r.value)]
        && storage.files == old(storage.files)[CodeAt(id) := codeBytes]
      ensures r.Failure? ==> r.error == Refusal(old(repo.rows), Requested(req, id), storing, insertFails)
      ensures r.Failure? ==> repo.rows == old(repo.rows) && RemoveDir(storage.files, CodeAt(id)) == old(storage.files)
      ensures r.Failure? && !storing.Torn? && !cleanupFails ==> storage.files == old(storage.files)
    {
      var checksum := Digest(codeBytes);
      NoneLeft(storage.files, id, if Written(storing, codeBytes).Some? then Written(storing, codeBytes).value else []);
      ghost var r0 := |state.requests|;
      Commit(BeginCreate(id, Requested(req, id), codeBytes));
      var location := StoreFirst(id, Requested(req, id), codeBytes, storing, r0);
      if location.None? {
        return Failure(Internal);
      }
      var fn := Function(req.name, req.version, req.runtime, req.handler,
                         CodeInfo(location.value, checksum, |codeBytes|),
                         req.timeout, req.memory, req.concurrency, req.environment, req.metadata);
      var error := SaveNew(id, fn, insertFails, cleanupFails, r0);
      if error.Some? {
        return Failure(error.value);
      }
      return Success(fn);
    }

    // Writes the code of a function that has no files yet.
    method StoreFirst(id: Id, ghost fn: Function, codeBytes: Code, storing: WriteFault, ghost r0: nat)
      returns (location: Option<Location>)
      requires Valid() && At(state, r0) && state.requests[r0] == Storing(id, fn, codeBytes)
      modifies this, repo, storage
      ensures Valid() && repo.rows == old(repo.rows)
      ensures location == if storing == Sound then Some(CodeAt(id)) else None
      ensures storage.files == if storing == Untouched then old(storage.files)
                               else old(storage.files)[CodeAt(id) := Written(storing, codeBytes).value]
      ensures location.Some? ==> At(state, r0) && state.requests[r0] == Inserting(id, fn)
    {
      location := storage.Store(id, codeBytes, storing);
      Commit(StoreNew(r0, Written(storing, codeBytes), storing == Sound));
    }

    // Inserts the row, or removes the code just stored.
    method SaveNew(id: Id, fn: Function, insertFails: bool, cleanupFails: bool, ghost r0: nat)
      returns (error: Option<Error>)
      requires Valid() && At(state, r0) && state.requests[r0] == Inserting(id, fn)
      modifies this, repo, storage
      ensures Valid()
      ensures error == None <==> !insertFails && Acceptable(old(repo.rows), fn)
      ensures error == None ==> repo.rows == old(repo.rows)[id := Persisted(fn)] && storage.files == old(storage.files)
      ensures error.Some? ==> error.value == Refusal(old(repo.rows), fn, Sound, insertFails)
      ensures error.Some? ==>
        && repo.rows == old(repo.rows)
        && storage.files == if cleanupFails then old(storage.files) else RemoveDir(old(storage.files), CodeAt(id))
    {
      assert PcOk(state, state.requests[r0]);
      error := repo.Create(id, fn, insertFails);
      Commit(Insert(r0, error == None));
      if error.Some? {
        var err := storage.Delete(fn.code.source, cleanupFails);
        Commit(Undo(r0, !cleanupFails));
      }
    }

    /**
     The in-memory edits come first, then the code, then the row. An update that fails leaves checksums matching
     exactly when it brought no code, wrote nothing, or what it wrote is the code that was there.
     */
    method UpdateFunction(id: Id, req: UpdateRequest, loadFails: bool, storing: WriteFault, updateFails: bool)
      returns (r: Result<Function>)
      requires Valid()
      modifies this, repo, storage
      ensures Valid()
      ensures id !in old(repo.rows) || loadFails || FirstUpdateFault(req).Some? ==> r.Failure? && state == old(state)
      ensures r.Success? <==>
        && id in old(repo.rows) && !loadFails && FirstUpdateFault(req) == None
        && (req.code.None? || storing == Sound) && !updateFails
        && FitsUpdate(Merged(old(repo.rows)[id], req))
      ensures r.Success? ==>
        var fn := Merged(old(repo.rows)[id], req);
        && r.value == (if req.code.Some? then fn.(code := InfoOf(id, Decoded(req.code.value).value)) else fn)
        && repo.rows == old(repo.rows)[id := Overwritten(old(repo.rows)[id], r.value)]
      ensures r.Success? ==> Updated(old(repo.rows)[id], req, id, r.value, repo.rows[id])
      ensures r.Failure? ==> r.error == UpdateRefusal(id in old(repo.rows), req, loadFails)
      ensures r.Failure? ==> repo.rows == old(repo.rows)
      ensures req.code.None? ==> storage.files == old(storage.files)
      ensures storage.files - {CodeAt(id)} == old(storage.files) - {CodeAt(id)}
      ensures old(Matching(repo.rows, storage.files)) && r.Success? ==> Matching(repo.rows, storage.files)
      ensures old(Matching(repo.rows, storage.files)) && r.Failure? && id in old(repo.rows)
              && !loadFails && FirstUpdateFault(req) == None ==>
        (Matching(repo.rows, storage.files) <==>
          || req.code.None? || storing == Untouched
          || Written(storing, Decoded(req.code.value).value).value == old(storage.files)[CodeAt(id)])
    {
      var edited := LoadAndEdit(id, req, loadFails);
      if edited.Failure? {
        return edited;
      }
      r := SaveUpdate(id, req, edited.value, storing, updateFails);
      if r.Success? {
        RowOfUpdate(old(repo.rows)[id], req, id, edited.value, r.value, repo.rows[id]);
      }
    }

    // The part of UpdateFunction that touches the stores, and what that means for the checksums.
    method SaveUpdate(id: Id, req: UpdateRequest, edited: Function, storing: WriteFault, updateFails: bool)
      returns (r: Result<Function>)
      requires Valid() && id in repo.rows && FirstUpdateFault(req) == None
      requires edited.code == repo.rows[id].code
      modifies this, repo, storage
      ensures Valid()
      ensures r.Success? <==> (req.code.None? || storing == Sound) && !updateFails && FitsUpdate(edited)
      ensures r.Success? ==>
        && r.value == (if req.code.Some? then edited.(code := InfoOf(id, Decoded(req.code.value).value)) else edited)
        && repo.rows == old(repo.rows)[id := Overwritten(old(repo.rows)[id], r.value)]
      ensures r.Failure? ==> r.error == Internal && repo.rows == old(repo.rows)
      ensures req.code.None? ==> storage.files == old(storage.files)
      ensures storage.files - {CodeAt(id)} == old(storage.files) - {CodeAt(id)}
      ensures old(Matching(repo.rows, storage.files)) && r.Success? ==> Matching(repo.rows, storage.files)
      ensures old(Matching(repo.rows, storage.files)) && r.Failure? ==>
        (Matching(repo.rows, storage.files) <==>
          || req.code.None? || storing == Untouched
          || Written(storing, Decoded(req.code.value).value).value == old(storage.files)[CodeAt(id)])
    {
      var code := if req.code.Some? then Decoded(req.code.value) else None;
      r := StoreAndSave(id, edited, code, storing, updateFails);
      if old(Matching(repo.rows, storage.files)) {
        UpdateMatches(old(repo.rows), old(storage.files), id, repo.rows, storage.files, r.Success?);
      }
    }

    // The part of UpdateFunction before it touches the stores.
    method LoadAndEdit(id: Id, req: UpdateRequest, loadFails: bool) returns (r: Result<Function>)
      ensures r.Success? <==> id in repo.rows && !loadFails && FirstUpdateFault(req) == None
      ensures r.Success? ==> r.value == Merged(repo.rows[id], req)
      ensures r.Success? ==> Takes(repo.rows[id], req, r.value) && r.value.code == repo.rows[id].code
      ensures r.Failure? ==> r.error == UpdateRefusal(id in repo.rows, req, loadFails)
    {
      var loaded := repo.GetByID(id, loadFails);
      if loaded.Failure? {
        return loaded;
      }
      r := Edit(loaded.value, req);
    }

    // The edits UpdateFunction makes to the loaded record, and the checks between them.
    method Edit(loaded: Function, req: UpdateRequest) returns (r: Result<Function>)
      ensures r.Success? <==> FirstUpdateFault(req) == None
      ensures r.Success? ==>
        r.value == Merged(loaded, req) && Takes(loaded, req, r.value) && r.value.code == loaded.code
      ensures r.Failure? ==> r.error == Invalid(FirstUpdateFault(req).value)
    {
      var fn := loaded;
      if req.handler.Some? {
        fn := fn.(handler := req.handler.value);
      }
      if req.timeout.Some? {
        if req.timeout.value <= 0 {
          return Failure(Invalid("timeout must be positive"));
        }
        fn := fn.(timeout := req.timeout.value);
      }
      if req.memory.Some? {
        if req.memory.value <= 0 {
          return Failure(Invalid("memory must be positive"));
        }
        fn := fn.(memory := req.memory.value);
      }
      if req.environment.Some? {
        fn := fn.(environment := req.environment.value);
      }
      if req.concurrency.Some? {
        if req.concurrency.value <= 0 {
          return Failure(Invalid("concurrency must be positive"));
        }
        fn := fn.(concurrency := req.concurrency.value);
      }
      if req.code.Some? && Decoded(req.code.value).None? {
        return Failure(Invalid("invalid base64 code"));
      }
      return Success(fn);
    }

    // The part of UpdateFunction that touches the stores.
    method StoreAndSave(id: Id, edited: Function, code: Option<Code>, storing: WriteFault, updateFails: bool)
      returns (r: Result<Function>)
      requires Valid() && id in repo.rows && edited.code == repo.rows[id].code
      modifies this, repo, storage
      ensures Valid()
      ensures r.Success? <==> (code.None? || storing == Sound) && !updateFails && FitsUpdate(edited)
      ensures r.Success? ==>
        && r.value == (if code.Some? then edited.(code := InfoOf(id, code.value)) else edited)
        && repo.rows == old(repo.rows)[id := Overwritten(old(repo.rows)[id], r.value)]
      ensures r.Failure? ==> r.error == Internal
      ensures r.Failure? ==> repo.rows == old(repo.rows)
      ensures storage.files == if code.None? || storing == Untouched then old(storage.files)
                               else old(storage.files)[CodeAt(id) := Written(storing, code.value).value]
    {
      ghost var r0 := |state.requests|;
      Commit(BeginUpdate(id));
      var fn := edited;
      if code.Some? {
        var stored := StoreCode(id, fn, code.value, storing, r0);
        if stored.None? {
          return Failure(Internal);
        }
        fn := stored.value;
      }
      r := SaveEdited(id, fn, updateFails, r0);
    }

    // Writes the new code, and describes it in the record.
    method StoreCode(id: Id, edited: Function, code: Code, storing: WriteFault, ghost r0: nat)
      returns (fn: Option<Function>)
      requires Valid() && id in repo.rows
      requires At(state, r0) && state.requests[r0].Loaded? && state.requests[r0].id == id
      requires state.requests[r0].fn.code == edited.code
      modifies this, repo, storage
      ensures Valid() && repo.rows == old(repo.rows)
      ensures fn == if storing == Sound then Some(edited.(code := InfoOf(id, code))) else None
      ensures storage.files == if storing == Untouched then old(storage.files)
                               else old(storage.files)[CodeAt(id) := Written(storing, code).value]
      ensures fn.Some? ==>
        && At(state, r0) && state.requests[r0].Stored? && state.requests[r0].id == id
        && state.requests[r0].fn.code == InfoOf(id, code)
    {
      var location := storage.Store(id, code, storing);
      Commit(StoreUpdate(r0, code, Written(storing, code), storing == Sound));
      if location.None? {
        return None;
      }
      fn := Some(edited.(code := CodeInfo(location.value, Digest(code), |code|)));
    }

    // Writes the row.
    method SaveEdited(id: Id, fn: Function, updateFails: bool, ghost r0: nat) returns (r: Result<Function>)
      requires Valid() && id in repo.rows
      requires At(state, r0) && Editing(state.requests[r0]) && state.requests[r0].id == id
      requires state.requests[r0].fn.code == fn.code
      modifies this, repo, storage
      ensures Valid()
      ensures r == if updateFails || !FitsUpdate(fn) then Failure(Internal) else Success(fn)
      ensures repo.rows
        == if r.Success? then old(repo.rows)[id := Overwritten(old(repo.rows)[id], fn)] else old(repo.rows)
      ensures storage.files == old(storage.files)
    {
      var err := repo.Update(id, fn, updateFails);
      Commit(Save(r0, fn, !err));
      if err {
        return Failure(Internal);
      }
      return Success(fn);
    }

    /** The row goes first; what happens to the code afterwards does not change the answer. */
    method DeleteFunction(id: Id, loadFails: bool, deleteFails: bool, removeFails: bool) returns (error: Option<Error>)
      requires Valid()
      modifies this, repo, storage
      ensures Valid()
      ensures error == None <==> id in old(repo.rows) && !loadFails && !deleteFails
      ensures error.Some? ==> error.value == if !loadFails && id !in old(repo.rows) then NotFound else Internal
      ensures error.Some? ==> repo.rows == old(repo.rows) && storage.files == old(storage.files)
      ensures error == None ==> repo.rows == old(repo.rows) - {id}
      ensures error == None ==>
        storage.files == if removeFails then old(storage.files) else RemoveDir(old(storage.files), CodeAt(id))
      ensures old(Matching(repo.rows, storage.files)) ==> Matching(repo.rows, storage.files)
    {
      var loaded := repo.GetByID(id, loadFails);
      if loaded.Failure? {
        return Some(loaded.error);
      }
      error := DropAndRemove(id, loaded.value.code.source, deleteFails, removeFails);
    }

    // The part of DeleteFunction that touches the stores.
    method DropAndRemove(id: Id, source: Location, deleteFails: bool, removeFails: bool) returns (error: Option<Error>)
      requires Valid() && id in repo.rows && source == repo.rows[id].code.source
      modifies this, repo, storage
      ensures Valid()
      ensures error == if deleteFails then Some(Internal) else None
      ensures repo.rows == if deleteFails then old(repo.rows) else old(repo.rows) - {id}
      ensures storage.files
        == if deleteFails || removeFails then old(storage.files) else RemoveDir(old(storage.files), CodeAt(id))
    {
      ghost var r0 := |state.requests|;
      Commit(BeginDelete(id));
      var err := repo.Delete(id, deleteFails);
      Commit(DeleteRow(r0, !err, !err));
      if err {
        return Some(Internal);
      }
      err := storage.Delete(source, removeFails);
      Commit(RemoveCode(r0, !removeFails));
      return None;
    }
  }
}
