/**
 The two runtimes: what Execute makes of the way a container or a process ended, and what it leaves
 behind. Docker, the file system and the started program decide a World; the clean-up is deferred and
 runs in reverse order, after an error and after a panic as well.
 */
module Runtimes {
  import opened Types
  import Demux
  import Protocol

  datatype Runtime = Go | Python | NodeJS | Other(name: string)

  datatype Spec = Spec(runtime: Runtime, handler: string, payload: string, environment: map<string, string>)

  // How a wait for a container can end: an error on the error channel, a nil there, a status, the context's end.
  datatype Wait = Broken | Closed | Exited(code: int) | ContextDone

  datatype Stats = Stats(memory: int, networkIn: int, networkOut: int)

  // Execute can also end the worker, by dereferencing a nil pointer.
  datatype Verdict = Ended(outcome: Protocol.Outcome) | Panicked

  datatype Cleanup = RemoveDir(dir: string) | CancelContext | ForceRemove(container: Id)

  datatype Call =
    | Made(dir: string)
    | Created(container: Id, env: seq<string>)
    | Started(container: Id)
    | Killed(container: Id)
    | Spawned(env: seq<string>)
    | Cleaned(cleanup: Cleanup)

  function FailedResult(kind: string, message: string, stack: string, metrics: Metrics): ExecutionResult {
    ExecutionResult(Status.Failed, None, Some(ExecutionError(kind, message, stack)), Some(metrics))
  }

  function Elapsed(duration: nat): Metrics {
    Metrics(duration, 0, 0, 0, 0)
  }

  // ---------- the host ----------

  // Containers and execution directories on the machine, and the calls made, oldest first.
  class Host {
    var dirs: set<string>
    var containers: set<Id>
    var calls: seq<Call>

    method MakeDir(dir: string, ok: bool) returns (err: bool)
      modifies this
      ensures err == !ok && containers == old(containers)
      ensures dirs == old(dirs) + if ok then {dir} else {}
      ensures calls == old(calls) + if ok then [Made(dir)] else []
    {
      if ok {
        dirs := dirs + {dir};
        calls := calls + [Made(dir)];
      }
      return !ok;
    }

    method CreateContainer(container: Option<Id>, env: seq<string>) returns (err: bool)
      modifies this
      ensures err == container.None? && dirs == old(dirs)
      ensures containers == old(containers) + if container.Some? then {container.value} else {}
      ensures calls == old(calls) + if container.Some? then [Created(container.value, env)] else []
    {
      if container.Some? {
        containers := containers + {container.value};
        calls := calls + [Created(container.value, env)];
      }
      return container.None?;
    }

    method StartContainer(container: Id, ok: bool) returns (err: bool)
      modifies this`calls
      ensures err == !ok
      ensures calls == old(calls) + if ok then [Started(container)] else []
    {
      if ok {
        calls := calls + [Started(container)];
      }
      return !ok;
    }

    /**
     Zero is reported for a container that exited with it, and for nothing else; only a wait the context ended kills.
     */
    method WaitContainer(container: Id, wait: Wait) returns (code: int, err: bool)
      modifies this`calls
      ensures code == 0 <==> wait == Exited(0)
      ensures err <==> !wait.Exited?
      ensures wait.Exited? ==> code == wait.code
      ensures !wait.Exited? ==> code == -1
      ensures calls == old(calls) + if wait.ContextDone? then [Killed(container)] else []
    {
      match wait {
        case Broken => return -1, true;
        case Exited(status) => return status, false;
        case ContextDone =>
          calls := calls + [Killed(container)];
          return -1, true;
        case Closed =>
      }
      return -1, true;
    }

    method Spawn(env: seq<string>)
      modifies this`calls
      ensures calls == old(calls) + [Spawned(env)]
    {
      calls := calls + [Spawned(env)];
    }

    /** The deferred clean-up: last deferred, first run; whatever fails is ignored. */
    method RunDeferred(deferred: seq<Cleanup>, removable: set<Cleanup>)
      modifies this
      ensures calls == old(calls) + Unwound(deferred)
      ensures dirs == old(dirs) - set d | d in old(dirs) && RemoveDir(d) in deferred && RemoveDir(d) in removable
      ensures containers ==
        old(containers) - set c | c in old(containers) && ForceRemove(c) in deferred && ForceRemove(c) in removable
    {
      var i := |deferred|;
      assert deferred[i..] == [];
      while i > 0
        invariant i <= |deferred|
        invariant calls == old(calls) + Unwound(deferred[i..])
        invariant dirs ==
          old(dirs) - set d | d in old(dirs) && RemoveDir(d) in deferred[i..] && RemoveDir(d) in removable
        invariant containers == old(containers) -
          set c | c in old(containers) && ForceRemove(c) in deferred[i..] && ForceRemove(c) in removable
      {
        i := i - 1;
        assert deferred[i..] == [deferred[i]] + deferred[i + 1..];
        UnwoundOneMore(deferred[i], deferred[i + 1..]);
        if deferred[i] in removable {
          match deferred[i] {
            case RemoveDir(dir) => dirs := dirs - {dir};
            case ForceRemove(container) => containers := containers - {container};
            case CancelContext =>
          }
        }
        calls := calls + [Cleaned(deferred[i])];
      }
      assert deferred[0..] == deferred;
    }
  }

  function Unwound(deferred: seq<Cleanup>): seq<Call> {
    seq(|deferred|, k requires 0 <= k < |deferred| => Cleaned(deferred[|deferred| - 1 - k]))
  }

  lemma UnwoundOneMore(first: Cleanup, rest: seq<Cleanup>)
    ensures Unwound([first] + rest) == Unwound(rest) + [Cleaned(first)]
  {
  }

  // ---------- containers ----------

  datatype World = World(image: bool, mkdir: bool, write: bool, container: Option<Id>, start: bool, wait: Wait,
                         late: bool,                       // the deadline has passed when the wait is over
                         logs: Option<Demux.bytes>, stats: Option<Stats>, duration: nat, removable: set<Cleanup>)

  // The container is started and waited for.
  predicate Runs(spec: Spec, world: World) {
    !spec.runtime.Other? && world.image && world.mkdir && world.write && world.container.Some? && world.start
  }

  // The log as Execute sees it: headers stripped, nothing when it cannot be read.
  function Log(world: World): Demux.bytes {
    if world.logs.Some? then Demux.Strip(world.logs.value) else []
  }

  // What WaitContainer says of an end.
  function ExitCode(wait: Wait): int {
    if wait.Exited? then wait.code else -1
  }

  // The time is always measured, the rest of a container that ended in time.
  predicate Measured(spec: Spec, world: World, metrics: Metrics) {
    && metrics.duration == world.duration && metrics.cpuTime == 0
    && if Runs(spec, world) && !world.late && world.stats.Some? then
         && metrics.memoryPeak == world.stats.value.memory
         && metrics.networkIn == world.stats.value.networkIn && metrics.networkOut == world.stats.value.networkOut
       else metrics.memoryPeak == 0 && metrics.networkIn == 0 && metrics.networkOut == 0
  }

  // Every error says what went wrong, and that of a container that failed by itself its exit code and its log.
  predicate Blamed(spec: Spec, world: World, asOutput: Demux.bytes -> Output, error: ExecutionError) {
    if spec.runtime.Other? then
      error.kind == "UnsupportedRuntime" && error.message == "unsupported runtime: " + spec.runtime.name
        && error.stack == ""
    else if !world.image then error.kind == "ImageError" && error.stack == ""
    else if world.late then
      error.kind == "TimeoutError" && error.message == "Function execution timed out" && error.stack == ""
    else
      && error.kind == "RuntimeError" && error.stack == asOutput(Log(world)).text
      && error.message == "Function exited with code " + Decimal(ExitCode(world.wait))
  }

  // Every result says how the run ended.
  predicate Classified(spec: Spec, world: World, asOutput: Demux.bytes -> Output, result: ExecutionResult) {
    && (result.status == TimedOut <==> Runs(spec, world) && world.late)
    && (result.status == Completed <==> Runs(spec, world) && !world.late && world.wait == Exited(0))
    && (result.output == if result.status == Completed then Some(asOutput(Log(world))) else None)
    && (result.error.Some? ==> Blamed(spec, world, asOutput, result.error.value))
    && result.metrics.Some? && Measured(spec, world, result.metrics.value)
  }

  predicate MakesDir(spec: Spec, world: World) {
    !spec.runtime.Other? && world.image && world.mkdir
  }

  predicate MakesContainer(spec: Spec, world: World) {
    MakesDir(spec, world) && world.write && world.container.Some?
  }

  // What is still to be undone when the work of Execute is over.
  function Deferred(spec: Spec, dir: string, world: World): seq<Cleanup> {
    if !MakesDir(spec, world) then []
    else if !world.write then [RemoveDir(dir)]
    else [RemoveDir(dir), CancelContext] + if MakesContainer(spec, world) then [ForceRemove(world.container.value)]
      else []
  }

  // Nothing is cleaned up yet, and what was made is deferred for it.
  predicate Balanced(calls: seq<Call>, deferred: seq<Cleanup>) {
    forall call :: call in calls ==>
      && !call.Cleaned?
      && (call.Made? ==> RemoveDir(call.dir) in deferred)
      && (call.Created? ==> ForceRemove(call.container) in deferred)
  }

  predicate DirFirst(deferred: seq<Cleanup>) {
    forall k :: 0 < k < |deferred| ==> !deferred[k].RemoveDir?
  }

  lemma UnwoundTidies(calls: seq<Call>, deferred: seq<Cleanup>)
    requires Balanced(calls, deferred) && DirFirst(deferred)
    ensures Tidy(calls + Unwound(deferred))
  {
    var all := calls + Unwound(deferred);
    forall i, cleanup | 0 <= i < |calls| && cleanup in deferred
      ensures Follows(all, i, Cleaned(cleanup))
    {
      var k :| 0 <= k < |deferred| && deferred[k] == cleanup;
      assert all[|calls| + (|deferred| - 1 - k)] == Cleaned(cleanup);
    }
    forall i | 0 <= i < |all|
      ensures all[i].Made? ==> Follows(all, i, Cleaned(RemoveDir(all[i].dir)))
      ensures all[i].Created? ==> Follows(all, i, Cleaned(ForceRemove(all[i].container)))
      ensures all[i].Cleaned? && all[i].cleanup.RemoveDir? ==> i == |all| - 1
    {
      if i < |calls| {
        assert all[i] == calls[i] && calls[i] in calls;
      }
    }
  }

  predicate Follows(calls: seq<Call>, i: nat, call: Call) {
    exists j :: i < j < |calls| && calls[j] == call
  }

  /** Whatever was made is removed again, and the directory last of all: after the container that mounts it. */
  predicate Tidy(calls: seq<Call>) {
    forall i :: 0 <= i < |calls| ==>
      && (calls[i].Made? ==> Follows(calls, i, Cleaned(RemoveDir(calls[i].dir))))
      && (calls[i].Created? ==> Follows(calls, i, Cleaned(ForceRemove(calls[i].container))))
      && (calls[i].Cleaned? && calls[i].cleanup.RemoveDir? ==> i == |calls| - 1)
  }

  // ---------- environments ----------

  // The entry gives the variable a value.
  predicate Binds(entry: string, name: string) {
    |name| < |entry| && entry[..|name|] == name && entry[|name|] == '='
  }

  // The value a process sees: of entries for one variable the last counts.
  function Lookup(env: seq<string>, name: string): Option<string> {
    if env == [] then None
    else
      var last := env[|env| - 1];
      if Binds(last, name) then Some(last[|name| + 1..]) else Lookup(env[..|env| - 1], name)
  }

  function Entry(key: string, value: string): string {
    key + "=" + value
  }

  lemma EntryBinds(key: string, value: string, name: string)
    requires '=' !in key && '=' !in name
    ensures Binds(Entry(key, value), name) <==> key == name
    ensures key == name ==> Entry(key, value)[|name| + 1..] == value
  {
    var entry := Entry(key, value);
    assert entry[..|key|] == key && entry[|key|] == '=';
    if |name| < |key| {
      assert entry[|name|] == key[|name|];
    } else if |key| < |name| < |entry| {
      assert entry[..|name|][|key|] == '=';
    }
  }

  lemma LookupLast(env: seq<string>, entry: string, name: string)
    ensures Lookup(env + [entry], name) == if Binds(entry, name) then Some(entry[|name| + 1..]) else Lookup(env, name)
  {
    assert (env + [entry])[..|env|] == env;
  }

  lemma AddEntry(env: seq<string>, key: string, value: string)
    ensures '=' !in key ==> forall name :: '=' !in name ==>
      Lookup(env + [Entry(key, value)], name) == if key == name then Some(value) else Lookup(env, name)
  {
    forall name | '=' !in key && '=' !in name
      ensures Lookup(env + [Entry(key, value)], name) == if key == name then Some(value) else Lookup(env, name)
    {
      EntryBinds(key, value, name);
      LookupLast(env, Entry(key, value), name);
    }
  }

  // ---------- the environment of a container ----------

  // Names in some order, each once, as a loop over a map takes them.
  ghost predicate OrderOf(keys: seq<string>, names: set<string>) {
    && (forall i, j :: 0 <= i < j < |keys| ==> keys[i] != keys[j])
    && (forall key :: key in keys <==> key in names)
  }

  lemma OneNameMore(keys: seq<string>, names: set<string>, key: string)
    requires OrderOf(keys, names) && key !in names
    ensures OrderOf(keys + [key], names + {key})
  {
    assert key !in keys;
  }

  function Entries(keys: seq<string>, environment: map<string, string>): seq<string>
    requires forall key :: key in keys ==> key in environment
  {
    if keys == [] then []
    else (var n := |keys| - 1; Entries(keys[..n], environment) + [Entry(keys[n], environment[keys[n]])])
  }

  lemma EntriesLast(keys: seq<string>, key: string, environment: map<string, string>)
    requires (forall k :: k in keys ==> k in environment) && key in environment
    ensures Entries(keys + [key], environment) == Entries(keys, environment) + [Entry(key, environment[key])]
  {
    assert (keys + [key])[..|keys|] == keys;
  }

  // The list so far, with these keys left.
  ghost predicate Listed(spec: Spec, keys: seq<string>, left: set<string>, env: seq<string>) {
    && OrderOf(keys, spec.environment.Keys - left)
    && env == [Entry("FUNCTION_HANDLER", spec.handler), Entry("FUNCTION_PAYLOAD", spec.payload)]
            + Entries(keys, spec.environment)
  }

  lemma ListedMore(spec: Spec, keys: seq<string>, left: set<string>, env: seq<string>, key: string)
    requires Listed(spec, keys, left, env) && key in left && left <= spec.environment.Keys
    ensures Listed(spec, keys + [key], left - {key}, env + [Entry(key, spec.environment[key])])
  {
    OneNameMore(keys, spec.environment.Keys - left, key);
    assert spec.environment.Keys - left + {key} == spec.environment.Keys - (left - {key});
    EntriesLast(keys, key, spec.environment);
  }

  // CreateContainer's list: handler and payload first, then the function's own variables.
  ghost function ContainerEnv(spec: Spec, keys: seq<string>): seq<string>
    requires OrderOf(keys, spec.environment.Keys)
  {
    [Entry("FUNCTION_HANDLER", spec.handler), Entry("FUNCTION_PAYLOAD", spec.payload)] + Entries(keys, spec.environment)
  }

  ghost predicate InSomeOrder(spec: Spec, env: seq<string>) {
    exists keys :: OrderOf(keys, spec.environment.Keys) && env == ContainerEnv(spec, keys)
  }

  // The calls up to the start of the container, and what the wait adds.
  function Launch(spec: Spec, dir: string, world: World, env: seq<string>): seq<Call> {
    (if MakesDir(spec, world) then [Made(dir)] else [])
    + (if MakesContainer(spec, world) then [Created(world.container.value, env)] else [])
    + (if Runs(spec, world) then [Started(world.container.value)] else [])
  }

  function Kill(spec: Spec, world: World): seq<Call> {
    if Runs(spec, world) && world.wait.ContextDone? then [Killed(world.container.value)] else []
  }

  // All calls of a run, in order: the directory, the container with its environment, its start, perhaps a kill, the
  // clean-up.
  ghost predicate Acts(spec: Spec, dir: string, world: World, calls: seq<Call>) {
    exists env ::
      && calls == Launch(spec, dir, world, env) + Kill(spec, world) + Unwound(Deferred(spec, dir, world))
      && (MakesContainer(spec, world) ==> InSomeOrder(spec, env))
  }

  lemma WorkBalanced(spec: Spec, dir: string, world: World, env: seq<string>)
    ensures Balanced(Launch(spec, dir, world, env) + Kill(spec, world), Deferred(spec, dir, world))
    ensures DirFirst(Deferred(spec, dir, world))
  {
  }

  lemma Since(before: seq<Call>, a: seq<Call>, b: seq<Call>, c: seq<Call>, calls: seq<Call>)
    requires calls == before + a + b + c
    ensures before <= calls && calls[|before|..] == a + b + c
  {
  }

  // Every entry of the function's own that binds the name gives it this value.
  predicate Leaves(environment: map<string, string>, name: string, value: string) {
    forall key :: key in environment && Binds(Entry(key, environment[key]), name) ==>
      Entry(key, environment[key])[|name| + 1..] == value
  }

  lemma {:induction false} LeavesAll(base: seq<string>, keys: seq<string>, environment: map<string, string>,
                                     name: string, value: string)
    requires (forall key :: key in keys ==> key in environment) && Leaves(environment, name, value)
    requires Lookup(base, name) == Some(value)
    ensures Lookup(base + Entries(keys, environment), name) == Some(value)
    decreases |keys|
  {
    if keys == [] {
      assert base + [] == base;
    } else {
      var n := |keys| - 1;
      var entry := Entry(keys[n], environment[keys[n]]);
      LeavesAll(base, keys[..n], environment, name, value);
      assert base + Entries(keys, environment) == base + Entries(keys[..n], environment) + [entry];
      LookupLast(base + Entries(keys[..n], environment), entry, name);
      assert keys[n] in environment;
    }
  }

  lemma {:induction false} Enumerated(keys: set<string>) returns (order: seq<string>)
    ensures OrderOf(order, keys)
    decreases |keys|
  {
    if keys == {} {
      order := [];
    } else {
      var key :| key in keys;
      order := Enumerated(keys - {key});
      OneNameMore(order, keys - {key}, key);
      order := order + [key];
      assert keys - {key} + {key} == keys;
    }
  }

  lemma OwnValues(spec: Spec)
    ensures var own := [Entry("FUNCTION_HANDLER", spec.handler), Entry("FUNCTION_PAYLOAD", spec.payload)];
      Lookup(own, "FUNCTION_HANDLER") == Some(spec.handler) && Lookup(own, "FUNCTION_PAYLOAD") == Some(spec.payload)
  {
    assert "FUNCTION_PAYLOAD"[9] != "FUNCTION_HANDLER"[9];
    AddEntry([], "FUNCTION_HANDLER", spec.handler);
    AddEntry([Entry("FUNCTION_HANDLER", spec.handler)], "FUNCTION_PAYLOAD", spec.payload);
    assert [] + [Entry("FUNCTION_HANDLER", spec.handler)] == [Entry("FUNCTION_HANDLER", spec.handler)];
    assert [Entry("FUNCTION_HANDLER", spec.handler)] + [Entry("FUNCTION_PAYLOAD", spec.payload)]
        == [Entry("FUNCTION_HANDLER", spec.handler), Entry("FUNCTION_PAYLOAD", spec.payload)];
  }

  // With the key that hides the value at the end, it is hidden.
  lemma Hidden(spec: Spec, name: string, key: string) returns (keys: seq<string>)
    requires key in spec.environment && Binds(Entry(key, spec.environment[key]), name)
    ensures OrderOf(keys, spec.environment.Keys)
    ensures Lookup(ContainerEnv(spec, keys), name) == Some(Entry(key, spec.environment[key])[|name| + 1..])
  {
    var others := Enumerated(spec.environment.Keys - {key});
    keys := others + [key];
    OneNameMore(others, spec.environment.Keys - {key}, key);
    assert spec.environment.Keys - {key} + {key} == spec.environment.Keys;
    EntriesLast(others, key, spec.environment);
    var own := [Entry("FUNCTION_HANDLER", spec.handler), Entry("FUNCTION_PAYLOAD", spec.payload)];
    var entry := Entry(key, spec.environment[key]);
    assert own + (Entries(others, spec.environment) + [entry]) == own + Entries(others, spec.environment) + [entry];
    LookupLast(own + Entries(others, spec.environment), entry, name);
  }

  /**
   In a container, payload and handler are sure to get through exactly when no variable of the function's own gives
   their names another value.
   */
  lemma ContainerServed(spec: Spec)
    ensures (forall keys :: OrderOf(keys, spec.environment.Keys) ==>
             Lookup(ContainerEnv(spec, keys), "FUNCTION_PAYLOAD") == Some(spec.payload))
       <==> Leaves(spec.environment, "FUNCTION_PAYLOAD", spec.payload)
    ensures (forall keys :: OrderOf(keys, spec.environment.Keys) ==>
             Lookup(ContainerEnv(spec, keys), "FUNCTION_HANDLER") == Some(spec.handler))
       <==> Leaves(spec.environment, "FUNCTION_HANDLER", spec.handler)
  {
    OwnValues(spec);
    GetsThrough(spec, "FUNCTION_PAYLOAD", spec.payload);
    GetsThrough(spec, "FUNCTION_HANDLER", spec.handler);
  }

  lemma GetsThrough(spec: Spec, name: string, value: string)
    requires Lookup([Entry("FUNCTION_HANDLER", spec.handler), Entry("FUNCTION_PAYLOAD", spec.payload)], name)
      == Some(value)
    ensures (forall keys :: OrderOf(keys, spec.environment.Keys) ==>
             Lookup(ContainerEnv(spec, keys), name) == Some(value))
       <==> Leaves(spec.environment, name, value)
  {
    var own := [Entry("FUNCTION_HANDLER", spec.handler), Entry("FUNCTION_PAYLOAD", spec.payload)];
    if Leaves(spec.environment, name, value) {
      forall keys | OrderOf(keys, spec.environment.Keys) ensures Lookup(ContainerEnv(spec, keys), name) == Some(value) {
        LeavesAll(own, keys, spec.environment, name, value);
      }
    } else {
      var key :| key in spec.environment && Binds(Entry(key, spec.environment[key]), name)
              && Entry(key, spec.environment[key])[|name| + 1..] != value;
      var keys := Hidden(spec, name, key);
    }
  }

  class ContainerRuntime {
    const host: Host

    constructor (host: Host)
      ensures this.host == host
    {
      this.host := host;
    }

    // The list CreateContainer makes of a container's environment.
    method BuildEnv(spec: Spec) returns (env: seq<string>, ghost keys: seq<string>)
      ensures OrderOf(keys, spec.environment.Keys) && env == ContainerEnv(spec, keys)
    {
      env := [];
      env := env + [Entry("FUNCTION_HANDLER", spec.handler)];
      env := env + [Entry("FUNCTION_PAYLOAD", spec.payload)];
      keys := [];
      var left := spec.environment.Keys;
      while left != {}
        invariant left <= spec.environment.Keys && Listed(spec, keys, left, env)
        decreases |left|
      {
        var key :| key in left;
        ListedMore(spec, keys, left, env, key);
        env := env + [Entry(key, spec.environment[key])];
        keys := keys + [key];
        left := left - {key};
      }
    }

    // The lookup of the image; without one there is a result, but no run.
    method FindImage(spec: Spec, world: World, ghost asOutput: Demux.bytes -> Output)
      returns (early: Option<Protocol.Outcome>)
      ensures early.None? <==> !spec.runtime.Other? && world.image
      ensures early.Some? ==>
        && early.value.Produced? && early.value.result.WellFormed()
        && Classified(spec, world, asOutput, early.value.result)
    {
      if spec.runtime.Other? {
        return Some(Protocol.Produced(FailedResult("UnsupportedRuntime", "unsupported runtime: " + spec.runtime.name,
                                                   "", Elapsed(world.duration))));
      }
      if !world.image {
        return Some(Protocol.Produced(FailedResult("ImageError", "failed to ensure runtime image", "",
                                                   Elapsed(world.duration))));
      }
      return None;
    }

    // Up to the start of the container; an outcome only if that is not reached.
    method Prepare(spec: Spec, dir: string, world: World, ghost asOutput: Demux.bytes -> Output)
      returns (early: Option<Protocol.Outcome>, deferred: seq<Cleanup>, ghost env: seq<string>)
      modifies host
      ensures early.None? <==> Runs(spec, world)
      ensures early.Some? ==> (early.value.GoError? <==> !spec.runtime.Other? && world.image)
      ensures early.Some? && early.value.Produced? ==>
        early.value.result.WellFormed() && Classified(spec, world, asOutput, early.value.result)
      ensures deferred == Deferred(spec, dir, world)
      ensures host.dirs == old(host.dirs) + if MakesDir(spec, world) then {dir} else {}
      ensures host.containers
        == old(host.containers) + if MakesContainer(spec, world) then {world.container.value} else {}
      ensures host.calls == old(host.calls) + Launch(spec, dir, world, env)
      ensures MakesContainer(spec, world) ==> InSomeOrder(spec, env)
    {
      deferred, env := [], [];
      early := FindImage(spec, world, asOutput);
      if early.Some? {
        return;
      }
      var err := host.MakeDir(dir, world.mkdir);
      if err {
        return Some(Protocol.GoError("failed to create execution directory")), deferred, env;
      }
      deferred := deferred + [RemoveDir(dir)];
      if !world.write {
        return Some(Protocol.GoError("failed to write function code")), deferred, env;
      }
      deferred := deferred + [CancelContext];
      ghost var keys;
      var variables;
      variables, keys := BuildEnv(spec);
      env := variables;
      err := host.CreateContainer(world.container, variables);
      if err {
        return Some(Protocol.GoError("failed to create container")), deferred, env;
      }
      deferred := deferred + [ForceRemove(world.container.value)];
      err := host.StartContainer(world.container.value, world.start);
      if err {
        return Some(Protocol.GoError("failed to start container")), deferred, env;
      }
      return None, deferred, env;
    }

    // From the wait on.
    method Observe(spec: Spec, world: World, asOutput: Demux.bytes -> Output) returns (verdict: Verdict)
      requires Runs(spec, world)
      modifies host`calls
      ensures verdict.Panicked? <==> !world.late && world.stats.None?
      ensures verdict.Ended? ==> verdict.outcome.Produced? && verdict.outcome.result.WellFormed()
      ensures verdict.Ended? ==> Classified(spec, world, asOutput, verdict.outcome.result)
      ensures host.calls == old(host.calls) + if world.wait.ContextDone? then [Killed(world.container.value)] else []
    {
      var exitCode, err := host.WaitContainer(world.container.value, world.wait);
      if world.late {
        return Ended(Protocol.Produced(FailedResult("TimeoutError", "Function execution timed out", "",
                                                    Elapsed(world.duration)).(status := TimedOut)));
      }
      var logs := [];
      if world.logs.Some? {
        logs := Demux.StripDockerLogHeaders(world.logs.value);
      }
      if world.stats.None? {
        return Panicked;
      }
      var stats := world.stats.value;
      var metrics := Metrics(world.duration, 0, stats.memory, stats.networkIn, stats.networkOut);
      var result;
      if exitCode == 0 {
        result := ExecutionResult(Completed, Some(asOutput(logs)), None, Some(metrics));
      } else {
        result := FailedResult("RuntimeError", "Function exited with code " + Decimal(exitCode), asOutput(logs).text,
                               metrics);
      }
      return Ended(Protocol.Produced(result));
    }

    /** The whole of Execute: the verdict, and a machine cleaned up, the container before the directory it mounts. */
    method Execute(spec: Spec, dir: string, world: World, asOutput: Demux.bytes -> Output) returns (verdict: Verdict)
      requires dir !in host.dirs
      requires world.container.Some? ==> world.container.value !in host.containers
      modifies host
      ensures verdict.Ended? && verdict.outcome.Produced? ==> verdict.outcome.result.WellFormed()
      ensures verdict.Ended? && verdict.outcome.GoError? <==> !spec.runtime.Other? && world.image && !Runs(spec, world)
      ensures verdict.Panicked? <==> Runs(spec, world) && !world.late && world.stats.None?
      ensures verdict.Ended? && verdict.outcome.Produced? ==> Classified(spec, world, asOutput, verdict.outcome.result)
      ensures RemoveDir(dir) in world.removable ==> host.dirs == old(host.dirs)
      ensures world.container.Some? && ForceRemove(world.container.value) in world.removable ==>
        host.containers == old(host.containers)
      ensures old(host.calls) <= host.calls && Tidy(host.calls[|old(host.calls)|..])
      ensures Acts(spec, dir, world, host.calls[|old(host.calls)|..])
    {
      var early, deferred;
      ghost var env;
      early, deferred, env := Prepare(spec, dir, world, asOutput);
      if early.Some? {
        verdict := Ended(early.value);
      } else {
        verdict := Observe(spec, world, asOutput);
      }
      host.RunDeferred(deferred, world.removable);
      ghost var added := Launch(spec, dir, world, env) + Kill(spec, world);
      WorkBalanced(spec, dir, world, env);
      UnwoundTidies(added, deferred);
      Since(old(host.calls), Launch(spec, dir, world, env), Kill(spec, world), Unwound(deferred), host.calls);
    }
  }

  function Digit(d: nat): char
    requires d < 10
  {
    ['0', '1', '2', '3', '4', '5', '6', '7', '8', '9'][d]
  }

  function Digits(n: nat): string {
    (if n < 10 then "" else Digits(n / 10)) + [Digit(n % 10)]
  }

  function Decimal(n: int): string {
    if n < 0 then "-" + Digits(-n) else Digits(n)
  }

  // The number a text in decimal digits stands for.
  function Value(digits: string): int {
    if digits == "" then 0
    else 10 * Value(digits[..|digits| - 1]) + (digits[|digits| - 1] as int - '0' as int)
  }

  function Parsed(text: string): int {
    if text != "" && text[0] == '-' then -Value(text[1..]) else Value(text)
  }

  lemma {:induction false} ValueSnoc(digits: string, d: nat)
    requires d < 10
    ensures Value(digits + [Digit(d)]) == 10 * Value(digits) + d && Digit(d) != '-'
  {
    assert (digits + [Digit(d)])[..|digits|] == digits;
  }

  lemma {:induction false} DigitsValue(n: nat)
    ensures Digits(n) != "" && Digits(n)[0] != '-' && Value(Digits(n)) == n
  {
    if n < 10 {
      ValueSnoc("", n);
      assert "" + [Digit(n)] == [Digit(n)] == Digits(n);
    } else {
      DigitsValue(n / 10);
      ValueSnoc(Digits(n / 10), n % 10);
    }
  }

  lemma {:induction false} ParsedSigned(digits: string)
    requires digits != "" && digits[0] != '-'
    ensures Parsed(digits) == Value(digits) && Parsed("-" + digits) == -Value(digits)
  {
    assert ("-" + digits)[1..] == digits;
  }

  /** The exit code can be read back from the message of a failed run. */
  lemma {:induction false} DecimalNames(n: int)
    ensures Parsed(Decimal(n)) == n
  {
    var size := if n < 0 then -n else n;
    DigitsValue(size);
    ParsedSigned(Digits(size));
  }

  /** What a container printed in frames is what a completed run reports. */
  lemma CompletedOutput(spec: Spec, world: World, asOutput: Demux.bytes -> Output, result: ExecutionResult,
                        printed: Demux.Frames)
    requires Classified(spec, world, asOutput, result) && result.status == Completed
    requires world.logs == Some(Demux.EncodeAll(printed))
    ensures result.output == Some(asOutput(Demux.Payloads(printed)))
  {
    Demux.RoundTrip(printed);
  }

  // ---------- processes ----------

  datatype ProcessWorld = ProcessWorld(mkdir: bool, write: bool, late: bool, error: Option<string>, output: Demux.bytes,
                                       duration: nat, removable: set<Cleanup>)

  // The variables of the environment but those left, over the inherited ones.
  ghost predicate Overlaid(env: seq<string>, inherited: seq<string>, environment: map<string, string>,
                           left: set<string>) {
    (forall key :: key in environment ==> '=' !in key) ==>
      forall name :: '=' !in name ==>
        Lookup(env, name) == if name in environment && name !in left then Some(environment[name])
          else Lookup(inherited, name)
  }

  lemma OverlaidStep(env: seq<string>, inherited: seq<string>, environment: map<string, string>, left: set<string>,
                     key: string)
    requires Overlaid(env, inherited, environment, left) && key in left && key in environment
    ensures Overlaid(env + [Entry(key, environment[key])], inherited, environment, left - {key})
  {
    AddEntry(env, key, environment[key]);
  }

  // What two more variables hide, and what they leave.
  lemma TwoMore(env: seq<string>, inherited: seq<string>, environment: map<string, string>,
                first: string, v: string, second: string, w: string)
    requires Overlaid(env, inherited, environment, {})
    requires '=' !in first && '=' !in second && first != second
    ensures var all := env + [Entry(first, v)] + [Entry(second, w)];
      && Lookup(all, first) == Some(v) && Lookup(all, second) == Some(w)
      && ((forall key :: key in environment ==> '=' !in key) ==>
            forall name :: '=' !in name && name != first && name != second ==>
              Lookup(all, name) == if name in environment then Some(environment[name]) else Lookup(inherited, name))
  {
    AddEntry(env, first, v);
    AddEntry(env + [Entry(first, v)], second, w);
  }

  lemma ServedLast(env: seq<string>, inherited: seq<string>, spec: Spec)
    requires Overlaid(env, inherited, spec.environment, {})
    ensures Served(env + [Entry("FUNCTION_PAYLOAD", spec.payload)] + [Entry("FUNCTION_HANDLER", spec.handler)],
                   inherited, spec)
  {
    assert "FUNCTION_PAYLOAD"[9] != "FUNCTION_HANDLER"[9];
    TwoMore(env, inherited, spec.environment, "FUNCTION_PAYLOAD", spec.payload, "FUNCTION_HANDLER", spec.handler);
  }

  /**
   Payload and handler get through whatever else the environment holds; every other variable is the function's, or
   inherited.
   */
  ghost predicate Served(env: seq<string>, inherited: seq<string>, spec: Spec) {
    && Lookup(env, "FUNCTION_PAYLOAD") == Some(spec.payload)
    && Lookup(env, "FUNCTION_HANDLER") == Some(spec.handler)
    && ((forall key :: key in spec.environment ==> '=' !in key) ==>
          forall name :: '=' !in name && name != "FUNCTION_PAYLOAD" && name != "FUNCTION_HANDLER" ==>
            Lookup(env, name) == if name in spec.environment then Some(spec.environment[name])
              else Lookup(inherited, name))
  }

  // The process is started.
  predicate Spawns(spec: Spec, world: ProcessWorld) {
    world.mkdir && !spec.runtime.Other? && world.write
  }

  function SpawnCalls(spec: Spec, dir: string, world: ProcessWorld, env: seq<string>): seq<Call> {
    (if world.mkdir then [Made(dir)] else []) + (if Spawns(spec, world) then [Spawned(env)] else [])
  }

  // All calls of a run, in order: the directory, the process with its environment, the clean-up with the directory
  // first.
  ghost predicate ActsProcess(spec: Spec, dir: string, inherited: seq<string>, world: ProcessWorld, calls: seq<Call>) {
    exists env ::
      && (Spawns(spec, world) ==> Served(env, inherited, spec))
      && calls == SpawnCalls(spec, dir, world, env) + (if world.mkdir then [Cleaned(RemoveDir(dir))] else [])
                  + [Cleaned(CancelContext)]
  }

  class SimpleRuntime {
    const host: Host

    constructor (host: Host)
      ensures this.host == host
    {
      this.host := host;
    }

    method BuildEnv(inherited: seq<string>, spec: Spec) returns (env: seq<string>)
      ensures Served(env, inherited, spec)
    {
      env := inherited;
      var left := spec.environment.Keys;
      while left != {}
        invariant left <= spec.environment.Keys
        invariant Overlaid(env, inherited, spec.environment, left)
        decreases |left|
      {
        var key :| key in left;
        OverlaidStep(env, inherited, spec.environment, left, key);
        env := env + [Entry(key, spec.environment[key])];
        left := left - {key};
      }
      ServedLast(env, inherited, spec);
      env := env + [Entry("FUNCTION_PAYLOAD", spec.payload)];
      env := env + [Entry("FUNCTION_HANDLER", spec.handler)];
    }

    method Run(spec: Spec, dir: string, inherited: seq<string>, world: ProcessWorld, asOutput: Demux.bytes -> Output)
      returns (outcome: Protocol.Outcome, deferred: seq<Cleanup>, ghost env: seq<string>)
      modifies host
      ensures outcome.Produced? ==> outcome.result.WellFormed()
      ensures outcome.GoError? <==> !world.mkdir || (!spec.runtime.Other? && !world.write)
      ensures outcome.Produced? ==> ClassifiedProcess(spec, world, asOutput, outcome.result)
      ensures deferred == [CancelContext] + if world.mkdir then [RemoveDir(dir)] else []
      ensures host.dirs == old(host.dirs) + set c | c in deferred && c.RemoveDir? :: c.dir
      ensures host.containers == old(host.containers)
      ensures host.calls == old(host.calls) + SpawnCalls(spec, dir, world, env)
      ensures Spawns(spec, world) ==> Served(env, inherited, spec)
    {
      deferred, env := [CancelContext], [];
      var err := host.MakeDir(dir, world.mkdir);
      if err {
        return Protocol.GoError("failed to create execution directory"), deferred, env;
      }
      deferred := deferred + [RemoveDir(dir)];
      match spec.runtime {
        case Other(name) =>
          return Protocol.Produced(FailedResult("UnsupportedRuntime", "unsupported runtime: " + name, "",
                                                Elapsed(world.duration))), deferred, env;
        case _ =>
          if !world.write {
            return Protocol.GoError("failed to write function code"), deferred, env;
          }
      }
      var variables := BuildEnv(inherited, spec);
      env := variables;
      host.Spawn(variables);
      if world.late {
        return Protocol.Produced(FailedResult("TimeoutError", "Function execution timed out", "",
                                              Elapsed(world.duration)).(status := TimedOut)), deferred, env;
      }
      if world.error.Some? {
        return Protocol.Produced(FailedResult("RuntimeError", "Function execution failed: " + world.error.value,
                                              asOutput(world.output).text, Elapsed(world.duration))), deferred, env;
      }
      return Protocol.Produced(ExecutionResult(Completed, Some(asOutput(world.output)), None,
                                               Some(Elapsed(world.duration)))), deferred, env;
    }

    /**
     The whole of Execute. The directory is the function's own: it is gone afterwards even when it was there before.
     */
    method Execute(spec: Spec, dir: string, inherited: seq<string>, world: ProcessWorld,
                   asOutput: Demux.bytes -> Output)
      returns (outcome: Protocol.Outcome)
      modifies host
      ensures outcome.Produced? ==> outcome.result.WellFormed()
      ensures outcome.GoError? <==> !world.mkdir || (!spec.runtime.Other? && !world.write)
      ensures outcome.Produced? ==> ClassifiedProcess(spec, world, asOutput, outcome.result)
      ensures world.mkdir && RemoveDir(dir) in world.removable ==> host.dirs == old(host.dirs) - {dir}
      ensures !world.mkdir ==> host.dirs == old(host.dirs)
      ensures host.containers == old(host.containers)
      ensures old(host.calls) <= host.calls && ActsProcess(spec, dir, inherited, world, host.calls[|old(host.calls)|..])
    {
      var deferred;
      ghost var env;
      outcome, deferred, env := Run(spec, dir, inherited, world, asOutput);
      host.RunDeferred(deferred, world.removable);
      Since(old(host.calls), SpawnCalls(spec, dir, world, env), [], Unwound(deferred), host.calls);
    }
  }

  // The error of a process that did not complete in time by itself.
  predicate BlamedProcess(spec: Spec, world: ProcessWorld, asOutput: Demux.bytes -> Output, error: ExecutionError) {
    if spec.runtime.Other? then
      error.kind == "UnsupportedRuntime" && error.message == "unsupported runtime: " + spec.runtime.name
        && error.stack == ""
    else if world.late then
      error.kind == "TimeoutError" && error.message == "Function execution timed out" && error.stack == ""
    else
      && error.kind == "RuntimeError" && error.stack == asOutput(world.output).text
      && world.error.Some? && error.message == "Function execution failed: " + world.error.value
  }

  predicate ClassifiedProcess(spec: Spec, world: ProcessWorld, asOutput: Demux.bytes -> Output,
                              result: ExecutionResult) {
    && (result.status == TimedOut <==> !spec.runtime.Other? && world.late)
    && (result.status == Completed <==> !spec.runtime.Other? && !world.late && world.error.None?)
    && (result.output == if result.status == Completed then Some(asOutput(world.output)) else None)
    && (result.error.Some? ==> BlamedProcess(spec, world, asOutput, result.error.value))
    && result.metrics.Some? && var m := result.metrics.value;
    && m.duration == world.duration && m.cpuTime == 0 && m.memoryPeak == 0 && m.networkIn == 0 && m.networkOut == 0
  }
}
