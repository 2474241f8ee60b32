/**
 The Redis lists, the invocation table and the clock, shared by every process. A command is one
 atomic access; between two commands anybody else may run. The ghost trace records who did what,
 and Valid ties the stores to the state the trace leads to.
 */
module SharedStores {
  import opened Types
  import opened Protocol
  import opened ProtocolInvariant
  import opened ProtocolTheorems

  // Who takes a step: a worker, or an InvokeAsync call with the two ids it generated.
  datatype Process = Worker(w: nat) | Caller(inv: Id, message: Id)

  predicate TakenBy(step: Step, p: Process) {
    match p
    case Worker(w) => step.Actor() == Some(w)
    case Caller(inv, id) =>
      match step
      case CreateRow(i, _, _) => i == inv
      case Send(i, m) => i == inv || m.id == id
      case GiveUp(i) => i == inv
      case _ => false
  }

  // The steps of one process, in order.
  function Own(trace: seq<Step>, p: Process): seq<Step> {
    if trace == [] then []
    else Own(trace[..|trace| - 1], p) + if TakenBy(trace[|trace| - 1], p) then [trace[|trace| - 1]] else []
  }

  lemma OwnSnoc(trace: seq<Step>, step: Step, p: Process)
    ensures Own(trace + [step], p) == Own(trace, p) + if TakenBy(step, p) then [step] else []
  {
    assert (trace + [step])[..|trace|] == trace;
  }

  lemma HappensOn(form: Form, workers: nat, start: Time, trace: seq<Step>, step: Step)
    requires Happens(form, workers, start, trace) && Enabled(Now(form, workers, start, trace), step)
    ensures Happens(form, workers, start, trace + [step])
    ensures Now(form, workers, start, trace + [step]) == Do(form, Now(form, workers, start, trace), step)
  {
    assert (trace + [step])[..|trace + [step]| - 1] == trace;
    assert (trace + [step])[|trace + [step]| - 1] == step;
  }

  // What outlives a process.
  datatype Stores = Stores(waiting: seq<Message>, processing: seq<Message>, dead: seq<Message>,
                           rows: map<Id, Invocation>, now: Time)

  function StoresOf(s: State): Stores {
    Stores(s.waiting, s.processing, s.dead, s.rows, s.now)
  }

  // What a process may rely on while others run.
  ghost predicate Undisturbed(s: State, t: State, p: Process) {
    && s.now <= t.now && |s.workers| == |t.workers|
    && match p
       case Worker(w) => w < |s.workers| ==> t.workers[w] == s.workers[w]
       case Caller(inv, id) =>
         && (inv in s.calling <==> inv in t.calling) && (inv in s.created <==> inv in t.created)
         && (id in s.place <==> id in t.place)
  }

  // Nobody else moves a worker, or gets in the way of ids only one caller knows.
  lemma UndisturbedStep(form: Form, s: State, step: Step, p: Process)
    requires Places(s) && Letters(s) && Enabled(s, step) && !TakenBy(step, p)
    ensures Undisturbed(s, Do(form, s, step), p)
  {
    OthersStay(form, s, step);
    if p.Caller? {
      CallerUndisturbed(form, s, step, p.inv, p.message);
    }
  }

  lemma CallerUndisturbed(form: Form, s: State, step: Step, inv: Id, id: Id)
    requires Places(s) && Letters(s) && Enabled(s, step) && !TakenBy(step, Caller(inv, id))
    ensures Undisturbed(s, Do(form, s, step), Caller(inv, id))
  {
    EffectHolds(form, s, step);
    OthersStay(form, s, step);
    CallerEffect(s, EffectOf(form, s, step), inv, id);
  }

  lemma CallerEffect(s: State, e: Effect, inv: Id, id: Id)
    requires Places(s) && Possible(s, e)
    requires match e
             case Enter(i) => i != inv
             case Post(i, m) => i != inv && m.id != id
             case Forget(i) => i != inv
             case _ => true
    ensures var t := Apply(s, e);
      && (inv in s.calling <==> inv in t.calling) && (inv in s.created <==> inv in t.created)
      && (id in s.place <==> id in t.place)
  {
  }

  lemma {:induction false} UndisturbedRun(form: Form, s: State, steps: seq<Step>, p: Process)
    requires Inv(s) && Legal(form, s, steps) && Own(steps, p) == []
    ensures Undisturbed(s, Exec(form, s, steps), p)
    decreases |steps|
  {
    if steps != [] {
      var n := |steps| - 1;
      UndisturbedRun(form, s, steps[..n], p);
      InvRun(form, s, steps[..n]);
      UndisturbedStep(form, Exec(form, s, steps[..n]), steps[n], p);
    }
  }

  /** Whatever steps other processes take after a reachable state, a process finds what it may rely on. */
  lemma OthersUndisturbing(form: Form, workers: nat, start: Time, trace: seq<Step>, steps: seq<Step>, p: Process)
    requires Happens(form, workers, start, trace + steps) && Happens(form, workers, start, trace) && Own(steps, p) == []
    ensures Undisturbed(Now(form, workers, start, trace), Now(form, workers, start, trace + steps), p)
  {
    InvNow(form, workers, start, trace);
    ExecSplit(form, Init(workers, start), trace, steps);
    UndisturbedRun(form, Now(form, workers, start, trace), steps, p);
  }

  class Cluster {
    const form: Form
    const workers: nat
    const start: Time

    var waiting: seq<Message>
    var processing: seq<Message>
    var deadLetter: seq<Message>
    var rows: map<Id, Invocation>
    var clock: Time

    ghost var trace: seq<Step>
    ghost var state: State

    ghost predicate Valid()
      reads this
    {
      && Happens(form, workers, start, trace) && state == Now(form, workers, start, trace)
      && StoresOf(state) == Stores(waiting, processing, deadLetter, rows, clock)
    }

    // The trace grew by the step.
    ghost predicate Stepped(trace0: seq<Step>, state0: State, step: Step)
      reads this
    {
      && Valid() && Enabled(state0, step) && trace == trace0 + [step] && state == Do(form, state0, step)
      && forall p :: Own(trace, p) == Own(trace0, p) + if TakenBy(step, p) then [step] else []
    }

    constructor (form: Form, workers: nat, start: Time)
      ensures Valid() && trace == [] && state == Init(workers, start)
      ensures this.form == form && this.workers == workers && this.start == start
    {
      this.form, this.workers, this.start := form, workers, start;
      waiting, processing, deadLetter, rows, clock := [], [], [], map[], start;
      trace := [];
      state := Init(workers, start);
    }

    // Records the step that the stores have just been changed by.
    ghost method Commit(step: Step)
      requires Happens(form, workers, start, trace) && state == Now(form, workers, start, trace)
      requires Enabled(state, step)
      requires StoresOf(Do(form, state, step)) == Stores(waiting, processing, deadLetter, rows, clock)
      modifies this`trace, this`state
      ensures Stepped(old(trace), old(state), step)
    {
      forall p {
        OwnSnoc(trace, step, p);
      }
      HappensOn(form, workers, start, trace, step);
      trace := trace + [step];
      state := Do(form, state, step);
    }

    // Any number of steps of other processes. Callers know no more than this contract.
    method Others(ghost p: Process)
      requires Valid()
      modifies this
      ensures Valid() && old(trace) <= trace
      ensures Own(trace, p) == Own(old(trace), p)
      ensures Undisturbed(old(state), state, p)
    {
    }

    method TimeNow() returns (t: Time)
      requires Valid()
      ensures t == state.now
    {
      t := clock;
    }

    // BRPOPLPUSH with a timeout. The server may have moved an entry although the reply is lost.
    method BRPopLPush(ghost w: nat, fault: Fault) returns (reply: Option<Message>, err: bool)
      requires Valid() && w < |state.workers| && state.workers[w] == Idle
      modifies this
      ensures Valid() && old(trace) <= trace && w < |state.workers|
      ensures err <==> fault != Fine
      ensures reply.Some? <==> fault == Fine && old(waiting) != []
      ensures reply.None? && (fault != ReplyLost || old(waiting) == []) ==>
        trace == old(trace) && waiting == old(waiting)
      ensures reply.Some? ==>
        && reply.value == old(waiting)[|old(waiting)| - 1] && state.workers[w] == Dequeued(reply.value)
        && Own(trace, Worker(w)) == Own(old(trace), Worker(w)) + [Deliver(w)]
      ensures reply.None? ==> state.workers[w] == Idle && Own(trace, Worker(w)) == Own(old(trace), Worker(w))
    {
      reply, err := None, fault != Fine;
      if waiting != [] && fault != NotApplied {
        var entry := waiting[|waiting| - 1];
        waiting, processing := waiting[..|waiting| - 1], [entry] + processing;
        if fault == ReplyLost {
          Commit(LoseDelivery);
        } else {
          reply := Some(entry);
          Commit(Deliver(w));
        }
      }
    }

    // LREM processing 1 entry.
    method LRemProcessing(entry: Message, ghost done: Step, ghost failed: Step, fault: Fault) returns (err: bool)
      requires Valid() && Enabled(state, done) && Enabled(state, failed)
      requires StoresOf(Do(form, state, done)) == StoresOf(state).(processing := LRem(state.processing, entry))
      requires StoresOf(Do(form, state, failed)) == StoresOf(state)
      modifies this
      ensures Stepped(old(trace), old(state), if fault == NotApplied then failed else done)
      ensures err <==> fault != Fine
    {
      err := fault != Fine;
      if fault == NotApplied {
        Commit(failed);
      } else {
        processing := LRem(processing, entry);
        Commit(done);
      }
    }

    // LPUSH queue entry.
    method LPushWaiting(entry: Message, ghost done: Step, ghost failed: Step, fault: Fault) returns (err: bool)
      requires Valid() && Enabled(state, done) && Enabled(state, failed)
      requires StoresOf(Do(form, state, done)) == StoresOf(state).(waiting := [entry] + state.waiting)
      requires StoresOf(Do(form, state, failed)) == StoresOf(state)
      modifies this
      ensures Stepped(old(trace), old(state), if fault == NotApplied then failed else done)
      ensures err <==> fault != Fine
    {
      err := fault != Fine;
      if fault == NotApplied {
        Commit(failed);
      } else {
        waiting := [entry] + waiting;
        Commit(done);
      }
    }

    // LPUSH dead_letter entry.
    method LPushDead(entry: Message, ghost done: Step, ghost failed: Step, fault: Fault) returns (err: bool)
      requires Valid() && Enabled(state, done) && Enabled(state, failed)
      requires StoresOf(Do(form, state, done)) == StoresOf(state).(dead := [entry] + state.dead)
      requires StoresOf(Do(form, state, failed)) == StoresOf(state)
      modifies this
      ensures Stepped(old(trace), old(state), if fault == NotApplied then failed else done)
      ensures err <==> fault != Fine
    {
      err := fault != Fine;
      if fault == NotApplied {
        Commit(failed);
      } else {
        deadLetter := [entry] + deadLetter;
        Commit(done);
      }
    }

    // SELECT ... WHERE id = inv; no record when the row is missing or the call fails.
    method Select(inv: Id, ghost hit: Step, ghost miss: Step, fails: bool) returns (record: Option<Invocation>)
      requires Valid() && Enabled(state, miss) && (inv in state.rows ==> Enabled(state, hit))
      requires inv in state.rows ==> StoresOf(Do(form, state, hit)) == StoresOf(state)
      requires StoresOf(Do(form, state, miss)) == StoresOf(state)
      modifies this
      ensures Stepped(old(trace), old(state), if record.Some? then hit else miss)
      ensures record == if inv in old(state).rows && !fails then Some(old(state).rows[inv]) else None
    {
      record := None;
      if inv in rows && !fails {
        record := Some(rows[inv]);
      }
      Commit(if record.Some? then hit else miss);
    }

    // UPDATE ... WHERE id = inv. A missing row is reported as an error, too.
    method Update(inv: Id, record: Invocation, ghost done: Step, ghost failed: Step, fault: Fault) returns (err: bool)
      requires Valid() && Enabled(state, done) && Enabled(state, failed)
      requires StoresOf(Do(form, state, done)) == StoresOf(Write(state, inv, record, true))
      requires StoresOf(Do(form, state, failed)) == StoresOf(state)
      modifies this
      ensures Stepped(old(trace), old(state), if fault == NotApplied then failed else done)
      ensures err <==> fault != Fine || inv !in old(state).rows
    {
      err := fault != Fine || inv !in rows;
      if fault == NotApplied {
        Commit(failed);
      } else {
        if inv in rows {
          rows := rows[inv := Persist(rows[inv], record)];
        }
        Commit(done);
      }
    }

    // The row is there.
    method InsertRow(inv: Id, functionId: Id, at: Time, ghost message: Id)
      requires Valid() && inv !in state.created && at <= state.now && message !in state.place
      modifies this
      ensures Valid() && old(trace) <= trace && message !in state.place && inv in state.calling
      ensures Own(trace, Caller(inv, message))
        == Own(old(trace), Caller(inv, message)) + [CreateRow(inv, functionId, at)]
    {
      rows := rows[inv := NewRow(functionId, at)];
      Commit(CreateRow(inv, functionId, at));
    }

    // INSERT of a new row. When the call fails its caller gives up, whether the row is there or not.
    method Insert(inv: Id, functionId: Id, at: Time, ghost message: Id, fault: Fault)
      returns (err: bool, ghost steps: seq<Step>)
      requires Valid() && inv !in state.created && at <= state.now && message !in state.place
      modifies this
      ensures Valid() && old(trace) <= trace && message !in state.place
      ensures Own(trace, Caller(inv, message)) == Own(old(trace), Caller(inv, message)) + steps
      ensures err <==> fault != Fine
      ensures steps == (if fault == NotApplied then [] else [CreateRow(inv, functionId, at)])
                       + if fault == ReplyLost then [GiveUp(inv)] else []
      ensures fault == Fine ==> inv in state.calling
    {
      err, steps := fault != Fine, [];
      if fault == NotApplied {
        return;
      }
      InsertRow(inv, functionId, at, message);
      steps := [CreateRow(inv, functionId, at)];
      if fault == ReplyLost {
        Commit(GiveUp(inv));
        steps := steps + [GiveUp(inv)];
      }
    }
  }
}
