/**
 RedisQueue, the invocation service and the worker, statement by statement. Other processes run
 between any two accesses to the stores. What each method does is stated as the steps it adds to
 its own part of the trace, so every theorem about runs holds for this code.
 */
module Services {
  import opened Types
  import opened Protocol
  import opened ProtocolInvariant
  import opened ProtocolTheorems
  import opened SharedStores

  datatype Delivery = Empty | Unavailable | Got(message: Message)

  class RedisQueue {
    const cluster: Cluster

    constructor (cluster: Cluster)
      ensures this.cluster == cluster
    {
      this.cluster := cluster;
    }

    // The payload is a marshalled execution request; marshalling it does not fail.
    method Enqueue(id: Id, payload: Payload, headers: map<string, string>, fault: Fault)
      returns (err: bool, ghost message: Message)
      requires cluster.Valid() && payload.Request? && id !in cluster.state.place
      requires payload.invocation in cluster.state.calling
      modifies cluster
      ensures cluster.Valid() && old(cluster.trace) <= cluster.trace
      ensures message.id == id && message.payload == payload && message.headers == headers && message.attempts == 0
      ensures message.enqueuedAt == old(cluster.state).now
      ensures var p := Caller(payload.invocation, id);
        Own(cluster.trace, p) == Own(old(cluster.trace), p)
          + [if fault == NotApplied then GiveUp(payload.invocation) else Send(payload.invocation, message)]
      ensures err <==> fault != Fine
    {
      ghost var p := Caller(payload.invocation, id);
      var now := cluster.TimeNow();
      var m := Message(id, payload, headers, 0, now);
      message := m;
      cluster.Others(p);
      err := cluster.LPushWaiting(m, Send(payload.invocation, m), GiveUp(payload.invocation), fault);
    }

    /** Without a failure there is a delivery exactly when a message waits. */
    method Dequeue(ghost w: nat, fault: Fault) returns (delivery: Delivery)
      requires cluster.Valid() && w < |cluster.state.workers| && cluster.state.workers[w] == Idle
      modifies cluster
      ensures cluster.Valid() && old(cluster.trace) <= cluster.trace && w < |cluster.state.workers|
      ensures delivery == Unavailable <==> fault != Fine
      ensures delivery == Empty ==> cluster.state.waiting == []
      ensures match delivery
              case Got(message) =>
                && cluster.state.workers[w].Dequeued? && message == Received(cluster.state.workers[w].raw)
                && Own(cluster.trace, Worker(w)) == Own(old(cluster.trace), Worker(w)) + [Deliver(w)]
              case _ =>
                && cluster.state.workers[w] == Idle
                && Own(cluster.trace, Worker(w)) == Own(old(cluster.trace), Worker(w))
    {
      cluster.Others(Worker(w));
      var reply, err := cluster.BRPopLPush(w, fault);
      if err {
        return Unavailable;
      }
      if reply.None? {
        return Empty;
      }
      var message := reply.value;
      message := message.(attempts := message.attempts + 1);
      return Got(message);
    }

    method Ack(ghost w: nat, message: Message, fault: Fault) returns (err: bool)
      requires cluster.Valid() && w < |cluster.state.workers| && cluster.state.workers[w].Acking?
      requires message == Received(cluster.state.workers[w].raw)
      modifies cluster
      ensures cluster.Valid() && old(cluster.trace) <= cluster.trace && w < |cluster.state.workers|
      ensures err <==> fault != Fine
      ensures cluster.state.workers[w] == Idle
      ensures Own(cluster.trace, Worker(w)) == Own(old(cluster.trace), Worker(w)) + [Step.Ack(w, fault != NotApplied)]
      ensures message.id in cluster.state.place
      ensures cluster.state.place[message.id] == if fault != NotApplied then Acked else Abandoned
    {
      cluster.Others(Worker(w));
      var entry := message;
      if cluster.form == AsMeant {
        entry := message.(attempts := message.attempts - 1);
      }
      err := cluster.LRemProcessing(entry, Step.Ack(w, true), Step.Ack(w, false), fault);
    }

    method Nack(ghost w: nat, message: Message, removing: Fault, pushing: Fault) returns (err: bool)
      requires cluster.Valid() && w < |cluster.state.workers|
      requires cluster.state.workers[w].Nacking? && !cluster.state.workers[w].removed
      requires message == Received(cluster.state.workers[w].raw)
      modifies cluster
      ensures cluster.Valid() && old(cluster.trace) <= cluster.trace && w < |cluster.state.workers|
      ensures err <==> removing != Fine || pushing != Fine
      ensures cluster.state.workers[w] == Idle
      ensures Own(cluster.trace, Worker(w))
        == Own(old(cluster.trace), Worker(w)) + [NackRemove(w, removing != NotApplied),
                                                 NackPush(w, pushing != NotApplied)]
      ensures message.id in cluster.state.place
      ensures cluster.state.place[message.id] == if pushing != NotApplied then Waiting else Abandoned
      ensures pushing != NotApplied ==> cluster.state.waiting != [] && cluster.state.waiting[0] == message
    {
      var entry := message;
      if cluster.form == AsMeant {
        entry := message.(attempts := message.attempts - 1);
      }
      err := PipeBack(w, entry, message, removing, pushing);
    }

    // The pipeline of Nack.
    method PipeBack(ghost w: nat, entry: Message, message: Message, removing: Fault, pushing: Fault)
      returns (err: bool)
      requires cluster.Valid() && w < |cluster.state.workers|
      requires cluster.state.workers[w].Nacking? && !cluster.state.workers[w].removed
      requires message == Received(cluster.state.workers[w].raw)
      requires entry == Sought(cluster.form, cluster.state.workers[w].raw, message)
      modifies cluster
      ensures cluster.Valid() && old(cluster.trace) <= cluster.trace && w < |cluster.state.workers|
      ensures err <==> removing != Fine || pushing != Fine
      ensures cluster.state.workers[w] == Idle
      ensures Own(cluster.trace, Worker(w))
        == Own(old(cluster.trace), Worker(w)) + [NackRemove(w, removing != NotApplied),
                                                 NackPush(w, pushing != NotApplied)]
      ensures message.id in cluster.state.place
      ensures cluster.state.place[message.id] == if pushing != NotApplied then Waiting else Abandoned
      ensures pushing != NotApplied ==> cluster.state.waiting != [] && cluster.state.waiting[0] == message
    {
      var err1, err2;
      cluster.Others(Worker(w));
      err1 := cluster.LRemProcessing(entry, NackRemove(w, true), NackRemove(w, false), removing);
      err2 := PushBack(w, message, pushing);
      err := err1 || err2;
    }

    // The second command of Nack's pipeline; others may have run since the first.
    method PushBack(ghost w: nat, message: Message, fault: Fault) returns (err: bool)
      requires cluster.Valid() && w < |cluster.state.workers|
      requires cluster.state.workers[w].Nacking? && cluster.state.workers[w].removed
      requires message == Received(cluster.state.workers[w].raw)
      modifies cluster
      ensures cluster.Valid() && old(cluster.trace) <= cluster.trace && w < |cluster.state.workers|
      ensures err <==> fault != Fine
      ensures cluster.state.workers[w] == Idle
      ensures Own(cluster.trace, Worker(w)) == Own(old(cluster.trace), Worker(w)) + [NackPush(w, fault != NotApplied)]
      ensures message.id in cluster.state.place
      ensures cluster.state.place[message.id] == if fault != NotApplied then Waiting else Abandoned
      ensures fault != NotApplied ==> cluster.state.waiting != [] && cluster.state.waiting[0] == message
    {
      cluster.Others(Worker(w));
      err := cluster.LPushWaiting(message, NackPush(w, true), NackPush(w, false), fault);
    }

    method DeadLetter(ghost w: nat, message: Message, reason: string, stamp: string, removing: Fault, pushing: Fault)
      returns (err: bool)
      requires cluster.Valid() && w < |cluster.state.workers|
      requires cluster.state.workers[w].DeadLettering? && !cluster.state.workers[w].removed
      requires message == Received(cluster.state.workers[w].raw)
      requires cluster.state.workers[w].letter == Letter(message, reason, stamp)
      modifies cluster
      ensures cluster.Valid() && old(cluster.trace) <= cluster.trace && w < |cluster.state.workers|
      ensures err <==> removing != Fine || pushing != Fine
      ensures cluster.state.workers[w] == Idle
      ensures Own(cluster.trace, Worker(w))
              == Own(old(cluster.trace), Worker(w)) + [LetterRemove(w, removing != NotApplied),
                                                       LetterPush(w, pushing != NotApplied)]
      ensures pushing != NotApplied ==>
        cluster.state.dead != [] && Explained(cluster.state.dead[0], message, reason, stamp)
    {
      var letter := message;
      var entry := letter;
      if cluster.form == AsMeant {
        entry := letter.(attempts := letter.attempts - 1);
      }
      letter := letter.(headers := letter.headers["dead_letter_reason" := reason]);
      letter := letter.(headers := letter.headers["dead_lettered_at" := stamp]);
      if cluster.form == AsCoded {
        entry := letter;
      }
      err := PipeLetter(w, entry, letter, removing, pushing);
    }

    // The pipeline of DeadLetter.
    method PipeLetter(ghost w: nat, entry: Message, letter: Message, removing: Fault, pushing: Fault)
      returns (err: bool)
      requires cluster.Valid() && w < |cluster.state.workers|
      requires cluster.state.workers[w].DeadLettering? && !cluster.state.workers[w].removed
      requires cluster.state.workers[w].letter == letter
      requires entry == Sought(cluster.form, cluster.state.workers[w].raw, letter)
      modifies cluster
      ensures cluster.Valid() && old(cluster.trace) <= cluster.trace && w < |cluster.state.workers|
      ensures err <==> removing != Fine || pushing != Fine
      ensures cluster.state.workers[w] == Idle
      ensures Own(cluster.trace, Worker(w))
              == Own(old(cluster.trace), Worker(w)) + [LetterRemove(w, removing != NotApplied),
                                                       LetterPush(w, pushing != NotApplied)]
      ensures pushing != NotApplied ==> cluster.state.dead != [] && cluster.state.dead[0] == letter
    {
      var err1, err2;
      cluster.Others(Worker(w));
      err1 := cluster.LRemProcessing(entry, LetterRemove(w, true), LetterRemove(w, false), removing);
      err2 := PushLetter(w, letter, pushing);
      err := err1 || err2;
    }

    // Its second command; others may have run since the first.
    method PushLetter(ghost w: nat, letter: Message, fault: Fault) returns (err: bool)
      requires cluster.Valid() && w < |cluster.state.workers|
      requires cluster.state.workers[w].DeadLettering? && cluster.state.workers[w].removed
      requires cluster.state.workers[w].letter == letter
      modifies cluster
      ensures cluster.Valid() && old(cluster.trace) <= cluster.trace && w < |cluster.state.workers|
      ensures err <==> fault != Fine
      ensures cluster.state.workers[w] == Idle
      ensures Own(cluster.trace, Worker(w)) == Own(old(cluster.trace), Worker(w)) + [LetterPush(w, fault != NotApplied)]
      ensures fault != NotApplied ==> cluster.state.dead != [] && cluster.state.dead[0] == letter
    {
      cluster.Others(Worker(w));
      err := cluster.LPushDead(letter, LetterPush(w, true), LetterPush(w, false), fault);
    }
  }

  // How the repository calls of one update turned out.
  datatype Access = Missed | Stored(applied: bool, at: Time)

  function StatusSteps(w: nat, access: Access): seq<Step> {
    match access
    case Missed => [ReadStatus(w, false)]
    case Stored(applied, at) => [ReadStatus(w, true), WriteStatus(w, applied, at)]
  }

  function ResultSteps(w: nat, access: Access): seq<Step> {
    match access
    case Missed => [ReadResult(w, false)]
    case Stored(applied, at) => [ReadResult(w, true), WriteResult(w, applied, at)]
  }

  // The message of an invocation, as it is first pushed.
  predicate Announces(message: Message, messageId: Id, id: Id, functionId: Id, timeout: Option<int>) {
    && message.id == messageId && message.attempts == 0
    && message.payload.Request? && message.payload.invocation == id && message.payload.function_ == functionId
    && message.payload.timeout == timeout
    && message.headers == map["invocation_id" := id, "function_id" := functionId]
  }

  // The steps of an InvokeAsync call: no row, a row nobody will run, or a row and its message.
  function CallerSteps(id: Id, functionId: Id, at: Time, message: Option<Message>, inserted: bool,
                       pushing: Fault): seq<Step> {
    if !inserted then []
    else [CreateRow(id, functionId, at)]
         + [if message.Some? && pushing != NotApplied then Send(id, message.value) else GiveUp(id)]
  }

  // What InvokeAsync gives its caller.
  datatype InvocationHandle = InvocationHandle(invocation: Id, functionId: Id, status: Status, createdAt: Time)

  class InvocationService {
    const cluster: Cluster
    const queue: RedisQueue

    constructor (queue: RedisQueue)
      ensures this.queue == queue && this.cluster == queue.cluster
    {
      this.queue, this.cluster := queue, queue.cluster;
    }

    // GetInvocationByID, on behalf of UpdateInvocationStatus.
    method LoadForStatus(ghost w: nat, id: Id, fails: bool) returns (loaded: Option<Invocation>, ghost since: Time)
      requires cluster.Valid() && w < |cluster.state.workers|
      requires cluster.state.workers[w].Dequeued? && cluster.state.workers[w].raw.payload.Request?
      requires id == cluster.state.workers[w].raw.payload.invocation
      modifies cluster
      ensures cluster.Valid() && old(cluster.trace) <= cluster.trace && w < |cluster.state.workers|
      ensures since <= cluster.state.now
      ensures var raw := old(cluster.state).workers[w].raw;
        cluster.state.workers[w] == if loaded.Some? then StatusRead(raw, loaded.value, since) else Executing(raw)
      ensures Own(cluster.trace, Worker(w)) == Own(old(cluster.trace), Worker(w)) + [ReadStatus(w, loaded.Some?)]
      ensures loaded.Some? <==> id in cluster.state.rows && !fails
      ensures loaded.Some? ==> loaded.value == cluster.state.rows[id]
    {
      cluster.Others(Worker(w));
      since := cluster.state.now;
      loaded := cluster.Select(id, ReadStatus(w, true), ReadStatus(w, false), fails);
    }

    // GetInvocationByID, on behalf of UpdateInvocationResult.
    method LoadForResult(ghost w: nat, id: Id, fails: bool) returns (loaded: Option<Invocation>, ghost since: Time)
      requires cluster.Valid() && w < |cluster.state.workers|
      requires cluster.state.workers[w].Finished? && cluster.state.workers[w].raw.payload.Request?
      requires id == cluster.state.workers[w].raw.payload.invocation
      modifies cluster
      ensures cluster.Valid() && old(cluster.trace) <= cluster.trace && w < |cluster.state.workers|
      ensures since <= cluster.state.now
      ensures var pc := old(cluster.state).workers[w];
        cluster.state.workers[w] ==
          if loaded.Some? then ResultRead(pc.raw, pc.result, loaded.value, since) else Acking(pc.raw)
      ensures Own(cluster.trace, Worker(w)) == Own(old(cluster.trace), Worker(w)) + [ReadResult(w, loaded.Some?)]
      ensures loaded.Some? <==> id in cluster.state.rows && !fails
      ensures loaded.Some? ==> loaded.value == cluster.state.rows[id]
    {
      cluster.Others(Worker(w));
      since := cluster.state.now;
      loaded := cluster.Select(id, ReadResult(w, true), ReadResult(w, false), fails);
    }

    // UpdateInvocation, on behalf of UpdateInvocationStatus.
    method StoreStatus(ghost w: nat, id: Id, inv: Invocation, now: Time, fault: Fault) returns (err: bool)
      requires cluster.Valid() && w < |cluster.state.workers| && now <= cluster.state.now
      requires cluster.state.workers[w].StatusRead? && cluster.state.workers[w].raw.payload.Request?
      requires id == cluster.state.workers[w].raw.payload.invocation && cluster.state.workers[w].since <= now
      requires inv == MarkStatus(cluster.state.workers[w].copy, Running, now)
      modifies cluster
      ensures cluster.Valid() && old(cluster.trace) <= cluster.trace && w < |cluster.state.workers|
      ensures cluster.state.workers[w] == Executing(old(cluster.state).workers[w].raw)
      ensures Own(cluster.trace, Worker(w))
        == Own(old(cluster.trace), Worker(w)) + [WriteStatus(w, fault != NotApplied, now)]
      ensures err <==> fault != Fine || id !in cluster.state.rows
    {
      cluster.Others(Worker(w));
      err := cluster.Update(id, inv, WriteStatus(w, true, now), WriteStatus(w, false, now), fault);
    }

    // UpdateInvocation, on behalf of UpdateInvocationResult.
    method StoreResult(ghost w: nat, id: Id, inv: Invocation, now: Time, fault: Fault) returns (err: bool)
      requires cluster.Valid() && w < |cluster.state.workers| && now <= cluster.state.now
      requires cluster.state.workers[w].ResultRead? && cluster.state.workers[w].raw.payload.Request?
      requires id == cluster.state.workers[w].raw.payload.invocation && cluster.state.workers[w].since <= now
      requires inv == MarkResult(cluster.state.workers[w].copy, cluster.state.workers[w].result, now)
      modifies cluster
      ensures cluster.Valid() && old(cluster.trace) <= cluster.trace && w < |cluster.state.workers|
      ensures cluster.state.workers[w] == Acking(old(cluster.state).workers[w].raw)
      ensures Own(cluster.trace, Worker(w))
        == Own(old(cluster.trace), Worker(w)) + [WriteResult(w, fault != NotApplied, now)]
      ensures err <==> fault != Fine || id !in cluster.state.rows
    {
      cluster.Others(Worker(w));
      err := cluster.Update(id, inv, WriteResult(w, true, now), WriteResult(w, false, now), fault);
    }

    // Called by workers, with the status running.
    method UpdateInvocationStatus(ghost w: nat, id: Id, status: Status, readFails: bool, fault: Fault)
      returns (err: bool, ghost access: Access)
      requires cluster.Valid() && w < |cluster.state.workers| && status == Running
      requires cluster.state.workers[w].Dequeued? && cluster.state.workers[w].raw.payload.Request?
      requires id == cluster.state.workers[w].raw.payload.invocation
      modifies cluster
      ensures cluster.Valid() && old(cluster.trace) <= cluster.trace && w < |cluster.state.workers|
      ensures cluster.state.workers[w] == Executing(old(cluster.state).workers[w].raw)
      ensures Own(cluster.trace, Worker(w)) == Own(old(cluster.trace), Worker(w)) + StatusSteps(w, access)
      ensures access == Missed ==> err && (readFails || id !in cluster.state.rows)
      ensures access.Stored? ==> !readFails && access.applied == (fault != NotApplied)
      ensures access.Stored? ==> (err <==> fault != Fine || id !in cluster.state.rows)
    {
      ghost var since;
      var loaded;
      loaded, since := LoadForStatus(w, id, readFails);
      if loaded.None? {
        return true, Missed;
      }
      cluster.Others(Worker(w));
      var now := cluster.TimeNow();
      var inv := Mark(loaded.value, status, now);
      err := StoreStatus(w, id, inv, now, fault);
      access := Stored(fault != NotApplied, now);
    }

    // The edits UpdateInvocationStatus makes to the loaded record, whatever the status.
    method Mark(loaded: Invocation, status: Status, now: Time) returns (inv: Invocation)
      ensures inv == MarkStatus(loaded, status, now) && inv.status == status
      ensures loaded.startedAt.Some? ==> inv.startedAt == loaded.startedAt
      ensures loaded.completedAt.Some? ==> inv.completedAt == loaded.completedAt
      ensures inv.startedAt != loaded.startedAt <==> status == Running && loaded.startedAt == None
      ensures inv.startedAt != loaded.startedAt ==> inv.startedAt == Some(now)
      ensures inv.completedAt != loaded.completedAt <==> status.IsTerminal() && loaded.completedAt == None
      ensures inv.completedAt != loaded.completedAt ==> inv.completedAt == Some(now)
      ensures inv.(status := loaded.status, startedAt := loaded.startedAt, completedAt := loaded.completedAt) == loaded
    {
      inv := loaded.(status := status);
      if status == Running && inv.startedAt == None {
        inv := inv.(startedAt := Some(now));
      }
      if status.IsTerminal() && inv.completedAt == None {
        inv := inv.(completedAt := Some(now));
      }
    }

    method UpdateInvocationResult(ghost w: nat, id: Id, result: ExecutionResult, readFails: bool, fault: Fault)
      returns (err: bool, ghost access: Access)
      requires cluster.Valid() && w < |cluster.state.workers|
      requires cluster.state.workers[w].Finished? && cluster.state.workers[w].result == result
      requires cluster.state.workers[w].raw.payload.Request? && id == cluster.state.workers[w].raw.payload.invocation
      modifies cluster
      ensures cluster.Valid() && old(cluster.trace) <= cluster.trace && w < |cluster.state.workers|
      ensures cluster.state.workers[w] == Acking(old(cluster.state).workers[w].raw)
      ensures Own(cluster.trace, Worker(w)) == Own(old(cluster.trace), Worker(w)) + ResultSteps(w, access)
      ensures access == Missed ==> err && (readFails || id !in cluster.state.rows)
      ensures access.Stored? ==> !readFails && access.applied == (fault != NotApplied)
      ensures access.Stored? ==> (err <==> fault != Fine || id !in cluster.state.rows)
    {
      ghost var since;
      var loaded;
      loaded, since := LoadForResult(w, id, readFails);
      if loaded.None? {
        return true, Missed;
      }
      var inv := loaded.value;
      inv := inv.(status := result.status, output := result.output);
      inv := inv.(error := result.error, metrics := result.metrics);
      cluster.Others(Worker(w));
      var now := cluster.TimeNow();
      if inv.startedAt == None {
        inv := inv.(startedAt := Some(now));
      }
      inv := inv.(completedAt := Some(now));
      err := StoreResult(w, id, inv, now, fault);
      access := Stored(fault != NotApplied, now);
    }

    /**
     InvokeAsync. The ids are the UUIDs it generates; fn is what GetByID found, the function's default timeout.
     A message is pushed only after its row is in the table, and there is a handle exactly when neither call was
     reported as failed.
     */
    method InvokeAsync(functionId: Id, timeout: Option<int>, fn: Option<int>, id: Id, messageId: Id, inserting: Fault,
                       pushing: Fault)
      returns (handle: Option<InvocationHandle>, ghost steps: seq<Step>, ghost message: Option<Message>)
      requires queue.cluster == cluster
      requires cluster.Valid() && id !in cluster.state.created && messageId !in cluster.state.place
      modifies cluster
      ensures cluster.Valid() && old(cluster.trace) <= cluster.trace
      ensures Own(cluster.trace, Caller(id, messageId)) == Own(old(cluster.trace), Caller(id, messageId)) + steps
      ensures handle == if fn.Some? && inserting == Fine && pushing == Fine
        then Some(InvocationHandle(id, functionId, Pending, old(cluster.state).now)) else None
      ensures steps
        == CallerSteps(id, functionId, old(cluster.state).now, message, fn.Some? && inserting != NotApplied, pushing)
      ensures message.Some? <==> fn.Some? && inserting == Fine
      ensures message.Some? && timeout.Some? ==> Announces(message.value, messageId, id, functionId, timeout)
      ensures message.Some? && timeout.None? ==> Announces(message.value, messageId, id, functionId, fn)
    {
      handle, steps, message := None, [], None;
      if fn.None? {
        return;
      }
      ghost var p := Caller(id, messageId);
      var createdAt := cluster.TimeNow();
      cluster.Others(p);
      var err;
      err, steps := cluster.Insert(id, functionId, createdAt, messageId, inserting);
      if err {
        return;
      }
      var deadline := timeout;
      if deadline.None? {
        deadline := fn;
      }
      ghost var sent;
      err, sent := Announce(id, functionId, deadline, messageId, pushing);
      message := Some(sent);
      ghost var pushed := [if pushing == NotApplied then GiveUp(id) else Send(id, sent)];
      Associative(Own(old(cluster.trace), p), steps, pushed);
      steps := steps + pushed;
      if !err {
        handle := Some(InvocationHandle(id, functionId, Pending, createdAt));
      }
    }

    // The part of InvokeAsync that pushes the request.
    method Announce(id: Id, functionId: Id, deadline: Option<int>, messageId: Id, pushing: Fault)
      returns (err: bool, ghost message: Message)
      requires queue.cluster == cluster && cluster.Valid()
      requires id in cluster.state.calling && messageId !in cluster.state.place
      modifies cluster
      ensures cluster.Valid() && old(cluster.trace) <= cluster.trace
      ensures err <==> pushing != Fine
      ensures Own(cluster.trace, Caller(id, messageId)) == Own(old(cluster.trace), Caller(id, messageId))
                + [if pushing == NotApplied then GiveUp(id) else Send(id, message)]
      ensures Announces(message, messageId, id, functionId, deadline)
    {
      var headers := map["invocation_id" := id, "function_id" := functionId];
      err, message := queue.Enqueue(messageId, Request(id, functionId, deadline), headers, pushing);
    }
  }

  // How the calls of a turn go, in order.
  datatype Faults = Faults(pop: Fault, statusRead: bool, statusWrite: Fault, resultRead: bool, resultWrite: Fault,
                           remove: Fault, push: Fault)

  // How a worker's turn with one message went.
  datatype Turn = Turn(raw: Message, reason: string, stamp: string, status: Access, outcome: Outcome,
                       result: Access, removed: bool, settled: bool)

  /** The steps of a turn, in order: the one place that says what processNextMessage does to the stores. */
  function TurnSteps(w: nat, turn: Turn): seq<Step> {
    [Deliver(w)] + HandleSteps(w, turn)
  }

  function HandleSteps(w: nat, turn: Turn): seq<Step> {
    if turn.raw.payload.Garbled? then RejectSteps(w, turn) else AttemptSteps(w, turn)
  }

  lemma Associative(a: seq<Step>, b: seq<Step>, c: seq<Step>)
    ensures a + b + c == a + (b + c)
  {
  }

  function RejectSteps(w: nat, turn: Turn): seq<Step> {
    [RejectPayload(w, turn.reason, turn.stamp), LetterRemove(w, turn.removed), LetterPush(w, turn.settled)]
  }

  function AttemptSteps(w: nat, turn: Turn): seq<Step> {
    StatusSteps(w, turn.status) + [Execute(w, turn.outcome, turn.stamp)] + SettleSteps(w, turn)
  }

  function SettleSteps(w: nat, turn: Turn): seq<Step> {
    if turn.outcome.Produced? then ResultSteps(w, turn.result) + [Step.Ack(w, turn.settled)]
    else if Received(turn.raw).attempts < MAX_ATTEMPTS then [NackRemove(w, turn.removed), NackPush(w, turn.settled)]
    else [LetterRemove(w, turn.removed), LetterPush(w, turn.settled)]
  }

  // What executeFunction finds: the function's default timeout, its code, and what the runtime makes of a timeout.
  datatype World = World(fn: Option<int>, code: Option<string>, run: int -> Outcome) {
    ghost predicate Proper() {
      forall timeout :: run(timeout).Produced? ==> run(timeout).result.WellFormed()
    }
  }

  // A message can be executed only if function and code are found; the timeout is the request's, or else the
  // function's.
  predicate AsAsked(payload: Payload, world: World, outcome: Outcome) {
    match payload
    case Garbled => outcome.GoError?
    case Request(_, _, timeout) =>
      if world.fn.None? then outcome == GoError("failed to get function")
      else if world.code.None? then outcome == GoError("failed to retrieve function code")
      else
        && (timeout.Some? ==> outcome == world.run(timeout.value))
        && (timeout.None? ==> outcome == world.run(world.fn.value))
  }

  // What a turn does if its calls go like that: a read that fails is no update, and a call not applied is no effect.
  predicate GoesAs(turn: Turn, faults: Faults) {
    && (turn.status.Stored? ==> !faults.statusRead && turn.status.applied == (faults.statusWrite != NotApplied))
    && (turn.result.Stored? ==> !faults.resultRead && turn.result.applied == (faults.resultWrite != NotApplied))
    && (turn.raw.payload.Request? && turn.outcome.Produced? ==> turn.settled == (faults.remove != NotApplied))
    && (turn.raw.payload.Garbled? || turn.outcome.GoError? ==>
          turn.removed == (faults.remove != NotApplied) && turn.settled == (faults.push != NotApplied))
  }

  // Without a failure an update misses its row only if the row is gone.
  predicate MissesGone(turn: Turn, faults: Faults, rows: map<Id, Invocation>) {
    turn.raw.payload.Request? ==>
      && (turn.status == Missed ==> faults.statusRead || turn.raw.payload.invocation !in rows)
      && (turn.outcome.Produced? && turn.result == Missed ==> faults.resultRead || turn.raw.payload.invocation !in rows)
  }

  // A row that is gone while its message is held stays gone.
  lemma StaysGone(form: Form, workers: nat, start: Time, trace: seq<Step>, later: seq<Step>, w: nat)
    requires trace <= later && Happens(form, workers, start, trace) && Happens(form, workers, start, later)
    requires Busy(Now(form, workers, start, trace), w)
    ensures var s := Now(form, workers, start, trace);
      && s.workers[w].raw.payload.Request?
      && var inv := s.workers[w].raw.payload.invocation;
      inv !in s.rows ==> inv !in Now(form, workers, start, later).rows
  {
    InvNow(form, workers, start, trace);
    var s := Now(form, workers, start, trace);
    assert Addressed(s, s.workers[w].raw);
    assert later == trace + later[|trace|..];
    ExecSplit(form, Init(workers, start), trace, later[|trace|..]);
    RowsEvolve(form, s, later[|trace|..], s.workers[w].raw.payload.invocation);
  }

  class Worker {
    const cluster: Cluster
    const queue: RedisQueue
    const service: InvocationService
    ghost const w: nat
    var stopped: bool

    ghost predicate Wired() {
      queue.cluster == cluster && service.cluster == cluster
    }

    constructor (queue: RedisQueue, service: InvocationService, ghost w: nat)
      requires service.cluster == queue.cluster
      ensures Wired() && this.queue == queue && this.service == service && this.cluster == queue.cluster
      ensures this.w == w && !stopped
    {
      this.queue, this.service, this.cluster := queue, service, queue.cluster;
      this.w := w;
      stopped := false;
    }

    method Stop()
      modifies this
      ensures stopped
    {
      stopped := true;
    }

    // executeFunction. A failed status update is only logged.
    method ExecuteFunction(request: Payload, world: World, stamp: string, faults: Faults)
      returns (outcome: Outcome, ghost access: Access)
      requires Wired() && cluster.Valid() && w < |cluster.state.workers|
      requires cluster.state.workers[w].Dequeued? && cluster.state.workers[w].raw.payload == request && request.Request?
      requires world.Proper()
      modifies cluster
      ensures cluster.Valid() && old(cluster.trace) <= cluster.trace && w < |cluster.state.workers|
      ensures AsAsked(request, world, outcome)
      ensures access.Stored? ==> !faults.statusRead && access.applied == (faults.statusWrite != NotApplied)
      ensures access == Missed ==> faults.statusRead || request.invocation !in cluster.state.rows
      ensures cluster.state.workers[w] == AfterRun(old(cluster.state).workers[w].raw, outcome, stamp)
      ensures Own(cluster.trace, Process.Worker(w))
              == Own(old(cluster.trace), Process.Worker(w)) + (StatusSteps(w, access) + [Execute(w, outcome, stamp)])
    {
      var err;
      err, access := service.UpdateInvocationStatus(w, request.invocation, Running, faults.statusRead,
                                                    faults.statusWrite);
      outcome := RunFunction(request, world);
      ghost var before := cluster.trace;
      cluster.Others(Process.Worker(w));
      cluster.Commit(Execute(w, outcome, stamp));
      StaysGone(cluster.form, cluster.workers, cluster.start, before, cluster.trace, w);
    }

    // The lookups and the run.
    method RunFunction(request: Payload, world: World) returns (outcome: Outcome)
      requires request.Request? && world.Proper()
      ensures AsAsked(request, world, outcome)
      ensures outcome.Produced? ==> outcome.result.WellFormed()
    {
      if world.fn.None? {
        return GoError("failed to get function");
      }
      if world.code.None? {
        return GoError("failed to retrieve function code");
      }
      var timeout := world.fn.value;
      if request.timeout.Some? {
        timeout := request.timeout.value;
      }
      outcome := world.run(timeout);
    }

    // The branch for a payload that does not decode.
    method Reject(message: Message, reason: string, stamp: string, faults: Faults, ghost raw: Message)
      returns (ghost turn: Turn)
      requires Wired() && cluster.Valid() && w < |cluster.state.workers|
      requires cluster.state.workers[w] == Dequeued(raw) && message == Received(raw) && message.payload.Garbled?
      modifies cluster
      ensures cluster.Valid() && old(cluster.trace) <= cluster.trace && w < |cluster.state.workers|
      ensures cluster.state.workers[w] == Idle
      ensures turn.raw == raw && turn.reason == reason && turn.stamp == stamp && turn.outcome.GoError?
      ensures GoesAs(turn, faults)
      ensures Own(cluster.trace, Process.Worker(w)) == Own(old(cluster.trace), Process.Worker(w)) + RejectSteps(w, turn)
    {
      cluster.Commit(RejectPayload(w, reason, stamp));
      var err;
      err := queue.DeadLetter(w, message, "invalid payload: " + reason, stamp, faults.remove, faults.push);
      turn := Turn(raw, reason, stamp, Missed, GoError("invalid payload"), Missed, faults.remove != NotApplied,
                   faults.push != NotApplied);
    }

    // After a Go error: back to the queue, or to the dead letters once the attempts are used up.
    method Retry(message: Message, text: string, stamp: string, faults: Faults, ghost raw: Message)
      requires Wired() && cluster.Valid() && w < |cluster.state.workers|
      requires cluster.state.workers[w] == AfterRun(raw, GoError(text), stamp) && message == Received(raw)
      modifies cluster
      ensures cluster.Valid() && old(cluster.trace) <= cluster.trace && w < |cluster.state.workers|
      ensures cluster.state.workers[w] == Idle
      ensures Own(cluster.trace, Process.Worker(w)) == Own(old(cluster.trace), Process.Worker(w))
              + var removed, pushed := faults.remove != NotApplied, faults.push != NotApplied;
              if message.attempts < MAX_ATTEMPTS then [NackRemove(w, removed), NackPush(w, pushed)]
              else [LetterRemove(w, removed), LetterPush(w, pushed)]
    {
      var err;
      if message.attempts < 3 {
        err := queue.Nack(w, message, faults.remove, faults.push);
      } else {
        err := queue.DeadLetter(w, message, "max retries exceeded: " + text, stamp, faults.remove, faults.push);
      }
    }

    // After a result: stored if possible, acked in any case.
    method Conclude(message: Message, request: Payload, result: ExecutionResult, faults: Faults, ghost raw: Message)
      returns (ghost access: Access)
      requires Wired() && cluster.Valid() && w < |cluster.state.workers|
      requires cluster.state.workers[w] == Finished(raw, result) && message == Received(raw)
      requires raw.payload == request && request.Request?
      modifies cluster
      ensures cluster.Valid() && old(cluster.trace) <= cluster.trace && w < |cluster.state.workers|
      ensures cluster.state.workers[w] == Idle
      ensures Own(cluster.trace, Process.Worker(w)) == Own(old(cluster.trace), Process.Worker(w))
              + (ResultSteps(w, access) + [Step.Ack(w, faults.remove != NotApplied)])
      ensures access.Stored? ==> !faults.resultRead && access.applied == (faults.resultWrite != NotApplied)
      ensures access == Missed ==> faults.resultRead || request.invocation !in cluster.state.rows
    {
      var err;
      err, access := service.UpdateInvocationResult(w, request.invocation, result, faults.resultRead,
                                                    faults.resultWrite);
      ghost var before := cluster.trace;
      err := queue.Ack(w, message, faults.remove);
      StaysGone(cluster.form, cluster.workers, cluster.start, before, cluster.trace, w);
    }

    // What follows an execution.
    method Settle(message: Message, outcome: Outcome, stamp: string, faults: Faults, ghost start: Turn)
      returns (ghost turn: Turn)
      requires Wired() && cluster.Valid() && w < |cluster.state.workers|
      requires message == Received(start.raw) && message.payload.Request? && start.outcome == outcome
      requires start.result == Missed
      requires start.status.Stored? ==> !faults.statusRead && start.status.applied == (faults.statusWrite != NotApplied)
      requires cluster.state.workers[w] == AfterRun(start.raw, outcome, stamp)
      modifies cluster
      ensures cluster.Valid() && old(cluster.trace) <= cluster.trace && w < |cluster.state.workers|
      ensures cluster.state.workers[w] == Idle
      ensures turn == start.(result := turn.result, removed := turn.removed, settled := turn.settled)
      ensures GoesAs(turn, faults)
      ensures outcome.Produced? && turn.result == Missed ==>
        faults.resultRead || message.payload.invocation !in cluster.state.rows
      ensures Own(cluster.trace, Process.Worker(w)) == Own(old(cluster.trace), Process.Worker(w)) + SettleSteps(w, turn)
    {
      match outcome
      case GoError(text) =>
        Retry(message, text, stamp, faults, start.raw);
        turn := start.(removed := faults.remove != NotApplied, settled := faults.push != NotApplied);
      case Produced(r) =>
        ghost var access := Conclude(message, message.payload, r, faults, start.raw);
        turn := start.(result := access, settled := faults.remove != NotApplied);
    }

    // The branch for an execution request.
    method Attempt(message: Message, world: World, ghost reason: string, stamp: string, faults: Faults,
                   ghost raw: Message)
      returns (ghost turn: Turn)
      requires Wired() && cluster.Valid() && w < |cluster.state.workers|
      requires cluster.state.workers[w] == Dequeued(raw) && message == Received(raw) && message.payload.Request?
      requires world.Proper()
      modifies cluster
      ensures cluster.Valid() && old(cluster.trace) <= cluster.trace && w < |cluster.state.workers|
      ensures cluster.state.workers[w] == Idle
      ensures turn.raw == raw && turn.reason == reason && turn.stamp == stamp
      ensures AsAsked(raw.payload, world, turn.outcome) && GoesAs(turn, faults)
      ensures MissesGone(turn, faults, cluster.state.rows)
      ensures Own(cluster.trace, Process.Worker(w))
        == Own(old(cluster.trace), Process.Worker(w)) + AttemptSteps(w, turn)
    {
      ghost var before := Own(cluster.trace, Process.Worker(w));
      var outcome;
      ghost var status;
      outcome, status := ExecuteFunction(message.payload, world, stamp, faults);
      ghost var mid := cluster.trace;
      turn := Settle(message, outcome, stamp, faults, Turn(raw, reason, stamp, status, outcome, Missed, false, false));
      StaysGone(cluster.form, cluster.workers, cluster.start, mid, cluster.trace, w);
      Associative(before, StatusSteps(w, status) + [Execute(w, outcome, stamp)], SettleSteps(w, turn));
    }

    // What follows a delivery.
    method Handle(message: Message, world: World, reason: string, stamp: string, faults: Faults, ghost raw: Message)
      returns (ghost turn: Turn)
      requires Wired() && cluster.Valid() && w < |cluster.state.workers|
      requires cluster.state.workers[w] == Dequeued(raw) && message == Received(raw)
      requires world.Proper()
      modifies cluster
      ensures cluster.Valid() && old(cluster.trace) <= cluster.trace && w < |cluster.state.workers|
      ensures cluster.state.workers[w] == Idle
      ensures turn.raw == raw && turn.reason == reason && turn.stamp == stamp
      ensures AsAsked(raw.payload, world, turn.outcome) && GoesAs(turn, faults)
      ensures MissesGone(turn, faults, cluster.state.rows)
      ensures Own(cluster.trace, Process.Worker(w)) == Own(old(cluster.trace), Process.Worker(w)) + HandleSteps(w, turn)
    {
      if message.payload.Garbled? {
        turn := Reject(message, reason, stamp, faults, raw);
      } else {
        turn := Attempt(message, world, reason, stamp, faults, raw);
      }
    }

    /** One message, from BRPOPLPUSH to its ack, nack or dead letter; without a failure, whenever one waits. */
    method ProcessNextMessage(world: World, reason: string, stamp: string, faults: Faults)
      returns (err: bool, ghost turn: Option<Turn>)
      requires Wired() && cluster.Valid() && w < |cluster.state.workers| && cluster.state.workers[w] == Idle
      requires world.Proper()
      modifies cluster
      ensures cluster.Valid() && old(cluster.trace) <= cluster.trace && w < |cluster.state.workers|
      ensures cluster.state.workers[w] == Idle
      ensures Own(cluster.trace, Process.Worker(w))
              == Own(old(cluster.trace), Process.Worker(w)) + if turn.Some? then TurnSteps(w, turn.value) else []
      ensures err <==> faults.pop != Fine
      ensures err ==> turn.None?
      ensures turn.None? && !err ==> cluster.state.waiting == []
      ensures turn.Some? ==>
        && turn.value.reason == reason && turn.value.stamp == stamp && GoesAs(turn.value, faults)
        && MissesGone(turn.value, faults, cluster.state.rows)
        && AsAsked(turn.value.raw.payload, world, turn.value.outcome)
    {
      turn := None;
      var delivery := queue.Dequeue(w, faults.pop);
      if delivery == Unavailable {
        return true, None;
      }
      if delivery == Empty {
        return false, None;
      }
      err := false;
      var message := delivery.message;
      ghost var before := Own(old(cluster.trace), Process.Worker(w));
      ghost var done := Handle(message, world, reason, stamp, faults, cluster.state.workers[w].raw);
      Associative(before, [Deliver(w)], HandleSteps(w, done));
      turn := Some(done);
    }

    /**
     The loop of Start, for any number of rounds: the context and the stop channel are looked at only between messages,
     and as long as neither speaks every round is one turn, or none because nothing was waiting or the pop failed.
     */
    method Start(rounds: nat, signals: nat -> Signal, worlds: nat -> World, faults: nat -> Faults, reason: string,
                 stamp: string)
      returns (ghost went: seq<Option<Turn>>, ghost moments: seq<seq<Step>>)
      requires Wired() && cluster.Valid() && w < |cluster.state.workers| && cluster.state.workers[w] == Idle
      requires forall i :: worlds(i).Proper()
      modifies cluster, this
      ensures cluster.Valid() && old(cluster.trace) <= cluster.trace && w < |cluster.state.workers|
      ensures cluster.state.workers[w] == Idle
      ensures Own(cluster.trace, Process.Worker(w)) == Own(old(cluster.trace), Process.Worker(w)) + AllTurns(w, went)
      ensures |went| <= rounds && (old(stopped) ==> went == []) && forall i :: 0 <= i < |went| ==> signals(i) == Quiet
      ensures |went| < rounds && !old(stopped) ==> signals(|went|) != Quiet
      ensures WentSo(moments, went, worlds, faults)
      ensures moments[0] == old(cluster.trace) && moments[|went|] == cluster.trace
    {
      went, moments := Loop(rounds, signals, worlds, faults, reason, stamp);
      TurnsWent(moments, went, worlds, faults);
    }

    // The loop itself.
    method Loop(rounds: nat, signals: nat -> Signal, worlds: nat -> World, faults: nat -> Faults, reason: string,
                stamp: string)
      returns (ghost went: seq<Option<Turn>>, ghost moments: seq<seq<Step>>)
      requires Wired() && cluster.Valid() && w < |cluster.state.workers| && cluster.state.workers[w] == Idle
      requires forall i :: worlds(i).Proper()
      modifies cluster, this
      ensures cluster.Valid() && old(cluster.trace) <= cluster.trace && w < |cluster.state.workers|
      ensures cluster.state.workers[w] == Idle
      ensures |went| <= rounds && (old(stopped) ==> went == []) && forall i :: 0 <= i < |went| ==> signals(i) == Quiet
      ensures |went| < rounds && !old(stopped) ==> signals(|went|) != Quiet
      ensures WentSo(moments, went, worlds, faults)
      ensures moments[0] == old(cluster.trace) && moments[|went|] == cluster.trace
    {
      var i := 0;
      went, moments := [], [cluster.trace];
      while i < rounds
        invariant cluster.Valid() && old(cluster.trace) <= cluster.trace && w < |cluster.state.workers|
        invariant cluster.state.workers[w] == Idle && |went| == i <= rounds
        invariant stopped == old(stopped) && (stopped ==> i == 0)
        invariant forall k :: 0 <= k < i ==> signals(k) == Quiet
        invariant WentSo(moments, went, worlds, faults)
        invariant moments[0] == old(cluster.trace) && moments[i] == cluster.trace
      {
        if signals(i) == StopCalled {
          Stop();
        }
        if signals(i) == ContextDone || stopped {
          return;
        }
        went, moments := RunRound(worlds(i), faults(i), reason, stamp, moments, went, worlds, faults);
        i := i + 1;
      }
    }

    // One round of the loop, added to the rounds so far.
    method RunRound(world: World, fault: Faults, reason: string, stamp: string, ghost moments: seq<seq<Step>>,
                    ghost went: seq<Option<Turn>>, ghost worlds: nat -> World, ghost faults: nat -> Faults)
      returns (ghost went': seq<Option<Turn>>, ghost moments': seq<seq<Step>>)
      requires Wired() && cluster.Valid() && w < |cluster.state.workers| && cluster.state.workers[w] == Idle
      requires world.Proper() && world == worlds(|went|) && fault == faults(|went|)
      requires WentSo(moments, went, worlds, faults) && moments[|went|] == cluster.trace
      modifies cluster
      ensures cluster.Valid() && old(cluster.trace) <= cluster.trace && w < |cluster.state.workers|
      ensures cluster.state.workers[w] == Idle
      ensures WentSo(moments', went', worlds, faults)
      ensures |went'| == |went| + 1 && moments'[0] == moments[0] && moments'[|went'|] == cluster.trace
    {
      cluster.Others(Process.Worker(w));
      var err;
      ghost var turn;
      err, turn := ProcessNextMessage(world, reason, stamp, fault);
      WentOn(moments, went, worlds, faults, turn, cluster.trace);
      went', moments' := went + [turn], moments + [cluster.trace];
    }

    // What a round comes to: a turn as its calls go, or none after a failed pop or with nothing to pop.
    ghost predicate Round(before: seq<Step>, after: seq<Step>, turn: Option<Turn>, world: World, faults: Faults) {
      && before <= after && Happens(cluster.form, cluster.workers, cluster.start, after)
      && Own(after, Process.Worker(w)) == Own(before, Process.Worker(w)) + StepsOf(w, turn)
      && var s := Now(cluster.form, cluster.workers, cluster.start, after);
      match turn
      case Some(t) => faults.pop == Fine && GoesAs(t, faults) && AsAsked(t.raw.payload, world, t.outcome)
                      && MissesGone(t, faults, s.rows)
      case None => faults.pop != Fine || s.waiting == []
    }

    // The rounds follow each other from moment to moment.
    ghost predicate WentSo(moments: seq<seq<Step>>, went: seq<Option<Turn>>, worlds: nat -> World,
                           faults: nat -> Faults) {
      && |moments| == |went| + 1
      && forall i {:trigger went[i]} :: 0 <= i < |went| ==>
        Round(moments[i], moments[i + 1], went[i], worlds(i), faults(i))
    }

    lemma WentOn(moments: seq<seq<Step>>, went: seq<Option<Turn>>, worlds: nat -> World, faults: nat -> Faults,
                 turn: Option<Turn>, after: seq<Step>)
      requires WentSo(moments, went, worlds, faults)
      requires Round(moments[|went|], after, turn, worlds(|went|), faults(|went|))
      ensures WentSo(moments + [after], went + [turn], worlds, faults)
    {
      forall i | 0 <= i < |went|
        ensures Round((moments + [after])[i], (moments + [after])[i + 1], (went + [turn])[i], worlds(i), faults(i))
      {
        assert (went + [turn])[i] == went[i];
      }
    }

    lemma WentBefore(moments: seq<seq<Step>>, went: seq<Option<Turn>>, worlds: nat -> World, faults: nat -> Faults)
      requires WentSo(moments, went, worlds, faults) && went != []
      ensures WentSo(moments[..|went|], went[..|went| - 1], worlds, faults)
    {
      forall i | 0 <= i < |went| - 1
        ensures Round(moments[..|went|][i], moments[..|went|][i + 1], went[..|went| - 1][i], worlds(i), faults(i))
      {
        assert went[..|went| - 1][i] == went[i];
      }
    }

    lemma {:induction false} TurnsWent(moments: seq<seq<Step>>, went: seq<Option<Turn>>, worlds: nat -> World,
                                       faults: nat -> Faults)
      requires WentSo(moments, went, worlds, faults)
      ensures Own(moments[|went|], Process.Worker(w)) == Own(moments[0], Process.Worker(w)) + AllTurns(w, went)
      decreases |went|
    {
      if went != [] {
        var n := |went| - 1;
        WentBefore(moments, went, worlds, faults);
        TurnsWent(moments[..n + 1], went[..n], worlds, faults);
        assert Round(moments[n], moments[n + 1], went[n], worlds(n), faults(n));
        Associative(Own(moments[0], Process.Worker(w)), AllTurns(w, went[..n]), StepsOf(w, went[n]));
      }
    }
  }

  datatype Signal = Quiet | StopCalled | ContextDone

  function StepsOf(w: nat, turn: Option<Turn>): seq<Step> {
    if turn.Some? then TurnSteps(w, turn.value) else []
  }

  // Turn after turn.
  function AllTurns(w: nat, went: seq<Option<Turn>>): seq<Step> {
    if went == [] then [] else AllTurns(w, went[..|went| - 1]) + StepsOf(w, went[|went| - 1])
  }
}
