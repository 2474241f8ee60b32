/**
 Queue, workers and invocation rows as one state machine: a step is one Redis command, one
 repository call, or one local decision of a worker. Steps of different processes interleave freely.
 */
module Protocol {
  import opened Types

  // The queue as it is coded, and as its comments mean it: settling a message either looks for the
  // re-marshalled message in the processing list, or for the entry that was delivered.
  datatype Form = AsCoded | AsMeant

  datatype Payload = Request(invocation: Id, function_: Id, timeout: Option<int>) | Garbled

  datatype Message = Message(id: Id, payload: Payload, headers: map<string, string>, attempts: nat, enqueuedAt: Time)

  const MAX_ATTEMPTS: nat := 3

  // Dequeue's copy of a delivered entry.
  function Received(raw: Message): Message {
    raw.(attempts := raw.attempts + 1)
  }

  // DeadLetter's edit of the headers.
  function Letter(message: Message, reason: string, at: string): Message {
    message.(headers := message.headers["dead_letter_reason" := reason]["dead_lettered_at" := at])
  }

  // A dead letter: the message with two more headers, which say why and when.
  predicate Explained(letter: Message, message: Message, reason: string, stamp: string) {
    && letter.(headers := message.headers) == message
    && letter.headers.Keys == message.headers.Keys + {"dead_letter_reason", "dead_lettered_at"}
    && letter.headers["dead_letter_reason"] == reason && letter.headers["dead_lettered_at"] == stamp
    && forall key :: key in message.headers && key != "dead_letter_reason" && key != "dead_lettered_at" ==>
         letter.headers[key] == message.headers[key]
  }

  // Where a worker stands in processNextMessage; raw is the entry BRPOPLPUSH returned to it.
  datatype Pc =
    | Idle
    | Dequeued(raw: Message)
    | StatusRead(raw: Message, copy: Invocation, since: Time)
    | Executing(raw: Message)
    | Finished(raw: Message, result: ExecutionResult)
    | ResultRead(raw: Message, result: ExecutionResult, copy: Invocation, since: Time)
    | Acking(raw: Message)
    | Nacking(raw: Message, removed: bool)
    | DeadLettering(raw: Message, letter: Message, removed: bool)

  // Where a message is. Only a record of the past: no step looks at it.
  datatype Place = Waiting | Held(worker: nat) | Dead | Acked | Abandoned

  datatype State = State(
    waiting: seq<Message>,            // element 0 is the list's left end
    processing: seq<Message>,
    dead: seq<Message>,
    rows: map<Id, Invocation>,
    now: Time,
    workers: seq<Pc>,
    calling: set<Id>,                 // InvokeAsync calls between the row's insertion and the push
    // history
    created: set<Id>,                 // every invocation ever inserted
    dropped: set<Id>,                 // invocations whose push failed, or whose caller died before it
    ticket: map<Id, Id>,              // invocation to the message pushed for it
    place: map<Id, Place>,            // message to its present place
    pushed: seq<Message>,             // every LPUSH to waiting, oldest first
    deliveries: seq<Message>          // every BRPOPLPUSH, oldest first
  )

  datatype Outcome = GoError(text: string) | Produced(result: ExecutionResult)

  datatype Step =
    | Tick(t: Time)
    | DropRows(function_: Id)                              // ON DELETE CASCADE
    | CreateRow(inv: Id, function_: Id, at: Time)
    | Send(inv: Id, message: Message)                      // Enqueue's LPUSH
    | GiveUp(inv: Id)
    | Deliver(w: nat)                                      // BRPOPLPUSH
    | LoseDelivery                                         // BRPOPLPUSH whose reply is lost
    | RejectPayload(w: nat, reason: string, stamp: string)
    | ReadStatus(w: nat, ok: bool)
    | WriteStatus(w: nat, applied: bool, t: Time)
    | Execute(w: nat, outcome: Outcome, stamp: string)
    | ReadResult(w: nat, ok: bool)
    | WriteResult(w: nat, applied: bool, t: Time)
    | Ack(w: nat, applied: bool)
    | NackRemove(w: nat, applied: bool)
    | NackPush(w: nat, applied: bool)
    | LetterRemove(w: nat, applied: bool)
    | LetterPush(w: nat, applied: bool)
    | Crash(w: nat)
  {
    // The worker that takes the step.
    function Actor(): Option<nat> {
      match this
      case Deliver(w) => Some(w)
      case RejectPayload(w, _, _) => Some(w)
      case ReadStatus(w, _) => Some(w)
      case WriteStatus(w, _, _) => Some(w)
      case Execute(w, _, _) => Some(w)
      case ReadResult(w, _) => Some(w)
      case WriteResult(w, _, _) => Some(w)
      case Ack(w, _) => Some(w)
      case NackRemove(w, _) => Some(w)
      case NackPush(w, _) => Some(w)
      case LetterRemove(w, _) => Some(w)
      case LetterPush(w, _) => Some(w)
      case Crash(w) => Some(w)
      case _ => None
    }
  }

  function Init(workers: nat, now: Time): State {
    State([], [], [], map[], now, seq(workers, _ => Idle), {}, {}, {}, map[], map[], [], [])
  }

  /** LREM key 1 entry: drops the first element equal to the entry, if there is one. */
  function LRem(list: seq<Message>, entry: Message): seq<Message> {
    if list == [] then []
    else if list[0] == entry then list[1..]
    else [list[0]] + LRem(list[1..], entry)
  }

  // The entry a settle call asks LREM for.
  function Sought(form: Form, raw: Message, resent: Message): Message {
    if form == AsMeant then raw else resent
  }

  predicate Busy(s: State, w: nat) {
    w < |s.workers| && s.workers[w] != Idle
  }

  predicate Enabled(s: State, step: Step) {
    match step
    case Tick(t) => s.now <= t
    case DropRows(_) => true
    case CreateRow(inv, _, at) => inv !in s.created && at <= s.now
    case Send(inv, m) =>
      && inv in s.calling && m.id !in s.place && m.attempts == 0
      && m.payload.Request? && m.payload.invocation == inv
    case GiveUp(inv) => inv in s.calling
    case Deliver(w) => w < |s.workers| && s.workers[w] == Idle && s.waiting != []
    case LoseDelivery => s.waiting != []
    case RejectPayload(w, _, _) => w < |s.workers| && s.workers[w].Dequeued? && s.workers[w].raw.payload.Garbled?
    case ReadStatus(w, ok) =>
      && w < |s.workers| && s.workers[w].Dequeued? && s.workers[w].raw.payload.Request?
      && (ok ==> s.workers[w].raw.payload.invocation in s.rows)
    case WriteStatus(w, _, t) =>
      w < |s.workers| && s.workers[w].StatusRead? && s.workers[w].raw.payload.Request?
        && s.workers[w].since <= t <= s.now
    case Execute(w, outcome, _) =>
      w < |s.workers| && s.workers[w].Executing? && (outcome.Produced? ==> outcome.result.WellFormed())
    case ReadResult(w, ok) =>
      && w < |s.workers| && s.workers[w].Finished? && s.workers[w].raw.payload.Request?
      && (ok ==> s.workers[w].raw.payload.invocation in s.rows)
    case WriteResult(w, _, t) =>
      w < |s.workers| && s.workers[w].ResultRead? && s.workers[w].raw.payload.Request?
        && s.workers[w].since <= t <= s.now
    case Ack(w, _) => w < |s.workers| && s.workers[w].Acking?
    case NackRemove(w, _) => w < |s.workers| && s.workers[w].Nacking? && !s.workers[w].removed
    case NackPush(w, _) => w < |s.workers| && s.workers[w].Nacking? && s.workers[w].removed
    case LetterRemove(w, _) => w < |s.workers| && s.workers[w].DeadLettering? && !s.workers[w].removed
    case LetterPush(w, _) => w < |s.workers| && s.workers[w].DeadLettering? && s.workers[w].removed
    case Crash(w) => Busy(s, w)
  }

  function Pop(s: State, place: Place): State
    requires s.waiting != []
  {
    var raw := s.waiting[|s.waiting| - 1];
    s.(waiting := s.waiting[..|s.waiting| - 1], processing := [raw] + s.processing,
       deliveries := s.deliveries + [raw], place := s.place[raw.id := place])
  }

  function Push(s: State, message: Message): State {
    s.(waiting := [message] + s.waiting, pushed := s.pushed + [message], place := s.place[message.id := Waiting])
  }

  function Goto(s: State, w: nat, pc: Pc): State
    requires w < |s.workers|
  {
    s.(workers := s.workers[w := pc])
  }

  // UPDATE ... WHERE id = inv: nothing happens when the row is gone.
  function Write(s: State, inv: Id, record: Invocation, applied: bool): State {
    if applied && inv in s.rows then s.(rows := s.rows[inv := Persist(s.rows[inv], record)]) else s
  }

  function Remove(s: State, entry: Message, applied: bool): State {
    if applied then s.(processing := LRem(s.processing, entry)) else s
  }

  // The worker is done with its message.
  function Release(s: State, w: nat, place: Place): State
    requires Busy(s, w)
  {
    Goto(s.(place := s.place[s.workers[w].raw.id := place]), w, Idle)
  }

  function AfterRun(raw: Message, outcome: Outcome, at: string): Pc {
    match outcome
    case Produced(result) => Finished(raw, result)
    case GoError(text) =>
      if Received(raw).attempts < MAX_ATTEMPTS then Nacking(raw, false)
      else DeadLettering(raw, Letter(Received(raw), "max retries exceeded: " + text, at), false)
  }

  function Do(form: Form, s: State, step: Step): State
    requires Enabled(s, step)
  {
    match step
    case Tick(t) => s.(now := t)
    case DropRows(f) => s.(rows := map inv | inv in s.rows && s.rows[inv].functionId != f :: s.rows[inv])
    case CreateRow(inv, f, at) =>
      s.(rows := s.rows[inv := NewRow(f, at)], created := s.created + {inv}, calling := s.calling + {inv})
    case Send(inv, m) => Push(s.(calling := s.calling - {inv}, ticket := s.ticket[inv := m.id]), m)
    case GiveUp(inv) => s.(calling := s.calling - {inv}, dropped := s.dropped + {inv})
    case Deliver(w) => Goto(Pop(s, Held(w)), w, Dequeued(s.waiting[|s.waiting| - 1]))
    case LoseDelivery => Pop(s, Abandoned)
    case RejectPayload(w, reason, at) =>
      var raw := s.workers[w].raw;
      Goto(s, w, DeadLettering(raw, Letter(Received(raw), "invalid payload: " + reason, at), false))
    case ReadStatus(w, ok) =>
      var raw := s.workers[w].raw;
      Goto(s, w, if ok then StatusRead(raw, s.rows[raw.payload.invocation], s.now) else Executing(raw))
    case WriteStatus(w, applied, t) =>
      var pc := s.workers[w];
      Goto(Write(s, pc.raw.payload.invocation, MarkStatus(pc.copy, Running, t), applied), w, Executing(pc.raw))
    case Execute(w, outcome, at) => Goto(s, w, AfterRun(s.workers[w].raw, outcome, at))
    case ReadResult(w, ok) =>
      var pc := s.workers[w];
      Goto(s, w, if ok then ResultRead(pc.raw, pc.result, s.rows[pc.raw.payload.invocation], s.now) else Acking(pc.raw))
    case WriteResult(w, applied, t) =>
      var pc := s.workers[w];
      Goto(Write(s, pc.raw.payload.invocation, MarkResult(pc.copy, pc.result, t), applied), w, Acking(pc.raw))
    case Ack(w, applied) =>
      var raw := s.workers[w].raw;
      Release(Remove(s, Sought(form, raw, Received(raw)), applied), w, if applied then Acked else Abandoned)
    case NackRemove(w, applied) =>
      var raw := s.workers[w].raw;
      Goto(Remove(s, Sought(form, raw, Received(raw)), applied), w, Nacking(raw, true))
    case NackPush(w, applied) =>
      if applied then Goto(Push(s, Received(s.workers[w].raw)), w, Idle) else Release(s, w, Abandoned)
    case LetterRemove(w, applied) =>
      var pc := s.workers[w];
      Goto(Remove(s, Sought(form, pc.raw, pc.letter), applied), w, DeadLettering(pc.raw, pc.letter, true))
    case LetterPush(w, applied) =>
      if applied then Release(s.(dead := [s.workers[w].letter] + s.dead), w, Dead) else Release(s, w, Abandoned)
    case Crash(w) => Release(s, w, Abandoned)
  }

  // A legal run, and the state it ends in.
  predicate Legal(form: Form, s: State, steps: seq<Step>)
    decreases |steps|, 0
  {
    steps == [] || (var n := |steps| - 1; Legal(form, s, steps[..n]) && Enabled(Exec(form, s, steps[..n]), steps[n]))
  }

  function Exec(form: Form, s: State, steps: seq<Step>): State
    requires Legal(form, s, steps)
    decreases |steps|, 1
  {
    if steps == [] then s
    else (var n := |steps| - 1; Do(form, Exec(form, s, steps[..n]), steps[n]))
  }

  lemma {:induction false} ExecAppend(form: Form, s: State, a: seq<Step>, b: seq<Step>)
    requires Legal(form, s, a) && Legal(form, Exec(form, s, a), b)
    ensures Legal(form, s, a + b) && Exec(form, s, a + b) == Exec(form, Exec(form, s, a), b)
    decreases |b|
  {
    if b == [] {
      assert a + b == a;
    } else {
      ExecAppend(form, s, a, b[..|b| - 1]);
      ExecLast(form, s, a, b);
    }
  }

  // The last step of the second part is the last step of the whole.
  lemma ExecLast(form: Form, s: State, a: seq<Step>, b: seq<Step>)
    requires b != [] && Legal(form, s, a) && Legal(form, Exec(form, s, a), b)
    requires Legal(form, s, a + b[..|b| - 1])
    requires Exec(form, s, a + b[..|b| - 1]) == Exec(form, Exec(form, s, a), b[..|b| - 1])
    ensures Legal(form, s, a + b) && Exec(form, s, a + b) == Exec(form, Exec(form, s, a), b)
  {
    var n := |b| - 1;
    assert (a + b)[..|a + b| - 1] == a + b[..n];
    assert (a + b)[|a + b| - 1] == b[n];
  }

  lemma {:induction false} ExecSplit(form: Form, s: State, a: seq<Step>, b: seq<Step>)
    requires Legal(form, s, a + b)
    ensures Legal(form, s, a) && Legal(form, Exec(form, s, a), b)
    ensures Exec(form, s, a + b) == Exec(form, Exec(form, s, a), b)
    decreases |b|
  {
    if b == [] {
      assert a + b == a;
    } else {
      var n := |b| - 1;
      assert (a + b)[..|a + b| - 1] == a + b[..n];
      ExecSplit(form, s, a, b[..n]);
    }
  }

  lemma ExecOne(form: Form, s: State, step: Step)
    requires Enabled(s, step)
    ensures Legal(form, s, [step]) && Exec(form, s, [step]) == Do(form, s, step)
  {
    var none: seq<Step> := [step][..|[step]| - 1];
    assert none == [];
    assert Legal(form, s, none) && Exec(form, s, none) == s;
  }
}
