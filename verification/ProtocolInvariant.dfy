/** The inductive invariant of the protocol, part by part, and its preservation by every step. */
module ProtocolInvariant {
  import opened Types
  import opened Protocol
  import opened Lifecycle

  // How often a message was delivered.
  ghost function Count(log: seq<Message>, id: Id): nat {
    if log == [] then 0
    else Count(log[..|log| - 1], id) + if log[|log| - 1].id == id then 1 else 0
  }

  lemma CountSnoc(log: seq<Message>, m: Message)
    ensures forall id :: Count(log + [m], id) == Count(log, id) + if m.id == id then 1 else 0
  {
    assert (log + [m])[..|log|] == log;
  }

  function Reversed(s: seq<Message>): seq<Message> {
    if s == [] then [] else Reversed(s[1..]) + [s[0]]
  }

  lemma {:induction false} ReversedLast(s: seq<Message>)
    requires s != []
    ensures Reversed(s) == [s[|s| - 1]] + Reversed(s[..|s| - 1])
  {
    if |s| > 1 {
      ReversedLast(s[1..]);
      assert s[1..][..|s| - 2] == s[..|s| - 1][1..];
    }
  }

  lemma {:induction false} ReversedSame(s: seq<Message>)
    ensures |Reversed(s)| == |s|
    ensures forall m :: m in Reversed(s) <==> m in s
  {
    if s != [] {
      ReversedSame(s[1..]);
    }
  }

  // What a step does to the queue and the workers, rows and the processing list aside.
  datatype Effect =
    | Stay
    | Move(w: nat, pc: Pc)               // worker w goes on with the message it holds
    | Enter(inv: Id)
    | Post(inv: Id, message: Message)
    | Forget(inv: Id)
    | Take(w: nat)
    | Lose
    | Requeue(w: nat)
    | Bury(w: nat)
    | Settle(w: nat, place: Place)

  predicate Possible(s: State, e: Effect) {
    match e
    case Stay => true
    case Move(w, pc) =>
      && Busy(s, w) && pc != Idle && pc.raw == s.workers[w].raw
      && (pc.DeadLettering? ==> pc.letter.id == pc.raw.id && pc.letter.payload == pc.raw.payload
                                && pc.letter.attempts == pc.raw.attempts + 1)
      && (pc.Nacking? ==> pc.raw.attempts + 1 < MAX_ATTEMPTS)
    case Enter(inv) => inv !in s.created
    case Post(inv, m) =>
      && inv in s.calling && m.id !in s.place && m.attempts == 0
      && m.payload.Request? && m.payload.invocation == inv
    case Forget(inv) => inv in s.calling
    case Take(w) => w < |s.workers| && s.workers[w] == Idle && s.waiting != []
    case Lose => s.waiting != []
    case Requeue(w) => Busy(s, w) && s.workers[w].Nacking?
    case Bury(w) => Busy(s, w) && s.workers[w].DeadLettering?
    case Settle(w, place) => Busy(s, w) && (place == Acked || place == Abandoned)
  }

  function Apply(s: State, e: Effect): State
    requires Possible(s, e)
  {
    match e
    case Stay => s
    case Move(w, pc) => Goto(s, w, pc)
    case Enter(inv) => s.(created := s.created + {inv}, calling := s.calling + {inv})
    case Post(inv, m) => Push(s.(calling := s.calling - {inv}, ticket := s.ticket[inv := m.id]), m)
    case Forget(inv) => s.(calling := s.calling - {inv}, dropped := s.dropped + {inv})
    case Take(w) => Goto(Pop(s, Held(w)), w, Dequeued(s.waiting[|s.waiting| - 1]))
    case Lose => Pop(s, Abandoned)
    case Requeue(w) => Goto(Push(s, Received(s.workers[w].raw)), w, Idle)
    case Bury(w) => Release(s.(dead := [s.workers[w].letter] + s.dead), w, Dead)
    case Settle(w, place) => Release(s, w, place)
  }

  function EffectOf(form: Form, s: State, step: Step): Effect
    requires Enabled(s, step)
  {
    match step
    case Tick(_) => Stay
    case DropRows(_) => Stay
    case CreateRow(inv, _, _) => Enter(inv)
    case Send(inv, m) => Post(inv, m)
    case GiveUp(inv) => Forget(inv)
    case Deliver(w) => Take(w)
    case LoseDelivery => Lose
    case Ack(w, applied) => Settle(w, if applied then Acked else Abandoned)
    case NackPush(w, applied) => if applied then Requeue(w) else Settle(w, Abandoned)
    case LetterPush(w, applied) => if applied then Bury(w) else Settle(w, Abandoned)
    case Crash(w) => Settle(w, Abandoned)
    case _ => Move(step.w, Do(form, s, step).workers[step.w])
  }

  ghost predicate SameQueue(s: State, t: State) {
    && s.waiting == t.waiting && s.dead == t.dead && s.workers == t.workers && s.calling == t.calling
    && s.created == t.created && s.dropped == t.dropped && s.ticket == t.ticket && s.place == t.place
    && s.pushed == t.pushed && s.deliveries == t.deliveries
  }

  // The steps in which a worker only moves on.
  predicate Moving(step: Step) {
    match step
    case RejectPayload(_, _, _) => true
    case ReadStatus(_, _) => true
    case WriteStatus(_, _, _) => true
    case Execute(_, _, _) => true
    case ReadResult(_, _) => true
    case WriteResult(_, _, _) => true
    case NackRemove(_, _) => true
    case LetterRemove(_, _) => true
    case _ => false
  }

  lemma MoveEffect(form: Form, s: State, step: Step)
    requires Enabled(s, step) && Moving(step)
    ensures var t := Do(form, s, step);
      SameQueue(t, s.(workers := t.workers)) && t.workers == s.workers[step.w := t.workers[step.w]]
  {
    if step.WriteStatus? || step.WriteResult? {
      MoveRows(form, s, step);
    } else if step.NackRemove? || step.LetterRemove? {
      MoveProcessing(form, s, step);
    } else {
      MoveOnly(form, s, step);
    }
  }

  lemma MoveRows(form: Form, s: State, step: Step)
    requires Enabled(s, step) && (step.WriteStatus? || step.WriteResult?)
    ensures var t := Do(form, s, step); t == s.(workers := s.workers[step.w := t.workers[step.w]], rows := t.rows)
  {
  }

  lemma MoveProcessing(form: Form, s: State, step: Step)
    requires Enabled(s, step) && (step.NackRemove? || step.LetterRemove?)
    ensures var t := Do(form, s, step);
      t == s.(workers := s.workers[step.w := t.workers[step.w]], processing := t.processing)
  {
  }

  lemma MoveOnly(form: Form, s: State, step: Step)
    requires Enabled(s, step) && (step.RejectPayload? || step.ReadStatus? || step.Execute? || step.ReadResult?)
    ensures var t := Do(form, s, step); t == s.(workers := s.workers[step.w := t.workers[step.w]])
  {
  }

  lemma MovePossible(form: Form, s: State, step: Step)
    requires Letters(s) && Enabled(s, step) && Moving(step)
    ensures Possible(s, EffectOf(form, s, step))
  {
    assert s.workers[step.w].DeadLettering? ==> s.workers[step.w].letter.id == s.workers[step.w].raw.id;
  }

  lemma OtherEffect(form: Form, s: State, step: Step)
    requires Enabled(s, step) && !Moving(step)
    ensures Possible(s, EffectOf(form, s, step))
    ensures SameQueue(Do(form, s, step), Apply(s, EffectOf(form, s, step)))
  {
    if step.Actor().Some? {
      WorkerEffect(form, s, step);
    } else {
      ControllerEffect(form, s, step);
    }
  }

  lemma WorkerEffect(form: Form, s: State, step: Step)
    requires Enabled(s, step) && !Moving(step) && step.Actor().Some?
    ensures Possible(s, EffectOf(form, s, step))
    ensures SameQueue(Do(form, s, step), Apply(s, EffectOf(form, s, step)))
  {
  }

  lemma ControllerEffect(form: Form, s: State, step: Step)
    requires Enabled(s, step) && step.Actor().None?
    ensures Possible(s, EffectOf(form, s, step))
    ensures SameQueue(Do(form, s, step), Apply(s, EffectOf(form, s, step)))
  {
  }

  lemma EffectHolds(form: Form, s: State, step: Step)
    requires Letters(s) && Enabled(s, step)
    ensures Possible(s, EffectOf(form, s, step))
    ensures SameQueue(Do(form, s, step), Apply(s, EffectOf(form, s, step)))
  {
    if Moving(step) {
      MovePossible(form, s, step);
      MoveEffect(form, s, step);
    } else {
      OtherEffect(form, s, step);
    }
  }

  // ---------- messages in flight keep their identity ----------

  ghost predicate Letters(s: State) {
    forall w :: 0 <= w < |s.workers| ==>
      && (s.workers[w].DeadLettering? ==>
            && s.workers[w].letter.id == s.workers[w].raw.id && s.workers[w].letter.payload == s.workers[w].raw.payload
            && s.workers[w].letter.attempts == s.workers[w].raw.attempts + 1)
      && (s.workers[w].Nacking? ==> s.workers[w].raw.attempts + 1 < MAX_ATTEMPTS)
  }

  lemma LettersStep(s: State, e: Effect)
    requires Letters(s) && Possible(s, e)
    ensures Letters(Apply(s, e))
  {
  }

  // ---------- places ----------

  ghost predicate WaitingPlaced(s: State) {
    && (forall i :: 0 <= i < |s.waiting| ==> s.waiting[i].id in s.place && s.place[s.waiting[i].id] == Waiting)
    && (forall i, j :: 0 <= i < j < |s.waiting| ==> s.waiting[i].id != s.waiting[j].id)
    && (forall id :: id in s.place && s.place[id] == Waiting ==>
        exists i :: 0 <= i < |s.waiting| && s.waiting[i].id == id)
  }

  ghost predicate DeadPlaced(s: State) {
    && (forall i :: 0 <= i < |s.dead| ==> s.dead[i].id in s.place && s.place[s.dead[i].id] == Dead)
    && (forall i, j :: 0 <= i < j < |s.dead| ==> s.dead[i].id != s.dead[j].id)
    && (forall id :: id in s.place && s.place[id] == Dead ==> exists i :: 0 <= i < |s.dead| && s.dead[i].id == id)
  }

  ghost predicate HeldPlaced(s: State) {
    && (forall w: nat :: Busy(s, w) ==> s.workers[w].raw.id in s.place && s.place[s.workers[w].raw.id] == Held(w))
    && (forall id :: id in s.place && s.place[id].Held? ==>
          Busy(s, s.place[id].worker) && s.workers[s.place[id].worker].raw.id == id)
  }

  ghost predicate Places(s: State) {
    WaitingPlaced(s) && DeadPlaced(s) && HeldPlaced(s) && Letters(s)
  }

  lemma HoldersPlaced(s: State, e: Effect, w: nat)
    requires Places(s) && Possible(s, e) && Busy(Apply(s, e), w)
    ensures var t := Apply(s, e); t.workers[w].raw.id in t.place && t.place[t.workers[w].raw.id] == Held(w)
  {
    if s.workers[w] != Idle {
      assert s.place[s.workers[w].raw.id] == Held(w);
    }
  }

  lemma HeldByHolder(s: State, e: Effect, id: Id)
    requires Places(s) && Possible(s, e) && id in Apply(s, e).place && Apply(s, e).place[id].Held?
    ensures var t := Apply(s, e); var w := t.place[id].worker; Busy(t, w) && t.workers[w].raw.id == id
  {
    if id in s.place && s.place[id].Held? {
      assert Busy(s, s.place[id].worker);
    }
  }

  lemma HeldPlacedStep(s: State, e: Effect)
    requires Places(s) && Possible(s, e)
    ensures HeldPlaced(Apply(s, e))
  {
    var t := Apply(s, e);
    forall w: nat | Busy(t, w) ensures t.workers[w].raw.id in t.place && t.place[t.workers[w].raw.id] == Held(w) {
      HoldersPlaced(s, e, w);
    }
    forall id | id in t.place && t.place[id].Held?
      ensures Busy(t, t.place[id].worker) && t.workers[t.place[id].worker].raw.id == id
    {
      HeldByHolder(s, e, id);
    }
  }

  lemma DeadPlacedStep(s: State, e: Effect)
    requires Places(s) && Possible(s, e)
    ensures DeadPlaced(Apply(s, e))
  {
    if e.Bury? {
      BuriedPlaced(s, e);
    } else {
      assert Apply(s, e).dead == s.dead;
      OthersNotDead(s, e);
    }
  }

  lemma BuriedPlaced(s: State, e: Effect)
    requires Places(s) && Possible(s, e) && e.Bury?
    ensures DeadPlaced(Apply(s, e))
  {
    var t := Apply(s, e);
    forall id | id in t.place && t.place[id] == Dead ensures exists i :: 0 <= i < |t.dead| && t.dead[i].id == id {
      if id == s.workers[e.w].raw.id {
        assert t.dead[0].id == id;
      } else {
        var i :| 0 <= i < |s.dead| && s.dead[i].id == id;
        assert t.dead[i + 1].id == id;
      }
    }
  }

  // No other effect moves a message to or from the dead letters.
  lemma OthersNotDead(s: State, e: Effect)
    requires Places(s) && Possible(s, e) && !e.Bury?
    ensures forall id ::
              id in Apply(s, e).place && Apply(s, e).place[id] == Dead <==> id in s.place && s.place[id] == Dead
  {
    match e
    case Take(_) => assert s.place[s.waiting[|s.waiting| - 1].id] == Waiting;
    case Lose => assert s.place[s.waiting[|s.waiting| - 1].id] == Waiting;
    case Requeue(w) => assert s.place[s.workers[w].raw.id] == Held(w);
    case Settle(w, _) => assert s.place[s.workers[w].raw.id] == Held(w);
    case _ =>
  }

  lemma PushedPlaced(s: State, t: State, m: Message)
    requires WaitingPlaced(s) && (m.id !in s.place || s.place[m.id] != Waiting)
    requires t.waiting == [m] + s.waiting && t.place == s.place[m.id := Waiting]
    ensures WaitingPlaced(t)
  {
    forall id | id in t.place && t.place[id] == Waiting
      ensures exists i :: 0 <= i < |t.waiting| && t.waiting[i].id == id
    {
      if id == m.id {
        assert t.waiting[0].id == id;
      } else {
        var i :| 0 <= i < |s.waiting| && s.waiting[i].id == id;
        assert t.waiting[i + 1].id == id;
      }
    }
  }

  lemma WaitingPlacedStep(s: State, e: Effect)
    requires Places(s) && Possible(s, e)
    ensures WaitingPlaced(Apply(s, e))
  {
    var t := Apply(s, e);
    match e
    case Post(_, m) => PushedPlaced(s, t, m);
    case Requeue(w) => PushedPlaced(s, t, Received(s.workers[w].raw));
    case Take(_) => PoppedPlaced(s, t);
    case Lose => PoppedPlaced(s, t);
    case _ =>
      assert t.waiting == s.waiting;
      assert forall id :: id in t.place && t.place[id] == Waiting ==> id in s.place && s.place[id] == Waiting;
  }

  lemma PoppedPlaced(s: State, t: State)
    requires WaitingPlaced(s) && s.waiting != []
    requires var raw := s.waiting[|s.waiting| - 1];
      && t.waiting == s.waiting[..|s.waiting| - 1] && raw.id in t.place && t.place[raw.id] != Waiting
      && t.place == s.place[raw.id := t.place[raw.id]]
    ensures WaitingPlaced(t)
  {
  }

  // ---------- attempts count deliveries ----------

  // Entry number k of the log carries as many attempts as its message had deliveries before.
  ghost predicate Numbered(log: seq<Message>) {
    log == [] ||
    (var n := |log| - 1; Numbered(log[..n]) && log[n].attempts == Count(log[..n], log[n].id))
  }

  ghost predicate Attempts(s: State) {
    && Numbered(s.deliveries) && WaitingAttempts(s) && HeldAttempts(s)
    && (forall i :: 0 <= i < |s.dead| ==> s.dead[i].attempts == Count(s.deliveries, s.dead[i].id))
    && (forall id :: Count(s.deliveries, id) <= if id in s.place then MAX_ATTEMPTS else 0)
  }

  ghost predicate WaitingAttempts(s: State) {
    forall i :: 0 <= i < |s.waiting| ==>
      s.waiting[i].attempts == Count(s.deliveries, s.waiting[i].id) && s.waiting[i].attempts < MAX_ATTEMPTS
  }

  ghost predicate HeldAttempts(s: State) {
    forall w :: 0 <= w < |s.workers| && s.workers[w] != Idle ==>
      s.workers[w].raw.attempts + 1 == Count(s.deliveries, s.workers[w].raw.id)
        && s.workers[w].raw.attempts < MAX_ATTEMPTS
  }

  lemma AttemptsStep(s: State, e: Effect)
    requires Places(s) && Attempts(s) && Possible(s, e)
    ensures Attempts(Apply(s, e))
  {
    match e
    case Take(_) => TakenAttempts(s, e);
    case Lose => TakenAttempts(s, e);
    case Requeue(_) => ReturnedAttempts(s, e);
    case Bury(_) => ReturnedAttempts(s, e);
    case _ =>
  }

  // A message leaves its worker with the attempts the worker counted.
  lemma ReturnedAttempts(s: State, e: Effect)
    requires Places(s) && Attempts(s) && Possible(s, e) && (e.Requeue? || e.Bury?)
    ensures Attempts(Apply(s, e))
  {
    assert s.workers[e.w].raw.attempts + 1 == Count(s.deliveries, s.workers[e.w].raw.id);
  }

  lemma TakenAttempts(s: State, e: Effect)
    requires Places(s) && Attempts(s) && Possible(s, e) && (e.Take? || e.Lose?)
    ensures Attempts(Apply(s, e))
  {
    var t := Apply(s, e);
    var raw := s.waiting[|s.waiting| - 1];
    TakenWaiting(s, t, raw);
    TakenHeld(s, e, raw);
    TakenLog(s, t, raw);
  }

  lemma TakenLog(s: State, t: State, raw: Message)
    requires WaitingPlaced(s) && DeadPlaced(s) && Attempts(s) && s.waiting != [] && raw == s.waiting[|s.waiting| - 1]
    requires t.deliveries == s.deliveries + [raw] && t.dead == s.dead && t.place.Keys == s.place.Keys
    ensures Numbered(t.deliveries)
    ensures forall i :: 0 <= i < |t.dead| ==> t.dead[i].attempts == Count(t.deliveries, t.dead[i].id)
    ensures forall id :: Count(t.deliveries, id) <= if id in t.place then MAX_ATTEMPTS else 0
  {
    CountSnoc(s.deliveries, raw);
    assert t.deliveries[..|s.deliveries|] == s.deliveries;
    assert s.place[raw.id] == Waiting;
  }

  // The others in the list are of other messages.
  lemma TakenWaiting(s: State, t: State, raw: Message)
    requires WaitingPlaced(s) && WaitingAttempts(s) && s.waiting != [] && raw == s.waiting[|s.waiting| - 1]
    requires t.waiting == s.waiting[..|s.waiting| - 1] && t.deliveries == s.deliveries + [raw]
    ensures WaitingAttempts(t)
  {
    CountSnoc(s.deliveries, raw);
  }

  lemma TakenHeld(s: State, e: Effect, raw: Message)
    requires WaitingPlaced(s) && HeldPlaced(s) && WaitingAttempts(s) && HeldAttempts(s) && Possible(s, e)
    requires e.Take? || e.Lose?
    requires raw == s.waiting[|s.waiting| - 1]
    ensures HeldAttempts(Apply(s, e))
  {
    CountSnoc(s.deliveries, raw);
    assert s.place[raw.id] == Waiting;
    forall w: nat | Busy(s, w) ensures s.workers[w].raw.id != raw.id {
      assert s.place[s.workers[w].raw.id] == Held(w);
    }
  }

  // ---------- first in, first out ----------

  /** The k-th pop takes what the k-th push put there. */
  ghost predicate Fifo(s: State) {
    s.pushed == s.deliveries + Reversed(s.waiting)
  }

  lemma FifoStep(s: State, e: Effect)
    requires Fifo(s) && Possible(s, e)
    ensures Fifo(Apply(s, e))
  {
    match e
    case Post(_, m) => assert ([m] + s.waiting)[1..] == s.waiting;
    case Requeue(w) => assert ([Received(s.workers[w].raw)] + s.waiting)[1..] == s.waiting;
    case Take(_) => ReversedLast(s.waiting);
    case Lose => ReversedLast(s.waiting);
    case _ =>
  }

  // ---------- messages and invocations ----------

  ghost predicate Addressed(s: State, m: Message) {
    m.payload.Request? && m.payload.invocation in s.ticket && s.ticket[m.payload.invocation] == m.id
  }

  ghost predicate AllAddressed(s: State) {
    && (forall i :: 0 <= i < |s.waiting| ==> Addressed(s, s.waiting[i]))
    && (forall w :: 0 <= w < |s.workers| && s.workers[w] != Idle ==> Addressed(s, s.workers[w].raw))
    && (forall i :: 0 <= i < |s.dead| ==> Addressed(s, s.dead[i]))
  }

  // One message an invocation, one invocation a message; every invocation inserted is about to be
  // pushed, has been pushed, or was dropped by its caller.
  ghost predicate Ledger(s: State) {
    && (forall inv :: inv in s.ticket ==> s.ticket[inv] in s.place)
    && (forall i, j :: i in s.ticket && j in s.ticket && s.ticket[i] == s.ticket[j] ==> i == j)
    && s.calling !! s.ticket.Keys && s.dropped !! s.ticket.Keys && s.calling !! s.dropped
    && s.created == s.calling + s.ticket.Keys + s.dropped
  }

  ghost predicate Tickets(s: State) {
    AllAddressed(s) && Ledger(s)
  }

  lemma LedgerStep(s: State, e: Effect)
    requires Tickets(s) && Possible(s, e)
    ensures Ledger(Apply(s, e))
  {
    var t := Apply(s, e);
    if e.Post? {
      assert forall inv :: inv in t.ticket ==> inv in s.ticket || inv == e.inv;
    }
  }

  lemma StillAddressed(s: State, e: Effect, m: Message)
    requires Tickets(s) && Possible(s, e) && Addressed(s, m)
    ensures Addressed(Apply(s, e), m)
  {
  }

  lemma AllAddressedStep(s: State, e: Effect)
    requires Letters(s) && Tickets(s) && Possible(s, e)
    ensures AllAddressed(Apply(s, e))
  {
    var t := Apply(s, e);
    forall m | Addressed(s, m) ensures Addressed(t, m) {
      StillAddressed(s, e, m);
    }
    match e
    case Post(_, m) => assert Addressed(t, m);
    case Requeue(w) => assert Addressed(t, Received(s.workers[w].raw));
    case Bury(w) => assert Addressed(t, s.workers[w].letter);
    case Take(_) => assert Addressed(t, s.waiting[|s.waiting| - 1]);
    case _ =>
  }

  // ---------- rows ----------

  ghost predicate Open(s: State, inv: Id) {
    inv in s.rows ==> !s.rows[inv].status.IsTerminal()
  }

  // The invocations that are still somebody's to finish.
  ghost predicate Owed(s: State, m: Message) {
    m.payload.Request? && Open(s, m.payload.invocation)
  }

  ghost predicate OwedAll(s: State) {
    && (forall i :: 0 <= i < |s.waiting| ==> Owed(s, s.waiting[i]))
    && (forall w :: 0 <= w < |s.workers| && s.workers[w] != Idle && !s.workers[w].Acking? ==> Owed(s, s.workers[w].raw))
    && (forall i :: 0 <= i < |s.dead| ==> Owed(s, s.dead[i]))
  }

  // Nobody touches a row before its message is pushed.
  ghost predicate Pendings(s: State) {
    forall inv :: inv in s.rows && (inv in s.calling || inv in s.dropped) ==> s.rows[inv].status == Pending
  }

  // Only the worker that settled a message may have finished its invocation.
  ghost predicate Unfinished(s: State) {
    OwedAll(s) && Pendings(s)
  }

  // A record a worker has loaded is still what the table holds.
  ghost predicate Current(pc: Pc, rows: map<Id, Invocation>, now: Time) {
    && (pc.StatusRead? || pc.ResultRead? ==>
          && pc.raw.payload.Request? && pc.since <= now && Later(pc.copy, pc.since)
          && (pc.raw.payload.invocation in rows ==> rows[pc.raw.payload.invocation] == pc.copy))
    && (pc.Finished? || pc.ResultRead? ==> pc.result.WellFormed())
  }

  ghost predicate Copies(s: State) {
    forall w :: 0 <= w < |s.workers| ==> Current(s.workers[w], s.rows, s.now)
  }

  function TableOf(s: State): Table {
    Table(s.rows, s.created, s.now)
  }

  ghost predicate Inv(s: State) {
    && Places(s) && Attempts(s) && Fifo(s) && Tickets(s)
    && Unfinished(s) && Copies(s) && Shaped(TableOf(s))
  }

  // The indivisible update a step amounts to, if it changes the table at all.
  function EventOf(s: State, step: Step): Option<Event>
    requires Enabled(s, step)
  {
    match step
    case Tick(t) => Some(Pass(t))
    case DropRows(f) => Some(Cascade(f))
    case CreateRow(inv, f, at) => Some(Insert(inv, f, at))
    case WriteStatus(w, applied, t) =>
      var inv := s.workers[w].raw.payload.invocation;
      if applied && inv in s.rows then Some(Start(inv, t)) else None
    case WriteResult(w, applied, t) =>
      var inv := s.workers[w].raw.payload.invocation;
      if applied && inv in s.rows then Some(Finish(inv, s.workers[w].result, t)) else None
    case _ => None
  }

  lemma WriteAct(form: Form, s: State, step: Step)
    requires Copies(s) && OwedAll(s) && AllAddressed(s) && Enabled(s, step) && (step.WriteStatus? || step.WriteResult?)
    ensures match EventOf(s, step)
            case None => TableOf(Do(form, s, step)) == TableOf(s)
            case Some(e) => Can(TableOf(s), e) && TableOf(Do(form, s, step)) == After(TableOf(s), e)
  {
    assert Current(s.workers[step.w], s.rows, s.now);
    assert Owed(s, s.workers[step.w].raw);
  }

  lemma WorkerKeepsTable(form: Form, s: State, step: Step)
    requires Enabled(s, step) && step.Actor().Some? && !step.WriteStatus? && !step.WriteResult?
    ensures EventOf(s, step) == None && TableOf(Do(form, s, step)) == TableOf(s)
  {
  }

  lemma ControllerAct(form: Form, s: State, step: Step)
    requires Enabled(s, step) && step.Actor().None?
    ensures match EventOf(s, step)
            case None => TableOf(Do(form, s, step)) == TableOf(s)
            case Some(e) => Can(TableOf(s), e) && TableOf(Do(form, s, step)) == After(TableOf(s), e)
  {
  }

  /** The read-modify-write pairs of the workers, taken apart by any interleaving, act as one step. */
  lemma TableStep(form: Form, s: State, step: Step)
    requires Inv(s) && Enabled(s, step)
    ensures match EventOf(s, step)
            case None => TableOf(Do(form, s, step)) == TableOf(s)
            case Some(e) => Can(TableOf(s), e) && TableOf(Do(form, s, step)) == After(TableOf(s), e)
  {
    if step.WriteStatus? || step.WriteResult? {
      WriteAct(form, s, step);
    } else if step.Actor().Some? {
      WorkerKeepsTable(form, s, step);
    } else {
      ControllerAct(form, s, step);
    }
  }

  /** While a worker holds a message nobody else has business with its invocation. */
  lemma Exclusive(s: State, w: nat)
    requires Places(s) && Tickets(s) && Busy(s, w)
    ensures var inv := s.workers[w].raw.payload.invocation;
      && (forall i :: 0 <= i < |s.waiting| ==> s.waiting[i].payload.invocation != inv)
      && (forall i :: 0 <= i < |s.dead| ==> s.dead[i].payload.invocation != inv)
      && (forall v :: 0 <= v < |s.workers| && v != w && s.workers[v] != Idle ==>
          s.workers[v].raw.payload.invocation != inv)
      && inv !in s.calling && inv !in s.dropped
  {
    forall v | 0 <= v < |s.workers| && v != w && s.workers[v] != Idle
      ensures s.workers[v].raw.payload.invocation != s.workers[w].raw.payload.invocation
    {
      assert s.place[s.workers[v].raw.id] == Held(v) && s.place[s.workers[w].raw.id] == Held(w);
    }
  }

  ghost predicate RowsKept(s: State, t: State, but: set<Id>) {
    forall inv :: inv in t.rows && inv !in but ==> inv in s.rows && t.rows[inv] == s.rows[inv]
  }

  // The invocations whose row the step may change.
  function Touched(s: State, step: Step): set<Id>
    requires Enabled(s, step)
  {
    match step
    case CreateRow(inv, _, _) => {inv}
    case WriteStatus(w, _, _) => {s.workers[w].raw.payload.invocation}
    case WriteResult(w, _, _) => {s.workers[w].raw.payload.invocation}
    case _ => {}
  }

  lemma RowsKeptStep(form: Form, s: State, step: Step)
    requires Enabled(s, step)
    ensures RowsKept(s, Do(form, s, step), Touched(s, step))
  {
  }

  lemma OthersStay(form: Form, s: State, step: Step)
    requires Enabled(s, step)
    ensures var t := Do(form, s, step); |t.workers| == |s.workers| && s.now <= t.now
    ensures forall w :: 0 <= w < |s.workers| && step.Actor() != Some(w) ==> Do(form, s, step).workers[w] == s.workers[w]
  {
    if Moving(step) {
      MoveEffect(form, s, step);
      MoveClock(form, s, step);
    } else if step.Actor().Some? {
      WorkerStays(form, s, step);
    } else {
      ControllerStays(form, s, step);
    }
  }

  lemma MoveClock(form: Form, s: State, step: Step)
    requires Enabled(s, step) && Moving(step)
    ensures step.Actor() == Some(step.w) && Do(form, s, step).now == s.now
  {
  }

  lemma WorkerStays(form: Form, s: State, step: Step)
    requires Enabled(s, step) && step.Actor().Some? && !Moving(step)
    ensures var t, w := Do(form, s, step), step.Actor().value;
      w < |s.workers| == |t.workers| && t.workers == s.workers[w := t.workers[w]] && t.now == s.now
  {
  }

  lemma ControllerStays(form: Form, s: State, step: Step)
    requires Enabled(s, step) && step.Actor().None?
    ensures Do(form, s, step).workers == s.workers && s.now <= Do(form, s, step).now
  {
  }

  lemma OwnCopy(form: Form, s: State, step: Step, w: nat)
    requires Enabled(s, step) && step.Actor() == Some(w) && w < |s.workers|
    requires Current(s.workers[w], s.rows, s.now) && Shaped(TableOf(s))
    ensures w < |Do(form, s, step).workers|
    ensures Current(Do(form, s, step).workers[w], Do(form, s, step).rows, Do(form, s, step).now)
  {
    var pc := s.workers[w];
    if step.ReadStatus? || step.ReadResult? {
      assert step.ok ==> Shape(s.rows[pc.raw.payload.invocation], s.now);
    } else if step.Execute? {
      assert step.outcome.Produced? ==> step.outcome.result.WellFormed();
    } else {
      var next := Do(form, s, step).workers[w];
      assert !next.StatusRead? && !next.ResultRead? && !next.Finished?;
    }
  }

  lemma CopiesStep(form: Form, s: State, step: Step)
    requires Inv(s) && Enabled(s, step)
    ensures Copies(Do(form, s, step))
  {
    var t := Do(form, s, step);
    RowsKeptStep(form, s, step);
    OthersStay(form, s, step);
    forall w | 0 <= w < |t.workers| ensures Current(t.workers[w], t.rows, t.now) {
      if step.Actor() == Some(w) {
        OwnCopy(form, s, step, w);
      } else {
        OtherCopy(s, step, t.workers[w], w, t.rows, t.now);
      }
    }
  }

  // What a step touches belongs to somebody else.
  lemma OthersTouched(s: State, step: Step, w: nat)
    requires Places(s) && Tickets(s) && Enabled(s, step) && step.Actor() != Some(w) && Busy(s, w)
    ensures s.workers[w].raw.payload.Request? && s.workers[w].raw.payload.invocation !in Touched(s, step)
  {
    assert Addressed(s, s.workers[w].raw);
    if step.WriteStatus? || step.WriteResult? {
      Exclusive(s, step.w);
    }
  }

  lemma OtherCopy(s: State, step: Step, pc: Pc, w: nat, rows: map<Id, Invocation>, now: Time)
    requires Places(s) && Tickets(s) && Enabled(s, step) && step.Actor() != Some(w)
    requires w < |s.workers| && pc == s.workers[w] && Current(pc, s.rows, s.now) && s.now <= now
    requires forall inv :: inv in rows && inv !in Touched(s, step) ==> inv in s.rows && rows[inv] == s.rows[inv]
    ensures Current(pc, rows, now)
  {
    if pc != Idle {
      OthersTouched(s, step, w);
    }
  }

  // ---------- all together ----------

  lemma QueueStep(form: Form, s: State, step: Step)
    requires Inv(s) && Enabled(s, step)
    ensures var t := Do(form, s, step); Places(t) && Attempts(t) && Fifo(t) && Tickets(t)
  {
    var e := EffectOf(form, s, step);
    EffectHolds(form, s, step);
    LettersStep(s, e);
    WaitingPlacedStep(s, e);
    DeadPlacedStep(s, e);
    HeldPlacedStep(s, e);
    AttemptsStep(s, e);
    FifoStep(s, e);
    LedgerStep(s, e);
    AllAddressedStep(s, e);
    SameParts(Apply(s, e), Do(form, s, step));
  }

  lemma SamePlaces(s: State, t: State)
    requires Places(s) && SameQueue(s, t)
    ensures Places(t)
  {
    SameLists(s, t);
    SameHolders(s, t);
  }

  lemma SameLists(s: State, t: State)
    requires WaitingPlaced(s) && DeadPlaced(s) && SameQueue(s, t)
    ensures WaitingPlaced(t) && DeadPlaced(t)
  {
  }

  lemma SameHolders(s: State, t: State)
    requires HeldPlaced(s) && Letters(s) && SameQueue(s, t)
    ensures HeldPlaced(t) && Letters(t)
  {
    forall w: nat | Busy(t, w) ensures t.workers[w].raw.id in t.place && t.place[t.workers[w].raw.id] == Held(w) {
      assert Busy(s, w);
    }
  }

  lemma SameAttempts(s: State, t: State)
    requires Attempts(s) && Fifo(s) && SameQueue(s, t)
    ensures Attempts(t) && Fifo(t)
  {
  }

  lemma SameTickets(s: State, t: State)
    requires Tickets(s) && SameQueue(s, t)
    ensures Tickets(t)
  {
    assert forall m :: Addressed(s, m) ==> Addressed(t, m);
  }

  lemma SameParts(s: State, t: State)
    requires Places(s) && Attempts(s) && Fifo(s) && Tickets(s) && SameQueue(s, t)
    ensures Places(t) && Attempts(t) && Fifo(t) && Tickets(t)
  {
    SamePlaces(s, t);
    SameAttempts(s, t);
    SameTickets(s, t);
  }

  // An open row stays open, but for the one whose result is being written.
  lemma OpenKept(form: Form, s: State, step: Step, inv: Id)
    requires Enabled(s, step) && Open(s, inv)
    requires step.WriteResult? ==> inv != s.workers[step.w].raw.payload.invocation
    ensures Open(Do(form, s, step), inv)
  {
  }

  lemma OwedWaiting(s: State, e: Effect)
    requires OwedAll(s) && Possible(s, e)
    requires e.Post? ==> Open(s, e.inv)
    ensures forall i :: 0 <= i < |Apply(s, e).waiting| ==> Owed(s, Apply(s, e).waiting[i])
  {
    match e
    case Post(_, m) => assert Owed(s, m);
    case Requeue(w) => assert Owed(s, s.workers[w].raw);
    case _ =>
  }

  lemma OwedDead(s: State, e: Effect)
    requires Letters(s) && OwedAll(s) && Possible(s, e)
    ensures forall i :: 0 <= i < |Apply(s, e).dead| ==> Owed(s, Apply(s, e).dead[i])
  {
    if e.Bury? {
      assert Owed(s, s.workers[e.w].raw);
    }
  }

  lemma OwedHeld(s: State, e: Effect, w: nat)
    requires OwedAll(s) && Possible(s, e) && w < |Apply(s, e).workers|
    requires Apply(s, e).workers[w] != Idle && !Apply(s, e).workers[w].Acking?
    requires e.Move? && !e.pc.Acking? ==> !s.workers[e.w].Acking?
    ensures Owed(s, Apply(s, e).workers[w].raw)
  {
    if e.Take? && e.w == w {
      assert Owed(s, s.waiting[|s.waiting| - 1]);
    } else if e.Move? && e.w == w {
      assert Owed(s, s.workers[w].raw);
    } else {
      assert Apply(s, e).workers[w] == s.workers[w];
    }
  }

  // The writer is the worker whose result the step stores, if it stores one.
  lemma StillOwed(s: State, e: Effect, t: State, writer: Option<nat>)
    requires Places(s) && Tickets(s) && OwedAll(s) && Possible(s, e) && SameQueue(t, Apply(s, e))
    requires writer.Some? ==> Busy(s, writer.value) && e == Move(writer.value, Acking(s.workers[writer.value].raw))
    requires forall inv :: Open(s, inv) && (writer.None? || inv != s.workers[writer.value].raw.payload.invocation) ==>
      Open(t, inv)
    requires e.Post? ==> Open(s, e.inv)
    requires e.Move? && !e.pc.Acking? ==> !s.workers[e.w].Acking?
    ensures OwedAll(t)
  {
    OwedWaiting(s, e);
    OwedDead(s, e);
    if writer.Some? {
      Exclusive(s, writer.value);
    }
    forall w | 0 <= w < |t.workers| && t.workers[w] != Idle && !t.workers[w].Acking? ensures Owed(t, t.workers[w].raw) {
      OwedHeld(s, e, w);
      if writer.Some? {
        assert t.workers[w] == s.workers[w];
      }
    }
  }

  // What EffectOf says of a step that concerns the rows.
  lemma EffectFacts(form: Form, s: State, step: Step)
    requires Enabled(s, step)
    ensures var e := EffectOf(form, s, step);
      && (e.Post? ==> e.inv in s.calling)
      && (e.Move? && !e.pc.Acking? ==> !s.workers[e.w].Acking?)
      && (step.WriteResult? ==> Busy(s, step.w) && e == Move(step.w, Acking(s.workers[step.w].raw)))
  {
  }

  lemma OwedStep(form: Form, s: State, step: Step)
    requires Places(s) && Tickets(s) && Unfinished(s) && Enabled(s, step)
    ensures OwedAll(Do(form, s, step))
  {
    var e := EffectOf(form, s, step);
    var t := Do(form, s, step);
    EffectHolds(form, s, step);
    EffectFacts(form, s, step);
    forall inv | Open(s, inv) && (step.WriteResult? ==> inv != s.workers[step.w].raw.payload.invocation)
      ensures Open(t, inv)
    {
      OpenKept(form, s, step, inv);
    }
    StillOwed(s, e, t, if step.WriteResult? then Some(step.w) else None);
  }

  lemma CallersStep(form: Form, s: State, step: Step)
    requires Enabled(s, step)
    ensures var t := Do(form, s, step);
      forall inv :: inv in t.calling || inv in t.dropped ==>
        inv in s.calling || inv in s.dropped || (step.CreateRow? && step.inv == inv)
  {
  }

  lemma PendingStep(form: Form, s: State, step: Step)
    requires Places(s) && Tickets(s) && Unfinished(s) && Enabled(s, step)
    ensures Pendings(Do(form, s, step))
  {
    var t := Do(form, s, step);
    RowsKeptStep(form, s, step);
    CallersStep(form, s, step);
    if step.WriteStatus? || step.WriteResult? {
      Exclusive(s, step.w);
    }
    forall inv | inv in t.rows && (inv in t.calling || inv in t.dropped) ensures t.rows[inv].status == Pending {
      if inv !in Touched(s, step) {
        assert s.rows[inv] == t.rows[inv];
      }
    }
  }

  /** Every step, taken by whichever process, keeps the invariant. */
  lemma InvStep(form: Form, s: State, step: Step)
    requires Inv(s) && Enabled(s, step)
    ensures Inv(Do(form, s, step))
  {
    QueueStep(form, s, step);
    OwedStep(form, s, step);
    PendingStep(form, s, step);
    CopiesStep(form, s, step);
    TableStep(form, s, step);
    var event := EventOf(s, step);
    if event.Some? {
      ShapedAfter(TableOf(s), event.value);
    }
  }

  lemma InvInit(workers: nat, now: Time)
    ensures Inv(Init(workers, now))
  {
    var s := Init(workers, now);
    assert Places(s) && Attempts(s);
    assert Fifo(s) && Tickets(s);
    assert Unfinished(s) && Copies(s);
  }

  /** Hence it holds at the end of every legal run. */
  lemma {:induction false} InvRun(form: Form, s: State, steps: seq<Step>)
    requires Inv(s) && Legal(form, s, steps)
    ensures Inv(Exec(form, s, steps))
    decreases |steps|
  {
    if steps != [] {
      var n := |steps| - 1;
      InvRun(form, s, steps[..n]);
      InvStep(form, Exec(form, s, steps[..n]), steps[n]);
    }
  }
}
