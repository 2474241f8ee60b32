/** The queue drains: work per message is bounded, nothing deadlocks, and every message ends acked or dead-lettered. */
module Draining {
  import opened Types
  import opened Protocol
  import opened ProtocolInvariant
  import opened ProtocolTheorems
  import opened Deliveries

  // The steps a message can still cause: a whole round of eight for each attempt left.
  function Ahead(m: Message): nat {
    if m.attempts < MAX_ATTEMPTS then 8 * (MAX_ATTEMPTS - m.attempts) else 0
  }

  function Rounds(raw: Message): nat {
    if raw.attempts < 2 then 8 * (2 - raw.attempts) else 0
  }

  function Load(pc: Pc): nat {
    match pc
    case Idle => 0
    case Dequeued(raw) => Rounds(raw) + 7
    case StatusRead(raw, _, _) => Rounds(raw) + 6
    case Executing(raw) => Rounds(raw) + 5
    case Finished(raw, _) => Rounds(raw) + 4
    case ResultRead(raw, _, _, _) => Rounds(raw) + 3
    case Acking(raw) => Rounds(raw) + 2
    case Nacking(raw, removed) => Rounds(raw) + if removed then 1 else 2
    case DeadLettering(raw, _, removed) => Rounds(raw) + if removed then 1 else 2
  }

  function AllAhead(list: seq<Message>): nat {
    if list == [] then 0 else Ahead(list[0]) + AllAhead(list[1..])
  }

  function AllLoads(workers: seq<Pc>): nat {
    if workers == [] then 0 else Load(workers[0]) + AllLoads(workers[1..])
  }

  function Measure(s: State): nat {
    AllAhead(s.waiting) + AllLoads(s.workers)
  }

  lemma {:induction false} LoadUpdate(workers: seq<Pc>, w: nat, pc: Pc)
    requires w < |workers|
    ensures AllLoads(workers[w := pc]) == AllLoads(workers) - Load(workers[w]) + Load(pc)
  {
    if w == 0 {
      assert workers[w := pc][1..] == workers[1..];
    } else {
      LoadUpdate(workers[1..], w - 1, pc);
      assert workers[w := pc][1..] == workers[1..][w - 1 := pc];
    }
  }

  lemma {:induction false} AheadLast(list: seq<Message>)
    requires list != []
    ensures AllAhead(list) == AllAhead(list[..|list| - 1]) + Ahead(list[|list| - 1])
  {
    if |list| > 1 {
      AheadLast(list[1..]);
      assert list[1..][..|list| - 2] == list[..|list| - 1][1..];
    }
  }

  lemma AheadPush(m: Message, list: seq<Message>)
    ensures AllAhead([m] + list) == Ahead(m) + AllAhead(list)
  {
    assert ([m] + list)[1..] == list;
  }

  // A step of some worker, or a delivery lost on its way to one.
  predicate Working(step: Step) {
    step.Actor().Some? || step.LoseDelivery?
  }

  // Every step moves a worker closer to being idle.
  lemma WorkerMoves(form: Form, s: State, step: Step)
    requires Enabled(s, step) && step.Actor().Some? && !step.Deliver? && !step.NackPush?
    ensures var t := Do(form, s, step); var w := step.Actor().value;
      && t.waiting == s.waiting && w < |s.workers| && t.workers == s.workers[w := t.workers[w]]
      && Load(t.workers[w]) < Load(s.workers[w])
  {
    if Moving(step) {
      MoveEffect(form, s, step);
      MoveClock(form, s, step);
      MoveLoad(form, s, step);
    } else {
      WorkerStays(form, s, step);
      LastLoad(form, s, step);
    }
  }

  lemma MoveLoad(form: Form, s: State, step: Step)
    requires Enabled(s, step) && Moving(step) && step.w < |Do(form, s, step).workers|
    ensures Load(Do(form, s, step).workers[step.w]) < Load(s.workers[step.w])
  {
  }

  lemma LastLoad(form: Form, s: State, step: Step)
    requires Enabled(s, step) && (step.Ack? || step.LetterPush? || step.Crash?)
    ensures var t := Do(form, s, step);
      && t.waiting == s.waiting && step.w < |s.workers| && step.w < |t.workers|
      && Load(t.workers[step.w]) < Load(s.workers[step.w])
  {
  }

  lemma DeliverMeasure(form: Form, s: State, w: nat)
    requires Attempts(s) && Enabled(s, Deliver(w))
    ensures Measure(Do(form, s, Deliver(w))) < Measure(s)
  {
    AheadLast(s.waiting);
    LoadUpdate(s.workers, w, Dequeued(s.waiting[|s.waiting| - 1]));
  }

  lemma NackMeasure(form: Form, s: State, w: nat, applied: bool)
    requires Enabled(s, NackPush(w, applied))
    ensures Measure(Do(form, s, NackPush(w, applied))) < Measure(s)
  {
    AheadPush(Received(s.workers[w].raw), s.waiting);
    LoadUpdate(s.workers, w, Idle);
  }

  lemma ControllerMeasure(form: Form, s: State, step: Step)
    requires Attempts(s) && Enabled(s, step) && step.Actor().None?
    ensures step.LoseDelivery? ==> Measure(Do(form, s, step)) < Measure(s)
    ensures !step.LoseDelivery? ==> Measure(Do(form, s, step)) == Measure(s) + if step.Send? then 24 else 0
  {
    match step
    case LoseDelivery => AheadLast(s.waiting);
    case Send(_, m) => AheadPush(m, s.waiting);
    case _ =>
  }

  lemma MeasureStep(form: Form, s: State, step: Step)
    requires Attempts(s) && Enabled(s, step)
    ensures Working(step) ==> Measure(Do(form, s, step)) < Measure(s)
    ensures !Working(step) ==> Measure(Do(form, s, step)) == Measure(s) + if step.Send? then 24 else 0
  {
    if step.Actor().None? {
      ControllerMeasure(form, s, step);
    } else if step.Deliver? {
      DeliverMeasure(form, s, step.w);
    } else if step.NackPush? {
      NackMeasure(form, s, step.w, step.applied);
    } else {
      WorkerMoves(form, s, step);
      LoadUpdate(s.workers, step.Actor().value, Do(form, s, step).workers[step.Actor().value]);
    }
  }

  function Work(steps: seq<Step>): nat {
    if steps == [] then 0
    else Work(steps[..|steps| - 1]) + if Working(steps[|steps| - 1]) then 1 else 0
  }

  lemma {:induction false} WorkRun(form: Form, s: State, steps: seq<Step>)
    requires Inv(s) && Legal(form, s, steps)
    ensures Work(steps) + Measure(Exec(form, s, steps)) <= Measure(s) + 24 * |Sent(steps)|
    decreases |steps|
  {
    if steps != [] {
      var n := |steps| - 1;
      WorkRun(form, s, steps[..n]);
      InvRun(form, s, steps[..n]);
      MeasureStep(form, Exec(form, s, steps[..n]), steps[n]);
    }
  }

  /**
   However the processes interleave, fail and crash, the workers take at most twenty-four steps for each
   message ever enqueued; between two enqueues the remaining work only shrinks.
   */
  lemma WorkIsBounded(form: Form, workers: nat, start: Time, steps: seq<Step>, more: seq<Step>)
    requires Happens(form, workers, start, steps + more)
    requires Happens(form, workers, start, steps)
    ensures Work(steps) <= 24 * |Sent(steps)|
    ensures Work(more) + Measure(Now(form, workers, start, steps + more))
            <= Measure(Now(form, workers, start, steps)) + 24 * |Sent(more)|
  {
    InvInit(workers, start);
    NoLoad(workers);
    WorkRun(form, Init(workers, start), steps);
    InvNow(form, workers, start, steps);
    ExecSplit(form, Init(workers, start), steps, more);
    WorkRun(form, Now(form, workers, start, steps), more);
  }

  lemma {:induction false} NoLoad(workers: nat)
    ensures AllLoads(seq(workers, _ => Idle)) == 0
  {
    if workers > 0 {
      NoLoad(workers - 1);
      assert seq(workers, _ => Idle)[1..] == seq(workers - 1, _ => Idle);
    }
  }

  // ---------- no deadlock ----------

  predicate Quiet(s: State) {
    s.waiting == [] && forall w :: 0 <= w < |s.workers| ==> s.workers[w] == Idle
  }

  // What executions come to, by the state and the worker: anything a runtime may hand back.
  ghost predicate Proper(outcomes: (State, nat) -> Outcome) {
    forall s, w :: outcomes(s, w).Produced? ==> outcomes(s, w).result.WellFormed()
  }

  // The invocation of the message a worker holds has a row.
  predicate HasRow(s: State, w: nat) {
    Busy(s, w) && s.workers[w].raw.payload.Request? && s.workers[w].raw.payload.invocation in s.rows
  }

  // A step in which no call fails, no reply is lost, no process dies, and executions come to what they are meant to.
  predicate Smooth(s: State, step: Step, outcomes: (State, nat) -> Outcome) {
    match step
    case LoseDelivery => false
    case Crash(_) => false
    case GiveUp(_) => false
    case ReadStatus(w, ok) => ok <==> HasRow(s, w)
    case WriteStatus(_, applied, _) => applied
    case Execute(w, outcome, _) => outcome == outcomes(s, w)
    case ReadResult(w, ok) => ok <==> HasRow(s, w)
    case WriteResult(_, applied, _) => applied
    case Ack(_, applied) => applied
    case NackRemove(_, applied) => applied
    case NackPush(_, applied) => applied
    case LetterRemove(_, applied) => applied
    case LetterPush(_, applied) => applied
    case _ => true
  }

  // What a busy worker does next when every call succeeds.
  function Onward(s: State, w: nat, outcomes: (State, nat) -> Outcome): Step
    requires Busy(s, w)
  {
    match s.workers[w]
    case Dequeued(raw) => if raw.payload.Request? then ReadStatus(w, HasRow(s, w)) else RejectPayload(w, "", "")
    case StatusRead(_, _, _) => WriteStatus(w, true, s.now)
    case Executing(_) => Execute(w, outcomes(s, w), "")
    case Finished(_, _) => ReadResult(w, HasRow(s, w))
    case ResultRead(_, _, _, _) => WriteResult(w, true, s.now)
    case Acking(_) => Ack(w, true)
    case Nacking(_, removed) => if removed then NackPush(w, true) else NackRemove(w, true)
    case DeadLettering(_, _, removed) => if removed then LetterPush(w, true) else LetterRemove(w, true)
  }

  lemma OnwardEnabled(s: State, w: nat, outcomes: (State, nat) -> Outcome)
    requires AllAddressed(s) && Copies(s) && Busy(s, w) && Proper(outcomes)
    ensures var step := Onward(s, w, outcomes);
      Enabled(s, step) && Smooth(s, step, outcomes) && Working(step) && !step.Send?
  {
    assert Addressed(s, s.workers[w].raw);
    assert Current(s.workers[w], s.rows, s.now);
  }

  /**
   Nothing deadlocks: while a message waits or is held, some worker can take a step that succeeds, whatever executions
   come to.
   */
  lemma SomeoneCanMove(form: Form, workers: nat, start: Time, steps: seq<Step>, outcomes: (State, nat) -> Outcome)
    returns (step: Step)
    requires Happens(form, workers, start, steps) && workers > 0 && !Quiet(Now(form, workers, start, steps))
    requires Proper(outcomes)
    ensures Enabled(Now(form, workers, start, steps), step) && Smooth(Now(form, workers, start, steps), step, outcomes)
    ensures Working(step)
  {
    InvNow(form, workers, start, steps);
    WorkersStay(form, Init(workers, start), steps);
    step := Mover(Now(form, workers, start, steps), outcomes);
  }

  lemma Mover(s: State, outcomes: (State, nat) -> Outcome) returns (step: Step)
    requires Inv(s) && |s.workers| > 0 && !Quiet(s) && Proper(outcomes)
    ensures Enabled(s, step) && Smooth(s, step, outcomes) && Working(step) && !step.Send?
  {
    if w :| 0 <= w < |s.workers| && s.workers[w] != Idle {
      OnwardEnabled(s, w, outcomes);
      step := Onward(s, w, outcomes);
    } else {
      step := Deliver(0);
    }
  }

  lemma {:induction false} WorkersStay(form: Form, s: State, steps: seq<Step>)
    requires Legal(form, s, steps)
    ensures |Exec(form, s, steps).workers| == |s.workers|
    decreases |steps|
  {
    if steps != [] {
      WorkersStay(form, s, steps[..|steps| - 1]);
      OthersStay(form, Exec(form, s, steps[..|steps| - 1]), steps[|steps| - 1]);
    }
  }

  // ---------- where messages end ----------

  // A step in which no settle call fails, no reply is lost and no process dies.
  predicate Settling(step: Step) {
    match step
    case LoseDelivery => false
    case Crash(_) => false
    case Ack(_, applied) => applied
    case NackPush(_, applied) => applied
    case LetterPush(_, applied) => applied
    case _ => true
  }

  predicate AllSettling(steps: seq<Step>) {
    forall i :: 0 <= i < |steps| ==> Settling(steps[i])
  }

  ghost predicate NoneAbandoned(s: State) {
    forall id :: id in s.place ==> s.place[id] != Abandoned
  }

  lemma NoneAbandonedStep(form: Form, s: State, step: Step)
    requires Enabled(s, step) && Settling(step) && NoneAbandoned(s)
    ensures NoneAbandoned(Do(form, s, step))
  {
  }

  lemma {:induction false} NoneAbandonedRun(form: Form, s: State, steps: seq<Step>)
    requires Legal(form, s, steps) && AllSettling(steps) && NoneAbandoned(s)
    ensures NoneAbandoned(Exec(form, s, steps))
    decreases |steps|
  {
    if steps != [] {
      var n := |steps| - 1;
      NoneAbandonedRun(form, s, steps[..n]);
      NoneAbandonedStep(form, Exec(form, s, steps[..n]), steps[n]);
    }
  }

  /**
   Once the queue is quiet every message was acked, dead-lettered after three attempts, or abandoned, the last only
   after a crash or a failed call.
   */
  lemma EveryMessageEnds(form: Form, workers: nat, start: Time, steps: seq<Step>, id: Id)
    requires Happens(form, workers, start, steps) && Quiet(Now(form, workers, start, steps))
    requires id in Now(form, workers, start, steps).place
    ensures var s := Now(form, workers, start, steps);
      && (s.place[id] == Acked || s.place[id] == Abandoned || (s.place[id] == Dead && Count(s.deliveries, id) == 3))
      && (AllSettling(steps) ==> s.place[id] != Abandoned)
  {
    InvNow(form, workers, start, steps);
    BoundedRetry(form, workers, start, steps);
    var s := Now(form, workers, start, steps);
    assert Places(s);
    if AllSettling(steps) {
      NoneAbandonedRun(form, Init(workers, start), steps);
    }
  }

  // Every step succeeds where it is taken.
  ghost predicate AllSmooth(form: Form, s: State, steps: seq<Step>, outcomes: (State, nat) -> Outcome)
    decreases |steps|
  {
    steps != [] ==>
      Enabled(s, steps[0]) && Smooth(s, steps[0], outcomes)
        && AllSmooth(form, Do(form, s, steps[0]), steps[1..], outcomes)
  }

  /**
   Whatever executions come to, from any reachable state the workers alone can empty the queue without a failure, within
   the bound.
   */
  lemma QueueCanDrain(form: Form, workers: nat, start: Time, steps: seq<Step>, outcomes: (State, nat) -> Outcome)
    returns (more: seq<Step>)
    requires Happens(form, workers, start, steps) && workers > 0 && Proper(outcomes)
    ensures Happens(form, workers, start, steps + more) && Quiet(Now(form, workers, start, steps + more))
    ensures AllSmooth(form, Now(form, workers, start, steps), more, outcomes)
    ensures |more| <= Measure(Now(form, workers, start, steps))
  {
    InvNow(form, workers, start, steps);
    WorkersStay(form, Init(workers, start), steps);
    more := Drain(form, Now(form, workers, start, steps), outcomes);
    ExecAppend(form, Init(workers, start), steps, more);
  }

  lemma First(form: Form, s: State, step: Step, rest: seq<Step>)
    requires Enabled(s, step) && Legal(form, Do(form, s, step), rest)
    ensures Legal(form, s, [step] + rest) && Exec(form, s, [step] + rest) == Exec(form, Do(form, s, step), rest)
  {
    ExecOne(form, s, step);
    ExecAppend(form, s, [step], rest);
  }

  lemma OneMove(form: Form, s: State, outcomes: (State, nat) -> Outcome) returns (step: Step)
    requires Inv(s) && |s.workers| > 0 && !Quiet(s) && Proper(outcomes)
    ensures Enabled(s, step) && Smooth(s, step, outcomes) && Inv(Do(form, s, step))
    ensures |Do(form, s, step).workers| == |s.workers| && Measure(Do(form, s, step)) < Measure(s)
  {
    step := Mover(s, outcomes);
    InvStep(form, s, step);
    MeasureStep(form, s, step);
    OthersStay(form, s, step);
  }

  ghost predicate Drains(form: Form, s: State, more: seq<Step>, outcomes: (State, nat) -> Outcome) {
    Legal(form, s, more) && Quiet(Exec(form, s, more)) && AllSmooth(form, s, more, outcomes) && |more| <= Measure(s)
  }

  lemma DrainsFirst(form: Form, s: State, step: Step, rest: seq<Step>, outcomes: (State, nat) -> Outcome)
    requires Enabled(s, step) && Smooth(s, step, outcomes) && Measure(Do(form, s, step)) < Measure(s)
    requires Drains(form, Do(form, s, step), rest, outcomes)
    ensures Drains(form, s, [step] + rest, outcomes)
  {
    First(form, s, step, rest);
    assert ([step] + rest)[1..] == rest;
  }

  lemma {:induction false} Drain(form: Form, s: State, outcomes: (State, nat) -> Outcome) returns (more: seq<Step>)
    requires Inv(s) && |s.workers| > 0 && Proper(outcomes)
    ensures Drains(form, s, more, outcomes)
    decreases Measure(s)
  {
    if Quiet(s) {
      more := [];
    } else {
      var step := OneMove(form, s, outcomes);
      var next := Do(form, s, step);
      var rest := Drain(form, next, outcomes);
      DrainsFirst(form, s, step, rest, outcomes);
      more := [step] + rest;
    }
  }
}
