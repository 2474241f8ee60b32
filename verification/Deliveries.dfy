/** How often, in which order and how long messages are delivered. */
module Deliveries {
  import opened Types
  import opened Protocol
  import opened ProtocolInvariant
  import opened ProtocolTheorems

  // ---------- bounded retry ----------

  // A message on its way to the dead letters has used up its attempts.
  ghost predicate Exhausted(s: State) {
    && (forall w :: 0 <= w < |s.workers| && s.workers[w].DeadLettering? ==>
        s.workers[w].letter.attempts == MAX_ATTEMPTS)
    && (forall i :: 0 <= i < |s.dead| ==> s.dead[i].attempts == MAX_ATTEMPTS)
  }

  /** What InvokeAsync pushes always decodes: the branch for invalid payloads is never taken. */
  lemma NeverRejected(form: Form, workers: nat, start: Time, steps: seq<Step>, w: nat, reason: string, stamp: string)
    requires Happens(form, workers, start, steps)
    ensures !Enabled(Now(form, workers, start, steps), RejectPayload(w, reason, stamp))
  {
    InvNow(form, workers, start, steps);
    var s := Now(form, workers, start, steps);
    assert w < |s.workers| && s.workers[w] != Idle ==> Addressed(s, s.workers[w].raw);
  }

  lemma ExhaustedMove(form: Form, s: State, step: Step)
    requires Enabled(s, step) && Moving(step) && !step.RejectPayload?
    requires s.workers[step.w] != Idle && s.workers[step.w].raw.attempts < MAX_ATTEMPTS
    requires s.workers[step.w].DeadLettering? ==> s.workers[step.w].letter.attempts == MAX_ATTEMPTS
    ensures step.w < |Do(form, s, step).workers|
    ensures var pc := Do(form, s, step).workers[step.w]; pc.DeadLettering? ==> pc.letter.attempts == MAX_ATTEMPTS
  {
  }

  lemma ExhaustedEffect(s: State, e: Effect)
    requires Possible(s, e) && Exhausted(s)
    requires e.Move? && e.pc.DeadLettering? ==> e.pc.letter.attempts == MAX_ATTEMPTS
    ensures Exhausted(Apply(s, e))
  {
  }

  lemma ExhaustedStep(form: Form, s: State, step: Step)
    requires Letters(s) && Attempts(s) && Exhausted(s) && Enabled(s, step) && !step.RejectPayload?
    ensures Exhausted(Do(form, s, step))
  {
    EffectHolds(form, s, step);
    if Moving(step) {
      assert s.workers[step.w].raw.attempts < MAX_ATTEMPTS;
      ExhaustedMove(form, s, step);
    }
    ExhaustedEffect(s, EffectOf(form, s, step));
  }

  lemma NoRejection(s: State, step: Step)
    requires AllAddressed(s) && Enabled(s, step)
    ensures !step.RejectPayload?
  {
  }

  lemma {:induction false} ExhaustedRun(form: Form, s: State, steps: seq<Step>)
    requires Inv(s) && Exhausted(s) && Legal(form, s, steps)
    ensures Exhausted(Exec(form, s, steps))
    decreases |steps|
  {
    if steps != [] {
      var n := |steps| - 1;
      ExhaustedRun(form, s, steps[..n]);
      InvRun(form, s, steps[..n]);
      NoRejection(Exec(form, s, steps[..n]), steps[n]);
      ExhaustedStep(form, Exec(form, s, steps[..n]), steps[n]);
    }
  }

  /**
   At most three deliveries a message; a waiting entry has had at most two, a worker's copy says one to three, a dead
   letter three.
   */
  lemma BoundedRetry(form: Form, workers: nat, start: Time, steps: seq<Step>)
    requires Happens(form, workers, start, steps)
    ensures var s := Now(form, workers, start, steps);
      && (forall id :: Count(s.deliveries, id) <= 3)
      && (forall m :: m in s.waiting ==> m.attempts == Count(s.deliveries, m.id) <= 2)
      && (forall w: nat :: Busy(s, w) ==>
            1 <= Received(s.workers[w].raw).attempts == Count(s.deliveries, s.workers[w].raw.id) <= 3)
      && (forall m :: m in s.dead ==> m.attempts == Count(s.deliveries, m.id) == 3)
  {
    InvNow(form, workers, start, steps);
    InvInit(workers, start);
    ExhaustedRun(form, Init(workers, start), steps);
    RetriesSoFar(Now(form, workers, start, steps));
  }

  lemma RetriesSoFar(s: State)
    requires Attempts(s) && Exhausted(s)
    ensures forall id :: Count(s.deliveries, id) <= 3
    ensures forall m :: m in s.waiting ==> m.attempts == Count(s.deliveries, m.id) <= 2
    ensures forall w: nat :: Busy(s, w) ==>
      1 <= Received(s.workers[w].raw).attempts == Count(s.deliveries, s.workers[w].raw.id) <= 3
    ensures forall m :: m in s.dead ==> m.attempts == Count(s.deliveries, m.id) == 3
  {
  }

  // ---------- a result is never retried ----------

  // The message has been answered, or given up, and is not coming back.
  ghost predicate Answered(s: State, id: Id) {
    && id in s.place
    && match s.place[id]
       case Acked => true
       case Abandoned => true
       case Held(w) => w < |s.workers| && Answering(s.workers[w])
       case _ => false
  }

  predicate Answering(pc: Pc) {
    pc.Finished? || pc.ResultRead? || pc.Acking?
  }

  lemma AnsweredPop(s: State, e: Effect, id: Id)
    requires Places(s) && Possible(s, e) && Answered(s, id) && (e.Take? || e.Lose?)
    ensures var t := Apply(s, e); Answered(t, id) && Count(t.deliveries, id) == Count(s.deliveries, id)
  {
    var raw := s.waiting[|s.waiting| - 1];
    assert s.place[raw.id] == Waiting && raw.id != id;
    CountSnoc(s.deliveries, raw);
  }

  lemma AnsweredEffect(s: State, e: Effect, id: Id)
    requires Places(s) && Possible(s, e) && Answered(s, id)
    requires e.Move? && Answering(s.workers[e.w]) ==> Answering(e.pc)
    ensures var t := Apply(s, e); Answered(t, id) && Count(t.deliveries, id) == Count(s.deliveries, id)
  {
    if e.Take? || e.Lose? {
      AnsweredPop(s, e, id);
    } else if s.place[id].Held? {
      assert s.workers[s.place[id].worker].raw.id == id;
    }
  }

  // No worker goes back from a result to a retry.
  lemma AnsweringMoves(form: Form, s: State, step: Step)
    requires Enabled(s, step)
    ensures var e := EffectOf(form, s, step); e.Move? && Answering(s.workers[e.w]) ==> Answering(e.pc)
  {
  }

  lemma AnsweredStep(form: Form, s: State, step: Step, id: Id)
    requires Places(s) && Enabled(s, step) && Answered(s, id)
    ensures var t := Do(form, s, step); Answered(t, id) && Count(t.deliveries, id) == Count(s.deliveries, id)
  {
    EffectHolds(form, s, step);
    AnsweringMoves(form, s, step);
    var e := EffectOf(form, s, step);
    AnsweredEffect(s, e, id);
    AnsweredSame(Apply(s, e), Do(form, s, step), id);
  }

  lemma AnsweredSame(s: State, t: State, id: Id)
    requires SameQueue(t, s) && Answered(s, id)
    ensures Answered(t, id) && Count(t.deliveries, id) == Count(s.deliveries, id)
  {
  }

  lemma {:induction false} AnsweredRun(form: Form, s: State, steps: seq<Step>, id: Id)
    requires Inv(s) && Legal(form, s, steps) && Answered(s, id)
    ensures var t := Exec(form, s, steps); Answered(t, id) && Count(t.deliveries, id) == Count(s.deliveries, id)
    decreases |steps|
  {
    if steps != [] {
      var n := |steps| - 1;
      AnsweredRun(form, s, steps[..n], id);
      InvRun(form, s, steps[..n]);
      AnsweredStep(form, Exec(form, s, steps[..n]), steps[n], id);
    }
  }

  lemma ResultSettles(form: Form, s: State, w: nat, result: ExecutionResult, stamp: string, more: seq<Step>)
    requires Inv(s) && Enabled(s, Execute(w, Produced(result), stamp))
    requires Legal(form, Do(form, s, Execute(w, Produced(result), stamp)), more)
    ensures var t := Exec(form, Do(form, s, Execute(w, Produced(result), stamp)), more);
      var id := s.workers[w].raw.id;
      && Count(t.deliveries, id) == Count(s.deliveries, id)
      && (forall m :: m in t.waiting || m in t.dead ==> m.id != id)
  {
    var mid := Do(form, s, Execute(w, Produced(result), stamp));
    var id := s.workers[w].raw.id;
    InvStep(form, s, Execute(w, Produced(result), stamp));
    ResultAnswers(form, s, w, result, stamp);
    AnsweredRun(form, mid, more, id);
    InvRun(form, mid, more);
    AnsweredIsElsewhere(Exec(form, mid, more), id);
  }

  lemma ResultAnswers(form: Form, s: State, w: nat, result: ExecutionResult, stamp: string)
    requires Places(s) && Enabled(s, Execute(w, Produced(result), stamp))
    ensures var t := Do(form, s, Execute(w, Produced(result), stamp));
      Answered(t, s.workers[w].raw.id) && t.deliveries == s.deliveries
  {
    assert Busy(s, w);
  }

  lemma AnsweredIsElsewhere(s: State, id: Id)
    requires Places(s) && Answered(s, id)
    ensures forall m :: m in s.waiting || m in s.dead ==> m.id != id
  {
  }

  /** A run that ended in a result, whatever its status, is never retried: its message is not delivered again. */
  lemma ResultNeverRetried(form: Form, workers: nat, start: Time, steps: seq<Step>, w: nat, result: ExecutionResult,
                           stamp: string, more: seq<Step>)
    requires Happens(form, workers, start, steps + [Execute(w, Produced(result), stamp)] + more)
    requires Happens(form, workers, start, steps)
    requires Busy(Now(form, workers, start, steps), w)
    ensures var s := Now(form, workers, start, steps);
      var t := Now(form, workers, start, steps + [Execute(w, Produced(result), stamp)] + more);
      var id := s.workers[w].raw.id;
      && Count(t.deliveries, id) == Count(s.deliveries, id)
      && (forall m :: m in t.waiting || m in t.dead ==> m.id != id)
  {
    var step := Execute(w, Produced(result), stamp);
    ExecSplit(form, Init(workers, start), steps + [step], more);
    ExecSplit(form, Init(workers, start), steps, [step]);
    InvNow(form, workers, start, steps);
    ExecStep(form, Now(form, workers, start, steps), step);
    ResultSettles(form, Now(form, workers, start, steps), w, result, stamp, more);
  }

  // ---------- order ----------

  /** Pops follow pushes: the log of deliveries is the oldest part of the log of pushes, the rest is still waiting. */
  lemma PopsFollowPushes(form: Form, workers: nat, start: Time, steps: seq<Step>)
    requires Happens(form, workers, start, steps)
    ensures var s := Now(form, workers, start, steps);
      && s.pushed == s.deliveries + Reversed(s.waiting)
      && s.deliveries <= s.pushed && |s.pushed| == |s.deliveries| + |s.waiting|
  {
    InvNow(form, workers, start, steps);
    ReversedSame(Now(form, workers, start, steps).waiting);
  }

  // The ids of first-time entries, in order.
  function Firsts(log: seq<Message>): seq<Id> {
    if log == [] then []
    else Firsts(log[..|log| - 1]) + if log[|log| - 1].attempts == 0 then [log[|log| - 1].id] else []
  }

  // The ids handed to Enqueue, in order.
  function Sent(steps: seq<Step>): seq<Id> {
    if steps == [] then []
    else Sent(steps[..|steps| - 1]) + if steps[|steps| - 1].Send? then [steps[|steps| - 1].message.id] else []
  }

  lemma {:induction false} FirstsPrefix(a: seq<Message>, b: seq<Message>)
    ensures Firsts(a) <= Firsts(a + b)
    decreases |b|
  {
    if b == [] {
      assert a + b == a;
    } else {
      FirstsPrefix(a, b[..|b| - 1]);
      assert (a + b)[..|a + b| - 1] == a + b[..|b| - 1];
    }
  }

  lemma {:induction false} PushedFirsts(form: Form, s: State, steps: seq<Step>)
    requires s.pushed == [] && Legal(form, s, steps)
    ensures Firsts(Exec(form, s, steps).pushed) == Sent(steps)
    decreases |steps|
  {
    if steps != [] {
      var n := |steps| - 1;
      PushedFirsts(form, s, steps[..n]);
      PushedStep(form, Exec(form, s, steps[..n]), steps[n]);
    }
  }

  lemma PushedStep(form: Form, s: State, step: Step)
    requires Enabled(s, step)
    ensures Firsts(Do(form, s, step).pushed) == Firsts(s.pushed) + if step.Send? then [step.message.id] else []
  {
    var t := Do(form, s, step);
    if t.pushed != s.pushed {
      assert t.pushed[..|s.pushed|] == s.pushed;
    } else {
      assert Firsts(s.pushed) + [] == Firsts(s.pushed);
    }
  }

  /** First deliveries happen in the order of the Enqueue calls, retries and other workers notwithstanding. */
  lemma FirstDeliveriesInOrder(form: Form, workers: nat, start: Time, steps: seq<Step>)
    requires Happens(form, workers, start, steps)
    ensures Firsts(Now(form, workers, start, steps).deliveries) <= Sent(steps)
  {
    var s := Now(form, workers, start, steps);
    InvNow(form, workers, start, steps);
    PushedFirsts(form, Init(workers, start), steps);
    FirstsPrefix(s.deliveries, Reversed(s.waiting));
  }

  lemma LogsGrowStep(form: Form, s: State, step: Step)
    requires Enabled(s, step)
    ensures s.pushed <= Do(form, s, step).pushed && s.deliveries <= Do(form, s, step).deliveries
  {
  }

  lemma {:induction false} LogsGrow(form: Form, s: State, steps: seq<Step>)
    requires Legal(form, s, steps)
    ensures s.pushed <= Exec(form, s, steps).pushed && s.deliveries <= Exec(form, s, steps).deliveries
    decreases |steps|
  {
    if steps != [] {
      var n := |steps| - 1;
      LogsGrow(form, s, steps[..n]);
      LogsGrowStep(form, Exec(form, s, steps[..n]), steps[n]);
    }
  }

  lemma {:induction false} CountOver(a: seq<Message>, b: seq<Message>, id: Id)
    ensures Count(a + b, id) == Count(a, id) + Count(b, id)
    decreases |b|
  {
    if b == [] {
      assert a + b == a;
    } else {
      CountOver(a, b[..|b| - 1], id);
      assert (a + b)[..|a + b| - 1] == a + b[..|b| - 1];
    }
  }

  lemma {:induction false} CountAbsent(log: seq<Message>, id: Id)
    requires forall m :: m in log ==> m.id != id
    ensures Count(log, id) == 0
  {
    if log != [] {
      CountAbsent(log[..|log| - 1], id);
    }
  }

  // A log that is part of a longer one cannot mention the id again before the line is through.
  lemma LineFirst(log: seq<Message>, line: seq<Message>, last: Message, longer: seq<Message>, all: seq<Message>)
    requires log + line + [last] <= all && log <= longer <= all
    requires forall m :: m in line ==> m.id != last.id
    requires Count(longer, last.id) > Count(log, last.id)
    ensures log + line + [last] <= longer
  {
    if |longer| <= |log| + |line| {
      var extra := longer[|log|..];
      assert longer == log + extra;
      assert extra <= line;
      CountAbsent(extra, last.id);
      CountOver(log, extra, last.id);
      assert false;
    }
  }

  /** A nacked message is delivered again only after everything that was waiting at its push, oldest first. */
  lemma NackedGoesLast(form: Form, workers: nat, start: Time, steps: seq<Step>, w: nat, more: seq<Step>)
    requires Happens(form, workers, start, steps + [NackPush(w, true)] + more)
    requires Happens(form, workers, start, steps)
    requires Busy(Now(form, workers, start, steps), w)
    ensures var s := Now(form, workers, start, steps);
      var t := Now(form, workers, start, steps + [NackPush(w, true)] + more);
      var raw := s.workers[w].raw;
      Count(t.deliveries, raw.id) > Count(s.deliveries, raw.id) ==>
        s.deliveries + Reversed(s.waiting) + [Received(raw)] <= t.deliveries
  {
    var s0 := Init(workers, start);
    ExecSplit(form, s0, steps + [NackPush(w, true)], more);
    ExecSplit(form, s0, steps, [NackPush(w, true)]);
    var s := Now(form, workers, start, steps);
    var mid := Exec(form, s, [NackPush(w, true)]);
    ExecStep(form, s, NackPush(w, true));
    InvNow(form, workers, start, steps);
    LogsGrow(form, mid, more);
    var t := Exec(form, mid, more);
    var raw := s.workers[w].raw;
    assert mid.pushed == s.deliveries + Reversed(s.waiting) + [Received(raw)] && mid.deliveries == s.deliveries;
    InvNow(form, workers, start, steps + [NackPush(w, true)] + more);
    assert t.deliveries <= t.pushed;
    ReversedSame(s.waiting);
    if Count(t.deliveries, raw.id) > Count(s.deliveries, raw.id) {
      LineFirst(s.deliveries, Reversed(s.waiting), Received(raw), t.deliveries, t.pushed);
    }
  }

  lemma ExecStep(form: Form, s: State, step: Step)
    requires Legal(form, s, [step])
    ensures Enabled(s, step) && Exec(form, s, [step]) == Do(form, s, step)
  {
    assert [step][..0] == [];
  }
}
