/** What ends in the stores is what happened: rows tell results, and dead letters errors. */
module Results {
  import opened Deliveries
  import opened Lifecycle
  import opened Protocol
  import opened ProtocolInvariant
  import opened ProtocolTheorems
  import opened Types

  // ---------- a result and its row ----------

  // The row of an invocation that got this result at this time.
  predicate Records(row: Invocation, result: ExecutionResult, at: Time) {
    && row.status == result.status && row.error == result.error && row.metrics == result.metrics
    && row.output == (if result.output.Some? && result.output.value.Json? then result.output else None)
    && row.completedAt == Some(at)
  }

  lemma WriteRecords(form: Form, s: State, w: nat, t: Time)
    requires Enabled(s, WriteResult(w, true, t))
    ensures var inv, next := s.workers[w].raw.payload.invocation, Do(form, s, WriteResult(w, true, t));
      && s.workers[w].ResultRead? && (inv in s.rows <==> inv in next.rows)
      && (inv in s.rows ==>
            Records(next.rows[inv], s.workers[w].result, t) && next.rows[inv].functionId == s.rows[inv].functionId)
  {
  }

  // A start time that is missing is that of the update, and one that is there stays, however old the worker's copy.
  lemma WriteStarts(form: Form, s: State, w: nat, t: Time)
    requires Inv(s) && Enabled(s, WriteResult(w, true, t))
    ensures var inv, next := s.workers[w].raw.payload.invocation, Do(form, s, WriteResult(w, true, t));
      inv in s.rows ==>
        && inv in next.rows
        && next.rows[inv].startedAt == if s.rows[inv].startedAt.Some? then s.rows[inv].startedAt else Some(t)
  {
    TableStep(form, s, WriteResult(w, true, t));
  }

  // The row of an invocation that begins to run, for the first time or once more.
  predicate Started(before: Invocation, after: Invocation, at: Time) {
    && after.status == Running && !before.status.IsTerminal()
    && after.startedAt == (if before.status == Pending then Some(at) else before.startedAt)
    && after == before.(status := after.status, startedAt := after.startedAt)
  }

  /** A status update that is applied makes the row running, from the first such update on, and it stays started. */
  lemma StartReachesRow(form: Form, workers: nat, start: Time, steps: seq<Step>, w: nat, t: Time, more: seq<Step>)
    requires Happens(form, workers, start, steps + [WriteStatus(w, true, t)] + more)
    requires Happens(form, workers, start, steps + [WriteStatus(w, true, t)])
    requires Happens(form, workers, start, steps) && Busy(Now(form, workers, start, steps), w)
    ensures var s := Now(form, workers, start, steps);
      var next := Now(form, workers, start, steps + [WriteStatus(w, true, t)]);
      var later := Now(form, workers, start, steps + [WriteStatus(w, true, t)] + more);
      && s.workers[w].raw.payload.Request?
      && var inv := s.workers[w].raw.payload.invocation;
      && (inv in s.rows ==> inv in next.rows && Started(s.rows[inv], next.rows[inv], t))
      && (inv in s.rows && inv in later.rows ==>
            later.rows[inv].status != Pending && later.rows[inv].startedAt == next.rows[inv].startedAt)
  {
    var s0, all := Init(workers, start), steps + [WriteStatus(w, true, t)];
    OneStep(form, s0, steps, WriteStatus(w, true, t));
    var s, next := Now(form, workers, start, steps), Now(form, workers, start, all);
    InvNow(form, workers, start, steps);
    InvNow(form, workers, start, all);
    WorkerRow(s, w);
    TableStep(form, s, WriteStatus(w, true, t));
    if s.workers[w].raw.payload.invocation in s.rows {
      ExecSplit(form, s0, all, more);
      RowsEvolve(form, next, more, s.workers[w].raw.payload.invocation);
    }
  }

  // The worker still has this result, or is through with it.
  predicate Carries(pc: Pc, raw: Message, result: ExecutionResult) {
    match pc
    case Finished(r, res) => r == raw && res == result
    case ResultRead(r, res, _, _) => r == raw && res == result
    case Acking(_) => true
    case Idle => true
    case _ => false
  }

  lemma CarriesStep(form: Form, s: State, step: Step, w: nat, raw: Message, result: ExecutionResult)
    requires w < |s.workers| && Carries(s.workers[w], raw, result) && Enabled(s, step) && step != Deliver(w)
    ensures w < |Do(form, s, step).workers| && Carries(Do(form, s, step).workers[w], raw, result)
  {
    OthersStay(form, s, step);
  }

  lemma {:induction false} CarriesRun(form: Form, s: State, steps: seq<Step>, w: nat, raw: Message,
                                      result: ExecutionResult)
    requires Legal(form, s, steps) && w < |s.workers| && Carries(s.workers[w], raw, result) && Deliver(w) !in steps
    ensures w < |Exec(form, s, steps).workers| && Carries(Exec(form, s, steps).workers[w], raw, result)
    decreases |steps|
  {
    if steps != [] {
      var n := |steps| - 1;
      CarriesRun(form, s, steps[..n], w, raw, result);
      CarriesStep(form, Exec(form, s, steps[..n]), steps[n], w, raw, result);
    }
  }

  lemma OneStep(form: Form, s: State, steps: seq<Step>, step: Step)
    requires Legal(form, s, steps + [step])
    ensures Legal(form, s, steps) && Enabled(Exec(form, s, steps), step)
    ensures Exec(form, s, steps + [step]) == Do(form, Exec(form, s, steps), step)
  {
    assert (steps + [step])[..|steps + [step]| - 1] == steps;
    assert (steps + [step])[|steps + [step]| - 1] == step;
  }

  lemma Prefix(form: Form, s: State, a: seq<Step>, b: seq<Step>)
    requires Legal(form, s, a + b)
    ensures Legal(form, s, a)
  {
    ExecSplit(form, s, a, b);
  }

  // A run up to the update of the row, and what follows it.
  lemma WrittenForGood(form: Form, workers: nat, start: Time, steps: seq<Step>, w: nat, t: Time, more: seq<Step>)
    requires Happens(form, workers, start, steps + [WriteResult(w, true, t)] + more)
    requires Happens(form, workers, start, steps) && w < |Now(form, workers, start, steps).workers|
    requires Now(form, workers, start, steps).workers[w].ResultRead?
    ensures var s := Now(form, workers, start, steps);
      var later := Now(form, workers, start, steps + [WriteResult(w, true, t)] + more);
      && s.workers[w].raw.payload.Request?
      && var inv := s.workers[w].raw.payload.invocation;
      && (inv in later.rows ==> Records(later.rows[inv], s.workers[w].result, t))
      && (inv in later.rows && inv in s.rows ==>
            later.rows[inv].startedAt == if s.rows[inv].startedAt.Some? then s.rows[inv].startedAt else Some(t))
      && (inv in s.rows && inv !in later.rows ==> DropRows(s.rows[inv].functionId) in more)
  {
    var s0, all := Init(workers, start), steps + [WriteResult(w, true, t)];
    Prefix(form, s0, all, more);
    OneStep(form, s0, steps, WriteResult(w, true, t));
    var s, next := Now(form, workers, start, steps), Now(form, workers, start, all);
    InvNow(form, workers, start, steps);
    InvNow(form, workers, start, all);
    WriteRecords(form, s, w, t);
    WriteStarts(form, s, w, t);
    var inv := s.workers[w].raw.payload.invocation;
    WorkerRow(s, w);
    if inv in next.rows {
      assert Shape(next.rows[inv], next.now);
      TerminalIsFinal(form, workers, start, all, more, inv);
    } else {
      CreatedGrows(form, s, WriteResult(w, true, t));
      ExecSplit(form, s0, all, more);
      RowsEvolve(form, next, more, inv);
    }
  }

  lemma WorkerRow(s: State, w: nat)
    requires Inv(s) && Busy(s, w)
    ensures s.workers[w].raw.payload.Request? && s.workers[w].raw.payload.invocation in s.created
  {
    assert Addressed(s, s.workers[w].raw);
  }

  /**
   A result a run gave, whatever its status, is the row's for good once its update is applied: status, error and
   metrics, the output if that is JSON, and the time. Only the deletion of the function takes the row.
   */
  lemma ResultReachesRow(form: Form, workers: nat, start: Time, before: seq<Step>, w: nat, result: ExecutionResult,
                         stamp: string, between: seq<Step>, t: Time, more: seq<Step>)
    requires var ran := before + [Execute(w, Produced(result), stamp)] + between;
      Happens(form, workers, start, before) && Happens(form, workers, start, ran + [WriteResult(w, true, t)] + more)
    requires Deliver(w) !in between && Busy(Now(form, workers, start, before), w)
    ensures var raw := Now(form, workers, start, before).workers[w].raw;
      var ran := before + [Execute(w, Produced(result), stamp)] + between;
      var later := Now(form, workers, start, ran + [WriteResult(w, true, t)] + more);
      && raw.payload.Request?
      && (raw.payload.invocation in later.rows ==> Records(later.rows[raw.payload.invocation], result, t))
  {
    var s0, first := Init(workers, start), before + [Execute(w, Produced(result), stamp)];
    var ran := first + between;
    Prefix(form, s0, ran + [WriteResult(w, true, t)], more);
    OneStep(form, s0, ran, WriteResult(w, true, t));
    ExecSplit(form, s0, first, between);
    OneStep(form, s0, before, Execute(w, Produced(result), stamp));
    var raw := Now(form, workers, start, before).workers[w].raw;
    CarriesRun(form, Now(form, workers, start, first), between, w, raw, result);
    WrittenForGood(form, workers, start, ran, w, t, more);
  }

  // ---------- every row and every letter has its run ----------

  // The j-th step is the end of a run of this message.
  ghost predicate Ran(form: Form, s: State, steps: seq<Step>, j: nat, w: nat, outcome: Outcome, stamp: string,
                      raw: Message)
  {
    && j < |steps| && steps[j] == Execute(w, outcome, stamp)
    && Legal(form, s, steps[..j]) && w < |Exec(form, s, steps[..j]).workers|
    && Exec(form, s, steps[..j]).workers[w] == Executing(raw)
  }

  ghost predicate Gave(form: Form, s: State, steps: seq<Step>, raw: Message, result: ExecutionResult) {
    exists j, w, stamp :: Ran(form, s, steps, j, w, Produced(result), stamp, raw)
  }

  // A run of this message failed, and it was the last it could have.
  ghost predicate Failed(form: Form, s: State, steps: seq<Step>, raw: Message, text: string, stamp: string) {
    Received(raw).attempts >= MAX_ATTEMPTS && exists j, w :: Ran(form, s, steps, j, w, GoError(text), stamp, raw)
  }

  lemma RanOn(form: Form, s: State, steps: seq<Step>, j: nat, w: nat, outcome: Outcome, stamp: string, raw: Message)
    requires steps != [] && Ran(form, s, steps[..|steps| - 1], j, w, outcome, stamp, raw)
    ensures Ran(form, s, steps, j, w, outcome, stamp, raw)
  {
    assert steps[..|steps| - 1][..j] == steps[..j];
  }

  lemma GaveOn(form: Form, s: State, steps: seq<Step>, raw: Message, result: ExecutionResult)
    requires steps != [] && Gave(form, s, steps[..|steps| - 1], raw, result)
    ensures Gave(form, s, steps, raw, result)
  {
    var j, w, stamp :| Ran(form, s, steps[..|steps| - 1], j, w, Produced(result), stamp, raw);
    RanOn(form, s, steps, j, w, Produced(result), stamp, raw);
  }

  lemma FailedOn(form: Form, s: State, steps: seq<Step>, raw: Message, text: string, stamp: string)
    requires steps != [] && Failed(form, s, steps[..|steps| - 1], raw, text, stamp)
    ensures Failed(form, s, steps, raw, text, stamp)
  {
    var j, w :| Ran(form, s, steps[..|steps| - 1], j, w, GoError(text), stamp, raw);
    RanOn(form, s, steps, j, w, GoError(text), stamp, raw);
  }

  // ---------- rows ----------

  // A worker that has a result in its hands.
  predicate Holding(pc: Pc) {
    pc.Finished? || pc.ResultRead?
  }

  lemma HoldingStep(form: Form, s: State, step: Step, w: nat)
    requires Enabled(s, step) && w < |s.workers|
    ensures w < |Do(form, s, step).workers|
    ensures var pc, next := s.workers[w], Do(form, s, step).workers[w];
      Holding(next) ==>
        || (Holding(pc) && next.raw == pc.raw && next.result == pc.result)
        || (step.Execute? && step.w == w && pc == Executing(next.raw) && step.outcome == Produced(next.result))
  {
    OthersStay(form, s, step);
  }

  lemma {:induction false} HeldWasGiven(form: Form, s: State, steps: seq<Step>, w: nat)
    requires Legal(form, s, steps) && (forall v :: 0 <= v < |s.workers| ==> s.workers[v] == Idle)
    requires w < |Exec(form, s, steps).workers| && Holding(Exec(form, s, steps).workers[w])
    ensures var pc := Exec(form, s, steps).workers[w]; Gave(form, s, steps, pc.raw, pc.result)
    decreases |steps|
  {
    var n := |steps| - 1;
    var mid := Exec(form, s, steps[..n]);
    OthersStay(form, mid, steps[n]);
    HoldingStep(form, mid, steps[n], w);
    var pc := Exec(form, s, steps).workers[w];
    if Holding(mid.workers[w]) {
      HeldWasGiven(form, s, steps[..n], w);
      GaveOn(form, s, steps, pc.raw, pc.result);
    } else {
      assert Ran(form, s, steps, n, w, Produced(pc.result), steps[n].stamp, pc.raw);
    }
  }

  // Only an update with a result makes a row terminal.
  lemma EndsStep(form: Form, s: State, step: Step, inv: Id)
    requires Enabled(s, step)
    requires inv in Do(form, s, step).rows && Do(form, s, step).rows[inv].status.IsTerminal()
    ensures || (inv in s.rows && s.rows[inv] == Do(form, s, step).rows[inv])
            || (&& step.WriteResult? && step.applied && s.workers[step.w].raw.payload.invocation == inv
                && Records(Do(form, s, step).rows[inv], s.workers[step.w].result, step.t))
  {
    if Moving(step) && !step.WriteStatus? && !step.WriteResult? {
      MoveOnlyRows(form, s, step);
    } else if step.WriteResult? {
      ResultRows(form, s, step, inv);
    }
  }

  lemma MoveOnlyRows(form: Form, s: State, step: Step)
    requires Enabled(s, step) && Moving(step) && !step.WriteStatus? && !step.WriteResult?
    ensures Do(form, s, step).rows == s.rows
  {
  }

  lemma ResultRows(form: Form, s: State, step: Step, inv: Id)
    requires Enabled(s, step) && step.WriteResult? && inv in Do(form, s, step).rows
    ensures || (inv in s.rows && s.rows[inv] == Do(form, s, step).rows[inv])
            || (&& step.applied && s.workers[step.w].raw.payload.invocation == inv
                && Records(Do(form, s, step).rows[inv], s.workers[step.w].result, step.t))
  {
  }

  // The row tells what a run of its invocation gave.
  ghost predicate Told(form: Form, s: State, steps: seq<Step>, inv: Id, row: Invocation) {
    exists raw: Message, result: ExecutionResult, t: Time ::
      raw.payload.Request? && raw.payload.invocation == inv && Gave(form, s, steps, raw, result)
        && Records(row, result, t)
  }

  lemma {:induction false} TerminalIsTold(form: Form, s: State, steps: seq<Step>, inv: Id)
    requires Legal(form, s, steps) && s.rows == map[] && forall v :: 0 <= v < |s.workers| ==> s.workers[v] == Idle
    requires inv in Exec(form, s, steps).rows && Exec(form, s, steps).rows[inv].status.IsTerminal()
    ensures Told(form, s, steps, inv, Exec(form, s, steps).rows[inv])
    decreases |steps|
  {
    var n := |steps| - 1;
    var mid, row := Exec(form, s, steps[..n]), Exec(form, s, steps).rows[inv];
    EndsStep(form, mid, steps[n], inv);
    var raw: Message, result: ExecutionResult, t: Time;
    if inv in mid.rows && mid.rows[inv] == row {
      TerminalIsTold(form, s, steps[..n], inv);
      raw, result, t :| raw.payload.Request? && raw.payload.invocation == inv
        && Gave(form, s, steps[..n], raw, result) && Records(row, result, t);
    } else {
      HeldWasGiven(form, s, steps[..n], steps[n].w);
      raw, result, t := mid.workers[steps[n].w].raw, mid.workers[steps[n].w].result, steps[n].t;
    }
    GaveOn(form, s, steps, raw, result);
  }

  /** The other way round: whatever a terminal row says is what a run of that invocation gave. */
  lemma RowsTellResults(form: Form, workers: nat, start: Time, steps: seq<Step>, inv: Id)
    requires Happens(form, workers, start, steps) && inv in Now(form, workers, start, steps).rows
    requires Now(form, workers, start, steps).rows[inv].status.IsTerminal()
    ensures Told(form, Init(workers, start), steps, inv, Now(form, workers, start, steps).rows[inv])
  {
    TerminalIsTold(form, Init(workers, start), steps, inv);
  }

  /** And a row keeps the function and the time it was inserted with. */
  lemma RowsTellCalls(form: Form, workers: nat, start: Time, steps: seq<Step>, inv: Id, f: Id, at: Time,
                      more: seq<Step>)
    requires Happens(form, workers, start, steps + [CreateRow(inv, f, at)] + more)
    ensures var later := Now(form, workers, start, steps + [CreateRow(inv, f, at)] + more);
      inv in later.rows ==> later.rows[inv].functionId == f && later.rows[inv].createdAt == at
  {
    var s0, all := Init(workers, start), steps + [CreateRow(inv, f, at)];
    Prefix(form, s0, all, more);
    OneStep(form, s0, steps, CreateRow(inv, f, at));
    InvNow(form, workers, start, all);
    ExecSplit(form, s0, all, more);
    RowsEvolve(form, Now(form, workers, start, all), more, inv);
  }

  // ---------- messages ----------

  // But for the attempts, this is a message some InvokeAsync pushed.
  ghost predicate IsSent(steps: seq<Step>, m: Message) {
    exists i, inv :: 0 <= i < |steps| && steps[i] == Send(inv, m.(attempts := 0))
  }

  lemma SentOn(steps: seq<Step>, more: seq<Step>, m: Message)
    requires steps <= more && IsSent(steps, m)
    ensures IsSent(more, m)
  {
    var i, inv :| 0 <= i < |steps| && steps[i] == Send(inv, m.(attempts := 0));
    assert more[i] == Send(inv, m.(attempts := 0));
  }

  predicate SameButAttempts(a: Message, b: Message) {
    a.(attempts := 0) == b.(attempts := 0)
  }

  ghost predicate Queued(s: State, m: Message) {
    m in s.waiting || m in s.processing || m in s.deliveries || exists w: nat :: Busy(s, w) && s.workers[w].raw == m
  }

  lemma LRemKeeps(list: seq<Message>, entry: Message, m: Message)
    requires m in LRem(list, entry)
    ensures m in list
  {
    if list != [] && list[0] != entry && m != list[0] {
      LRemKeeps(list[1..], entry, m);
    }
  }

  // A message is new, or a copy of one that was there.
  lemma QueuedStep(form: Form, s: State, step: Step, m: Message)
    requires Enabled(s, step) && Queued(Do(form, s, step), m)
    ensures || (step.Send? && step.message == m && m.attempts == 0)
            || exists old_ :: Queued(s, old_) && SameButAttempts(m, old_)
  {
    OthersStay(form, s, step);
    if step.Send? && step.message == m {
    } else if !Queued(s, m) {
      FromElsewhere(form, s, step, m);
    }
  }

  lemma FromElsewhere(form: Form, s: State, step: Step, m: Message)
    requires Enabled(s, step) && Queued(Do(form, s, step), m) && !Queued(s, m) && !(step.Send? && step.message == m)
    ensures step.NackPush? && SameButAttempts(m, s.workers[step.w].raw) && Queued(s, s.workers[step.w].raw)
  {
    var t := Do(form, s, step);
    OthersStay(form, s, step);
    forall w: nat | Busy(t, w) ensures t.workers[w].raw != m {
      HeldFrom(form, s, step, w);
    }
    ListedFrom(form, s, step, m);
    assert Busy(s, step.w);
  }

  lemma HeldFrom(form: Form, s: State, step: Step, w: nat)
    requires Enabled(s, step) && Busy(Do(form, s, step), w)
    ensures var raw := Do(form, s, step).workers[w].raw; raw in s.waiting || (Busy(s, w) && s.workers[w].raw == raw)
  {
    OthersStay(form, s, step);
  }

  lemma ListedFrom(form: Form, s: State, step: Step, m: Message)
    requires Enabled(s, step)
    requires var t := Do(form, s, step); m in t.waiting || m in t.processing || m in t.deliveries
    ensures || m in s.waiting || m in s.processing || m in s.deliveries
            || (step.Send? && step.message == m)
            || (step.NackPush? && SameButAttempts(m, s.workers[step.w].raw))
  {
    forall entry | m in LRem(s.processing, entry) ensures m in s.processing {
      LRemKeeps(s.processing, entry, m);
    }
  }

  lemma NothingYet(workers: nat, start: Time, m: Message)
    ensures !Queued(Init(workers, start), m)
  {
    forall w: nat ensures !Busy(Init(workers, start), w) {
      assert w < workers ==> Init(workers, start).workers[w] == Idle;
    }
  }

  /** Every message anywhere, however often retried, is what InvokeAsync pushed, but for the attempts. */
  lemma {:induction false} MessagesAreSent(form: Form, workers: nat, start: Time, steps: seq<Step>, m: Message)
    requires Happens(form, workers, start, steps) && Queued(Now(form, workers, start, steps), m)
    ensures IsSent(steps, m)
    decreases |steps|
  {
    if steps == [] {
      NothingYet(workers, start, m);
    } else {
      var n := |steps| - 1;
      QueuedStep(form, Now(form, workers, start, steps[..n]), steps[n], m);
      if steps[n].Send? && steps[n].message == m && m.attempts == 0 {
        assert steps[n] == Send(steps[n].inv, m.(attempts := 0));
      } else {
        var old_ :| Queued(Now(form, workers, start, steps[..n]), old_) && SameButAttempts(m, old_);
        MessagesAreSent(form, workers, start, steps[..n], old_);
        SentOn(steps[..n], steps, old_);
      }
    }
  }

  // ---------- dead letters ----------

  // A letter with its reason: the error of the last run.
  ghost predicate Reasoned(form: Form, s: State, steps: seq<Step>, letter: Message) {
    exists raw: Message, text: string, stamp: string ::
      Failed(form, s, steps, raw, text, stamp)
        && Explained(letter, Received(raw), "max retries exceeded: " + text, stamp)
  }

  lemma ReasonedOn(form: Form, s: State, steps: seq<Step>, letter: Message)
    requires steps != [] && Reasoned(form, s, steps[..|steps| - 1], letter)
    ensures Reasoned(form, s, steps, letter)
  {
    var raw, text, stamp :| Failed(form, s, steps[..|steps| - 1], raw, text, stamp)
      && Explained(letter, Received(raw), "max retries exceeded: " + text, stamp);
    FailedOn(form, s, steps, raw, text, stamp);
  }

  // Where a letter comes from.
  lemma LetterStep(form: Form, s: State, step: Step, m: Message)
    requires Enabled(s, step) && !step.RejectPayload?
    ensures m in Do(form, s, step).dead ==>
      m in s.dead || exists w :: 0 <= w < |s.workers| && s.workers[w].DeadLettering? && s.workers[w].letter == m
  {
  }

  lemma WriterStep(form: Form, s: State, step: Step, w: nat)
    requires Enabled(s, step) && !step.RejectPayload? && w < |s.workers|
    ensures w < |Do(form, s, step).workers|
    ensures var pc, next := s.workers[w], Do(form, s, step).workers[w];
      next.DeadLettering? ==>
        || (pc.DeadLettering? && next.letter == pc.letter)
        || (&& step.Execute? && step.w == w && step.outcome.GoError? && pc == Executing(next.raw)
            && Received(next.raw).attempts >= MAX_ATTEMPTS
            && Explained(next.letter, Received(next.raw), "max retries exceeded: " + step.outcome.text, step.stamp))
  {
    OthersStay(form, s, step);
  }

  ghost predicate AllReasoned(form: Form, s: State, steps: seq<Step>)
    requires Legal(form, s, steps)
  {
    var t := Exec(form, s, steps);
    && (forall m :: m in t.dead ==> Reasoned(form, s, steps, m))
    && (forall w :: 0 <= w < |t.workers| && t.workers[w].DeadLettering? ==>
        Reasoned(form, s, steps, t.workers[w].letter))
  }

  lemma {:induction false} AllReasonedRun(form: Form, workers: nat, start: Time, steps: seq<Step>)
    requires Happens(form, workers, start, steps)
    ensures AllReasoned(form, Init(workers, start), steps)
    decreases |steps|
  {
    if steps != [] {
      var n := |steps| - 1;
      var s0, mid := Init(workers, start), Now(form, workers, start, steps[..n]);
      AllReasonedRun(form, workers, start, steps[..n]);
      NoReject(form, workers, start, steps[..n], steps[n]);
      forall m | m in Exec(form, s0, steps).dead ensures Reasoned(form, s0, steps, m) {
        LetterStep(form, mid, steps[n], m);
        ReasonedOn(form, s0, steps, m);
      }
      forall w | 0 <= w < |Exec(form, s0, steps).workers| && Exec(form, s0, steps).workers[w].DeadLettering?
        ensures Reasoned(form, s0, steps, Exec(form, s0, steps).workers[w].letter)
      {
        WriterReasoned(form, s0, steps, w);
      }
    }
  }

  lemma NoReject(form: Form, workers: nat, start: Time, steps: seq<Step>, step: Step)
    requires Happens(form, workers, start, steps) && Enabled(Now(form, workers, start, steps), step)
    ensures !step.RejectPayload?
  {
    if step.RejectPayload? {
      NeverRejected(form, workers, start, steps, step.w, step.reason, step.stamp);
    }
  }

  lemma WriterReasoned(form: Form, s: State, steps: seq<Step>, w: nat)
    requires steps != [] && Legal(form, s, steps) && !steps[|steps| - 1].RejectPayload?
    requires AllReasoned(form, s, steps[..|steps| - 1])
    requires w < |Exec(form, s, steps).workers| && Exec(form, s, steps).workers[w].DeadLettering?
    ensures Reasoned(form, s, steps, Exec(form, s, steps).workers[w].letter)
  {
    var n := |steps| - 1;
    var mid, pc := Exec(form, s, steps[..n]), Exec(form, s, steps).workers[w];
    OthersStay(form, mid, steps[n]);
    WriterStep(form, mid, steps[n], w);
    if mid.workers[w].DeadLettering? && pc.letter == mid.workers[w].letter {
      ReasonedOn(form, s, steps, pc.letter);
    } else {
      assert Ran(form, s, steps, n, w, steps[n].outcome, steps[n].stamp, pc.raw);
      assert Failed(form, s, steps, pc.raw, steps[n].outcome.text, steps[n].stamp);
    }
  }

  // A run is a run of a message that was pushed.
  lemma RanIsSent(form: Form, workers: nat, start: Time, steps: seq<Step>, j: nat, w: nat, outcome: Outcome,
                  stamp: string, raw: Message)
    requires Happens(form, workers, start, steps)
    requires Ran(form, Init(workers, start), steps, j, w, outcome, stamp, raw)
    ensures IsSent(steps, raw)
  {
    assert Busy(Now(form, workers, start, steps[..j]), w);
    MessagesAreSent(form, workers, start, steps[..j], raw);
    SentOn(steps[..j], steps, raw);
  }

  /**
   A dead letter is a message that was pushed, as it was last delivered, with the error of its last run and the time as
   headers.
   */
  lemma LettersTellErrors(form: Form, workers: nat, start: Time, steps: seq<Step>, letter: Message)
    requires Happens(form, workers, start, steps) && letter in Now(form, workers, start, steps).dead
    ensures exists raw: Message, text: string, stamp: string ::
      && IsSent(steps, raw) && Failed(form, Init(workers, start), steps, raw, text, stamp)
      && Explained(letter, Received(raw), "max retries exceeded: " + text, stamp)
  {
    AllReasonedRun(form, workers, start, steps);
    var raw: Message, text, stamp :| Failed(form, Init(workers, start), steps, raw, text, stamp)
      && Explained(letter, Received(raw), "max retries exceeded: " + text, stamp);
    var j, w :| Ran(form, Init(workers, start), steps, j, w, GoError(text), stamp, raw);
    RanIsSent(form, workers, start, steps, j, w, GoError(text), stamp, raw);
  }
}
