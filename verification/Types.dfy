/** The records shared by the controller, the workers and the repositories. */
module Types {

  datatype Option<+T> = None | Some(value: T)

  // UUIDs, in their textual form.
  type Id = string

  // Instants and durations are whole nanoseconds.
  type Time = nat

  // How a call to a store can go: done and reported, not done, or done and reported as failed.
  datatype Fault = Fine | NotApplied | ReplyLost

  datatype Status = Pending | Running | Completed | Failed | TimedOut {
    predicate IsTerminal() {
      this == Completed || this == Failed || this == TimedOut
    }
  }

  datatype ExecutionError = ExecutionError(kind: string, message: string, stack: string)

  datatype Metrics = Metrics(duration: int, cpuTime: int, memoryPeak: int, networkIn: int, networkOut: int)

  // What a function printed: text that parses as JSON, or anything else.
  datatype Output = Json(text: string) | Opaque(text: string)

  datatype ExecutionResult = ExecutionResult(status: Status, output: Option<Output>,
                                             error: Option<ExecutionError>, metrics: Option<Metrics>)
  {
    // The results a runtime hands back when it reports no Go error.
    predicate WellFormed() {
      && status.IsTerminal()
      && (status == Completed <==> error == None)
      && metrics.Some?
    }
  }

  datatype Invocation = Invocation(functionId: Id, createdAt: Time, status: Status, output: Option<Output>,
                                   error: Option<ExecutionError>, metrics: Option<Metrics>,
                                   startedAt: Option<Time>, completedAt: Option<Time>)

  // What CreateInvocation inserts.
  function NewRow(functionId: Id, at: Time): Invocation {
    Invocation(functionId, at, Pending, None, None, None, None, None)
  }

  // A JSONB column cannot hold text that is not JSON: the failed marshal leaves NULL.
  function Storable(output: Option<Output>): Option<Output> {
    if output.Some? && output.value.Json? then output else None
  }

  // The columns UPDATE writes; the others keep what the row had.
  function Persist(row: Invocation, inv: Invocation): Invocation {
    row.(status := inv.status, output := Storable(inv.output), error := inv.error,
         metrics := inv.metrics, startedAt := inv.startedAt, completedAt := inv.completedAt)
  }

  // UpdateInvocationStatus on a loaded record.
  function MarkStatus(inv: Invocation, status: Status, now: Time): Invocation {
    inv.(status := status,
         startedAt := if status == Running && inv.startedAt == None then Some(now) else inv.startedAt,
         completedAt := if status.IsTerminal() && inv.completedAt == None then Some(now) else inv.completedAt)
  }

  // UpdateInvocationResult on a loaded record.
  function MarkResult(inv: Invocation, result: ExecutionResult, now: Time): Invocation {
    inv.(status := result.status, output := result.output, error := result.error, metrics := result.metrics,
         startedAt := if inv.startedAt == None then Some(now) else inv.startedAt,
         completedAt := Some(now))
  }

  // ---------- text columns ----------

  // No column takes a NUL.
  predicate Clean(text: string) {
    '\0' !in text
  }

  // VARCHAR(n) refuses a longer text, but for blanks at its end, which it cuts off.
  predicate FitsIn(text: string, n: nat) {
    forall i :: n <= i < |text| ==> text[i] == ' '
  }

  function Cut(text: string, n: nat): string {
    if |text| <= n then text else text[..n]
  }
}
