/** The PostgreSQL repository of invocations, with its nullable columns. */
module Metadata {
  import opened Types

  datatype Columns = Columns(functionId: Id, createdAt: Time, status: Status, result: Option<string>,
                             errorType: Option<string>, errorMessage: Option<string>, errorStack: Option<string>,
                             durationNs: Option<int>, cpuTimeNs: Option<int>, memoryPeak: Option<int>,
                             networkIn: Option<int>, networkOut: Option<int>,
                             startedAt: Option<Time>, completedAt: Option<Time>)

  // What Scan and the assignments after it make of a row. A NULL reads as the zero value of its type.
  function Decode(row: Columns): Invocation {
    Invocation(row.functionId, row.createdAt, row.status,
               if row.result.Some? then Some(Json(row.result.value)) else None,
               if row.errorType.Some? then
                 Some(ExecutionError(row.errorType.value, Text(row.errorMessage), Text(row.errorStack)))
               else None,
               if row.durationNs.Some? then
                 Some(Metrics(row.durationNs.value, Number(row.cpuTimeNs), Number(row.memoryPeak),
                              Number(row.networkIn), Number(row.networkOut)))
               else None,
               row.startedAt, row.completedAt)
  }

  function Text(column: Option<string>): string {
    if column.Some? then column.value else ""
  }

  function Number(column: Option<int>): int {
    if column.Some? then column.value else 0
  }

  // ---------- texts ----------

  // What is left open about a server: the texts its encoding takes, the JSON texts whose numbers it can hold, and the
  // ties between two microseconds it rounds up.
  datatype Server = Server(encodes: string -> bool, holds: string -> bool, up: Time -> bool)

  // The escape of a surrogate, in JSON, with one of these letters as its second digit.
  predicate Surrogate(text: string, second: string) {
    |text| >= 6 && text[..2] == "\\u" && (text[2] == 'd' || text[2] == 'D') && text[3] in second
  }

  // An escape JSON has and JSONB has not: of NUL, or of half a pair of surrogates.
  predicate BadEscape(text: string) {
    |text| >= 2 &&
      if text[0] != '\\' then BadEscape(text[1..])
      else if Surrogate(text, "89abAB") then !Surrogate(text[6..], "cdefCDEF") || BadEscape(text[12..])
      else (|text| >= 6 && text[1..6] == "u0000") || Surrogate(text, "cdefCDEF") || BadEscape(text[2..])
  }

  predicate TakesJson(server: Server, text: string) {
    server.encodes(text) && server.holds(text) && !BadEscape(text)
  }

  predicate TakesText(server: Server, text: string) {
    server.encodes(text) && Clean(text)
  }

  // No column refuses what an update writes.
  predicate Enters(server: Server, inv: Invocation) {
    && (inv.output.Some? && inv.output.value.Json? ==> TakesJson(server, inv.output.value.text))
    && (inv.error.Some? ==>
          && TakesText(server, inv.error.value.kind) && FitsIn(inv.error.value.kind, KIND)
          && TakesText(server, inv.error.value.message) && TakesText(server, inv.error.value.stack))
  }

  // The length of the column for the kind of an error.
  const KIND: nat := 100

  // ---------- times ----------

  // A column keeps whole microseconds, the nearest; of two as near, either.
  function Micro(server: Server, t: Time): Time {
    var rest := t % 1000;
    if rest > 500 || (rest == 500 && server.up(t)) then t - rest + 1000 else t - rest
  }

  /** However ties go: half a microsecond off at most, a second time changes nothing, and the order stays. */
  lemma MicroIsNearest(server: Server, t: Time, later: Time)
    ensures -500 <= Micro(server, t) - t <= 500 && Micro(server, t) % 1000 == 0
    ensures Micro(server, Micro(server, t)) == Micro(server, t)
    ensures t <= later ==> Micro(server, t) <= Micro(server, later)
  {
    WholeStays(server, Micro(server, t));
  }

  lemma WholeStays(server: Server, t: Time)
    requires t % 1000 == 0
    ensures Micro(server, t) == t
  {
  }

  function MicroIf(server: Server, t: Option<Time>): Option<Time> {
    if t.Some? then Some(Micro(server, t.value)) else None
  }

  // What the columns keep of a record.
  function Kept(server: Server, inv: Invocation): Invocation {
    inv.(output := Storable(inv.output),
         error := if inv.error.Some? then Some(inv.error.value.(kind := Cut(inv.error.value.kind, KIND))) else None,
         createdAt := Micro(server, inv.createdAt),
         startedAt := MicroIf(server, inv.startedAt), completedAt := MicroIf(server, inv.completedAt))
  }

  // The columns an update writes, each with its own part of the record; what is missing is NULL.
  predicate Columned(server: Server, row: Columns, inv: Invocation) {
    && row.status == inv.status
    && row.startedAt == MicroIf(server, inv.startedAt) && row.completedAt == MicroIf(server, inv.completedAt)
    && row.result == (if inv.output.Some? && inv.output.value.Json? then Some(inv.output.value.text) else None)
    && (inv.error.None? ==> row.errorType == None && row.errorMessage == None && row.errorStack == None)
    && (inv.error.Some? ==>
          && row.errorType == Some(Cut(inv.error.value.kind, KIND))
          && row.errorMessage == Some(inv.error.value.message) && row.errorStack == Some(inv.error.value.stack))
    && (inv.metrics.None? ==>
          row.durationNs == None && row.cpuTimeNs == None && row.memoryPeak == None && row.networkIn == None
          && row.networkOut == None)
    && (inv.metrics.Some? ==>
          var m := inv.metrics.value;
          && row.durationNs == Some(m.duration) && row.cpuTimeNs == Some(m.cpuTime)
            && row.memoryPeak == Some(m.memoryPeak)
          && row.networkIn == Some(m.networkIn) && row.networkOut == Some(m.networkOut))
  }

  // A record as it is read back, field by field.
  predicate ReadsBack(server: Server, inv: Invocation, back: Invocation) {
    && back.status == inv.status && back.metrics == inv.metrics
    && back.output == (if inv.output.Some? && inv.output.value.Json? then inv.output else None)
    && (back.error.Some? <==> inv.error.Some?)
    && (inv.error.Some? ==>
          && back.error.value.kind == Cut(inv.error.value.kind, KIND)
          && back.error.value.message == inv.error.value.message && back.error.value.stack == inv.error.value.stack)
    && back.startedAt == MicroIf(server, inv.startedAt) && back.completedAt == MicroIf(server, inv.completedAt)
  }

  /** Through the columns and back: nothing is lost but what they cut, round or do not take. */
  lemma ColumnsReadBack(server: Server, row: Columns, inv: Invocation)
    requires Columned(server, row, inv)
    ensures ReadsBack(server, inv, Decode(row)) && ReadsBack(server, inv, Kept(server, inv))
    ensures Decode(row).functionId == row.functionId && Decode(row).createdAt == row.createdAt
  {
  }

  class InvocationTable {
    const server: Server
    var rows: map<Id, Columns>

    constructor (server: Server)
      ensures this.server == server && rows == map[]
    {
      this.server := server;
      rows := map[];
    }

    // The table as its readers see it.
    function Contents(): map<Id, Invocation>
      reads this
    {
      map id | id in rows :: Decode(rows[id])
    }

    // The function must exist, and the id be new.
    method CreateInvocation(id: Id, inv: Invocation, functions: set<Id>, fault: Fault) returns (err: bool)
      modifies this
      ensures err <==> id in old(rows) || inv.functionId !in functions || fault != Fine
      ensures Contents() ==
        if id in old(rows) || inv.functionId !in functions || fault == NotApplied then old(Contents())
        else old(Contents())[id := Invocation(inv.functionId, Micro(server, inv.createdAt), inv.status,
                                              None, None, None, None, None)]
    {
      if id in rows || inv.functionId !in functions || fault == NotApplied {
        return true;
      }
      rows := rows[id := Columns(inv.functionId, Micro(server, inv.createdAt), inv.status, None, None, None, None,
                                 None, None, None, None, None, None, None)];
      return fault != Fine;
    }

    method GetInvocationByID(id: Id, fails: bool) returns (loaded: Option<Invocation>)
      ensures loaded == if id in Contents() && !fails then Some(Contents()[id]) else None
    {
      if id !in rows || fails {
        return None;
      }
      var row := rows[id];
      var inv := Invocation(row.functionId, row.createdAt, row.status, None, None, None, row.startedAt,
                            row.completedAt);
      if row.result.Some? {
        inv := inv.(output := Some(Json(row.result.value)));
      }
      if row.errorType.Some? {
        inv := inv.(error := Some(ExecutionError(row.errorType.value, Text(row.errorMessage), Text(row.errorStack))));
      }
      if row.durationNs.Some? {
        inv := inv.(metrics := Some(Metrics(row.durationNs.value, Number(row.cpuTimeNs), Number(row.memoryPeak),
                                            Number(row.networkIn), Number(row.networkOut))));
      }
      return Some(inv);
    }

    /**
     What is read back is the record written, as its columns keep it: times to the microsecond, no output that is not
     JSON, the kind of an error without blanks that go beyond its column. All else of the row, and all other rows, stay.
     */
    method UpdateInvocation(id: Id, inv: Invocation, fault: Fault) returns (err: bool)
      modifies this
      ensures err <==> id !in old(rows) || !Enters(server, inv) || fault != Fine
      ensures Contents() == if id !in old(rows) || !Enters(server, inv) || fault == NotApplied then old(Contents())
                            else old(Contents())[id := Persist(old(Contents())[id], Kept(server, inv))]
      ensures !err ==> Columned(server, rows[id], inv) && ReadsBack(server, inv, Contents()[id])
      ensures !err ==> rows[id].functionId == old(rows)[id].functionId && rows[id].createdAt == old(rows)[id].createdAt
    {
      if id !in rows || !Enters(server, inv) || fault == NotApplied {
        return true;
      }
      var result: Option<string> := None;
      if inv.output.Some? && inv.output.value.Json? {
        result := Some(inv.output.value.text);
      }
      var errorType, errorMessage, errorStack: Option<string> := None, None, None;
      if inv.error.Some? {
        errorType := Some(Cut(inv.error.value.kind, KIND));
        errorMessage := Some(inv.error.value.message);
        errorStack := Some(inv.error.value.stack);
      }
      var durationNs, cpuTimeNs, memoryPeak, networkIn, networkOut: Option<int> := None, None, None, None, None;
      if inv.metrics.Some? {
        durationNs := Some(inv.metrics.value.duration);
        cpuTimeNs := Some(inv.metrics.value.cpuTime);
        memoryPeak := Some(inv.metrics.value.memoryPeak);
        networkIn := Some(inv.metrics.value.networkIn);
        networkOut := Some(inv.metrics.value.networkOut);
      }
      rows := rows[id := rows[id].(status := inv.status, result := result, errorType := errorType,
                                   errorMessage := errorMessage,
                                   errorStack := errorStack, durationNs := durationNs, cpuTimeNs := cpuTimeNs,
                                   memoryPeak := memoryPeak, networkIn := networkIn, networkOut := networkOut,
                                   startedAt := MicroIf(server, inv.startedAt),
                                   completedAt := MicroIf(server, inv.completedAt))];
      return fault != Fine;
    }
  }
}
