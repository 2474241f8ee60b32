/**
 The invocation table as it ought to behave: every update of a row is one indivisible step, and
 only a row that is not terminal may be updated. The code has neither the lock nor the check.
 */
module Lifecycle {
  import opened Types

  datatype Table = Table(rows: map<Id, Invocation>, used: set<Id>, now: Time)

  datatype Event =
    | Pass(t: Time)
    | Insert(inv: Id, functionId: Id, at: Time)
    | Start(inv: Id, t: Time)
    | Finish(inv: Id, result: ExecutionResult, t: Time)
    | Cascade(functionId: Id)

  // Not earlier than anything the row records.
  predicate Later(row: Invocation, t: Time) {
    row.createdAt <= t && (row.startedAt.Some? ==> row.startedAt.value <= t)
  }

  predicate Can(table: Table, e: Event) {
    match e
    case Pass(t) => table.now <= t
    case Insert(inv, _, at) => inv !in table.used && at <= table.now
    case Start(inv, t) => inv in table.rows && !table.rows[inv].status.IsTerminal() && Later(table.rows[inv], t)
      && t <= table.now
    case Finish(inv, result, t) =>
      && inv in table.rows && !table.rows[inv].status.IsTerminal() && Later(table.rows[inv], t) && t <= table.now
      && result.WellFormed()
    case Cascade(_) => true
  }

  function After(table: Table, e: Event): Table
    requires Can(table, e)
  {
    match e
    case Pass(t) => table.(now := t)
    case Insert(inv, f, at) => table.(rows := table.rows[inv := NewRow(f, at)], used := table.used + {inv})
    case Start(inv, t) =>
      table.(rows := table.rows[inv := Persist(table.rows[inv], MarkStatus(table.rows[inv], Running, t))])
    case Finish(inv, result, t) =>
      table.(rows := table.rows[inv := Persist(table.rows[inv], MarkResult(table.rows[inv], result, t))])
    case Cascade(f) =>
      table.(rows := map inv | inv in table.rows && table.rows[inv].functionId != f :: table.rows[inv])
  }

  /** What a stored row looks like at any moment. */
  predicate Shape(row: Invocation, now: Time) {
    && row.createdAt <= now
    && (row.status.IsTerminal() <==> row.completedAt.Some?)
    && (row.status == Pending <==> row.startedAt == None)
    && (row.startedAt.Some? ==> row.createdAt <= row.startedAt.value <= now)
    && (row.completedAt.Some? ==> row.startedAt.Some? && row.startedAt.value <= row.completedAt.value <= now)
    && (row.status.IsTerminal() ==> (row.status == Completed <==> row.error == None) && row.metrics.Some?)
    && (!row.status.IsTerminal() ==> row.output == None && row.error == None && row.metrics == None)
    && row.output == Storable(row.output)
  }

  predicate Shaped(table: Table) {
    && table.rows.Keys <= table.used
    && forall inv :: inv in table.rows ==> Shape(table.rows[inv], table.now)
  }

  lemma ShapedAfter(table: Table, e: Event)
    requires Shaped(table) && Can(table, e)
    ensures Shaped(After(table, e))
  {
    var next := After(table, e);
    forall inv | inv in next.rows ensures Shape(next.rows[inv], next.now) {
      if inv in table.rows {
        assert Shape(table.rows[inv], table.now);
      }
    }
  }

  /** What a row may become later on: dropped for good, or the same invocation, further along. */
  predicate Evolves(before: Table, after: Table, inv: Id)
    requires inv in before.rows
  {
    inv in after.rows ==>
      var old_, new_ := before.rows[inv], after.rows[inv];
      && new_.functionId == old_.functionId && new_.createdAt == old_.createdAt
      && (old_.status.IsTerminal() ==> new_ == old_)
      && (old_.startedAt.Some? ==> new_.startedAt == old_.startedAt)
      && (old_.status != Pending ==> new_.status != Pending)
  }

  lemma EvolvesAfter(table: Table, e: Event, inv: Id)
    requires Shaped(table) && Can(table, e) && inv in table.rows
    ensures Evolves(table, After(table, e), inv)
  {
    assert Shape(table.rows[inv], table.now);
  }

  lemma EvolvesOn(a: Table, b: Table, c: Table, inv: Id)
    requires inv in a.rows && Evolves(a, b, inv)
    requires inv in b.rows ==> Evolves(b, c, inv)
    requires inv !in b.rows ==> inv !in c.rows
    ensures Evolves(a, c, inv)
  {
  }

  // A row that is gone stays gone: its id is used up.
  lemma GoneStaysGone(table: Table, e: Event, inv: Id)
    requires Can(table, e) && inv in table.used && inv !in table.rows
    ensures inv !in After(table, e).rows && inv in After(table, e).used
  {
  }

  predicate CanAll(table: Table, events: seq<Event>)
    decreases |events|, 0
  {
    events == [] || (var n := |events| - 1; CanAll(table, events[..n]) && Can(AfterAll(table, events[..n]), events[n]))
  }

  function AfterAll(table: Table, events: seq<Event>): Table
    requires CanAll(table, events)
    decreases |events|, 1
  {
    if events == [] then table
    else (var n := |events| - 1; After(AfterAll(table, events[..n]), events[n]))
  }

  // How many results an invocation receives.
  function Finishes(events: seq<Event>, inv: Id): nat {
    if events == [] then 0
    else (var n := |events| - 1;
          Finishes(events[..n], inv) + if events[n].Finish? && events[n].inv == inv then 1 else 0)
  }

  lemma {:induction false} ShapedAfterAll(table: Table, events: seq<Event>)
    requires Shaped(table) && CanAll(table, events)
    ensures Shaped(AfterAll(table, events))
    decreases |events|
  {
    if events != [] {
      var n := |events| - 1;
      ShapedAfterAll(table, events[..n]);
      ShapedAfter(AfterAll(table, events[..n]), events[n]);
    }
  }

  // No event can finish the invocation any more.
  predicate Closed(table: Table, inv: Id) {
    inv in table.used && (inv in table.rows ==> table.rows[inv].status.IsTerminal())
  }

  /** An invocation receives at most one result, and none once it is closed. */
  lemma {:induction false} OneResult(table: Table, events: seq<Event>, inv: Id)
    requires Shaped(table) && CanAll(table, events)
    ensures Finishes(events, inv) <= if Closed(table, inv) then 0 else 1
    ensures Finishes(events, inv) == 1 || Closed(table, inv) ==> Closed(AfterAll(table, events), inv)
    decreases |events|
  {
    if events != [] {
      var n := |events| - 1;
      OneResult(table, events[..n], inv);
      ShapedAfterAll(table, events[..n]);
    }
  }
}
