/** What holds over whole runs of the protocol: any number of workers, any interleaving, crashes and failed calls. */
module ProtocolTheorems {
  import opened Types
  import opened Protocol
  import opened ProtocolInvariant
  import opened Lifecycle

  // A run from the empty queue.
  predicate Happens(form: Form, workers: nat, start: Time, steps: seq<Step>) {
    Legal(form, Init(workers, start), steps)
  }

  function Now(form: Form, workers: nat, start: Time, steps: seq<Step>): State
    requires Happens(form, workers, start, steps)
  {
    Exec(form, Init(workers, start), steps)
  }

  lemma InvNow(form: Form, workers: nat, start: Time, steps: seq<Step>)
    requires Happens(form, workers, start, steps)
    ensures Inv(Now(form, workers, start, steps))
  {
    InvInit(workers, start);
    InvRun(form, Init(workers, start), steps);
  }

  // ---------- one live copy ----------

  function Occurrences(list: seq<Message>, id: Id): nat {
    if list == [] then 0 else Occurrences(list[1..], id) + if list[0].id == id then 1 else 0
  }

  function Holders(workers: seq<Pc>, id: Id): nat {
    if workers == [] then 0
    else Holders(workers[1..], id) + if workers[0] != Idle && workers[0].raw.id == id then 1 else 0
  }

  lemma {:induction false} OccurrencesOnce(list: seq<Message>, id: Id)
    requires forall i, j :: 0 <= i < j < |list| ==> list[i].id != list[j].id
    ensures Occurrences(list, id) == if exists i :: 0 <= i < |list| && list[i].id == id then 1 else 0
  {
    if list != [] {
      OccurrencesOnce(list[1..], id);
      if i :| 0 <= i < |list| && list[i].id == id {
        assert i > 0 ==> list[1..][i - 1].id == id;
      }
    }
  }

  lemma {:induction false} HoldersOnce(workers: seq<Pc>, id: Id)
    requires forall v, w :: 0 <= v < w < |workers| && workers[v] != Idle && workers[w] != Idle ==>
               workers[v].raw.id != workers[w].raw.id
    ensures Holders(workers, id) ==
      if exists w :: 0 <= w < |workers| && workers[w] != Idle && workers[w].raw.id == id then 1 else 0
  {
    if workers != [] {
      HoldersOnce(workers[1..], id);
      if w :| 0 <= w < |workers| && workers[w] != Idle && workers[w].raw.id == id {
        assert w > 0 ==> workers[1..][w - 1].raw.id == id;
      }
    }
  }

  /** A message that was pushed and not yet acked or abandoned has exactly one live copy; any other id has none. */
  lemma SingleLiveCopy(form: Form, workers: nat, start: Time, steps: seq<Step>, id: Id)
    requires Happens(form, workers, start, steps)
    ensures var s := Now(form, workers, start, steps);
      Occurrences(s.waiting, id) + Holders(s.workers, id) + Occurrences(s.dead, id)
      == if id in s.place && s.place[id] != Acked && s.place[id] != Abandoned then 1 else 0
  {
    InvNow(form, workers, start, steps);
    var s := Now(form, workers, start, steps);
    forall v, w | 0 <= v < w < |s.workers| && s.workers[v] != Idle && s.workers[w] != Idle
      ensures s.workers[v].raw.id != s.workers[w].raw.id
    {
      assert s.place[s.workers[v].raw.id] == Held(v) && s.place[s.workers[w].raw.id] == Held(w);
    }
    OccurrencesOnce(s.waiting, id);
    HoldersOnce(s.workers, id);
    OccurrencesOnce(s.dead, id);
    if id in s.place && s.place[id].Held? {
      var w := s.place[id].worker;
      assert s.workers[w] != Idle && s.workers[w].raw.id == id;
    }
  }

  /** An invocation has at most one owner: a worker that holds it shares it with no list and no other worker. */
  lemma OneOwner(form: Form, workers: nat, start: Time, steps: seq<Step>, w: nat)
    requires Happens(form, workers, start, steps) && Busy(Now(form, workers, start, steps), w)
    ensures var s := Now(form, workers, start, steps);
      && s.workers[w].raw.payload.Request?
      && var inv := s.workers[w].raw.payload.invocation;
      && inv in s.created && inv !in s.calling
      && (forall m :: m in s.waiting || m in s.dead ==> m.payload.Request? && m.payload.invocation != inv)
      && (forall v :: 0 <= v < |s.workers| && v != w && s.workers[v] != Idle ==>
            s.workers[v].raw.payload.Request? && s.workers[v].raw.payload.invocation != inv)
  {
    InvNow(form, workers, start, steps);
    var s := Now(form, workers, start, steps);
    Exclusive(s, w);
    assert Addressed(s, s.workers[w].raw);
  }

  // ---------- rows ----------

  /** The updates a run makes to the table, in order. */
  function Events(form: Form, s: State, steps: seq<Step>): seq<Event>
    requires Legal(form, s, steps)
    decreases |steps|
  {
    if steps == [] then []
    else
      var n := |steps| - 1;
      var e := EventOf(Exec(form, s, steps[..n]), steps[n]);
      Events(form, s, steps[..n]) + if e.Some? then [e.value] else []
  }

  lemma {:induction false} RunRefinesTable(form: Form, s: State, steps: seq<Step>)
    requires Inv(s) && Legal(form, s, steps)
    ensures CanAll(TableOf(s), Events(form, s, steps))
    ensures AfterAll(TableOf(s), Events(form, s, steps)) == TableOf(Exec(form, s, steps))
    decreases |steps|
  {
    if steps != [] {
      var n := |steps| - 1;
      RunRefinesTable(form, s, steps[..n]);
      var mid := Exec(form, s, steps[..n]);
      InvRun(form, s, steps[..n]);
      TableStep(form, mid, steps[n]);
      Further(TableOf(s), Events(form, s, steps[..n]), EventOf(mid, steps[n]));
    }
  }

  lemma Further(table: Table, events: seq<Event>, e: Option<Event>)
    requires CanAll(table, events) && (e.Some? ==> Can(AfterAll(table, events), e.value))
    ensures var all := events + if e.Some? then [e.value] else [];
      && CanAll(table, all)
      && AfterAll(table, all) == if e.Some? then After(AfterAll(table, events), e.value) else AfterAll(table, events)
  {
    if e.Some? {
      assert (events + [e.value])[..|events|] == events;
    } else {
      assert events + [] == events;
    }
  }

  /**
   No update is lost: the unlocked get-then-update pairs leave the table exactly as the guarded,
   indivisible updates of Lifecycle would, and each invocation receives at most one result.
   */
  lemma NoLostUpdate(form: Form, workers: nat, start: Time, steps: seq<Step>)
    requires Happens(form, workers, start, steps)
    ensures var events := Events(form, Init(workers, start), steps);
      && CanAll(Table(map[], {}, start), events)
      && AfterAll(Table(map[], {}, start), events) == TableOf(Now(form, workers, start, steps))
      && forall inv :: Finishes(events, inv) <= 1
  {
    InvInit(workers, start);
    RunRefinesTable(form, Init(workers, start), steps);
    var events := Events(form, Init(workers, start), steps);
    forall inv ensures Finishes(events, inv) <= 1 {
      OneResult(Table(map[], {}, start), events, inv);
    }
  }

  lemma RowEvolves(form: Form, s: State, step: Step, inv: Id)
    requires Inv(s) && Enabled(s, step) && inv in s.created
    ensures inv in Do(form, s, step).created
    ensures inv !in s.rows ==> inv !in Do(form, s, step).rows
    ensures inv in s.rows ==> Evolves(TableOf(s), TableOf(Do(form, s, step)), inv)
    ensures inv in s.rows && inv !in Do(form, s, step).rows ==> step == DropRows(s.rows[inv].functionId)
  {
    TableStep(form, s, step);
    CreatedGrows(form, s, step);
    var e := EventOf(s, step);
    if e.Some? {
      if inv in s.rows {
        EvolvesAfter(TableOf(s), e.value, inv);
      } else {
        GoneStaysGone(TableOf(s), e.value, inv);
      }
    } else {
      assert TableOf(Do(form, s, step)) == TableOf(s);
    }
  }

  lemma CreatedGrows(form: Form, s: State, step: Step)
    requires Enabled(s, step)
    ensures s.created <= Do(form, s, step).created
    ensures forall inv :: inv in s.rows && inv !in Do(form, s, step).rows ==> step == DropRows(s.rows[inv].functionId)
  {
    if Moving(step) {
      MoveEffect(form, s, step);
    }
  }

  lemma {:induction false} RowsEvolve(form: Form, s: State, steps: seq<Step>, inv: Id)
    requires Inv(s) && Legal(form, s, steps) && inv in s.created
    ensures inv in Exec(form, s, steps).created
    ensures inv !in s.rows ==> inv !in Exec(form, s, steps).rows
    ensures inv in s.rows ==> Evolves(TableOf(s), TableOf(Exec(form, s, steps)), inv)
    ensures inv in s.rows && inv !in Exec(form, s, steps).rows ==> DropRows(s.rows[inv].functionId) in steps
    decreases |steps|
  {
    if steps != [] {
      var n := |steps| - 1;
      RowsEvolve(form, s, steps[..n], inv);
      InvRun(form, s, steps[..n]);
      var mid := Exec(form, s, steps[..n]);
      var end := Exec(form, s, steps);
      RowEvolves(form, mid, steps[n], inv);
      if inv in s.rows {
        EvolvesOn(TableOf(s), TableOf(mid), TableOf(end), inv);
      }
    }
  }

  /**
   Terminal is final: once completed, failed or timed out, a row never changes; only its function's deletion removes it.
   */
  lemma TerminalIsFinal(form: Form, workers: nat, start: Time, steps: seq<Step>, more: seq<Step>, inv: Id)
    requires Happens(form, workers, start, steps + more)
    requires Happens(form, workers, start, steps)
    requires inv in Now(form, workers, start, steps).rows
    requires Now(form, workers, start, steps).rows[inv].status.IsTerminal()
    ensures var later := Now(form, workers, start, steps + more);
      var row := Now(form, workers, start, steps).rows[inv];
      if inv in later.rows then later.rows[inv] == row else DropRows(row.functionId) in more
  {
    InvNow(form, workers, start, steps);
    ExecSplit(form, Init(workers, start), steps, more);
    RowsEvolve(form, Now(form, workers, start, steps), more, inv);
  }

  /** Rows are well shaped at every moment, and a start time never moves once it is set. */
  lemma RowShapes(form: Form, workers: nat, start: Time, steps: seq<Step>, more: seq<Step>, inv: Id)
    requires Happens(form, workers, start, steps + more)
    requires Happens(form, workers, start, steps)
    requires inv in Now(form, workers, start, steps).rows
    ensures var s := Now(form, workers, start, steps);
      && Shape(s.rows[inv], s.now)
      && var later := Now(form, workers, start, steps + more);
      inv in later.rows ==>
        && Shape(later.rows[inv], later.now)
        && (s.rows[inv].startedAt.Some? ==> later.rows[inv].startedAt == s.rows[inv].startedAt)
        && (later.rows[inv].status == Pending ==> s.rows[inv].status == Pending)
  {
    InvNow(form, workers, start, steps);
    InvNow(form, workers, start, steps + more);
    ExecSplit(form, Init(workers, start), steps, more);
    var s := Now(form, workers, start, steps);
    assert inv in s.created;
    RowsEvolve(form, s, more, inv);
  }

  // ---------- messages against rows ----------

  // The live messages: waiting, held as they were delivered, or dead.
  predicate Live(s: State, m: Message) {
    m in s.waiting || m in s.dead || exists w :: 0 <= w < |s.workers| && s.workers[w] != Idle && s.workers[w].raw == m
  }

  /** Every live message names an invocation whose row was inserted first, and no two messages name the same one. */
  lemma MessagesNameInvocations(form: Form, workers: nat, start: Time, steps: seq<Step>, m: Message, n: Message)
    requires Happens(form, workers, start, steps)
    requires Live(Now(form, workers, start, steps), m) && Live(Now(form, workers, start, steps), n)
    ensures var s := Now(form, workers, start, steps);
      && m.payload.Request? && n.payload.Request?
      && m.payload.invocation in s.created && m.payload.invocation !in s.calling && m.payload.invocation !in s.dropped
      && (m.payload.invocation == n.payload.invocation <==> m.id == n.id)
      && (m.id == n.id ==> m == n)
  {
    InvNow(form, workers, start, steps);
    var s := Now(form, workers, start, steps);
    assert Addressed(s, m) && Addressed(s, n);
    assert s.ticket[m.payload.invocation] == m.id && s.ticket[n.payload.invocation] == n.id;
    if m.id == n.id {
      SamePlace(s, m, n);
    }
  }

  lemma SamePlace(s: State, m: Message, n: Message)
    requires Places(s) && Tickets(s) && Live(s, m) && Live(s, n) && m.id == n.id
    ensures m == n && m.payload == n.payload
  {
  }

  /** A row without a message is pending, and its caller is still at work or failed to push. */
  lemma UnsentIsPending(form: Form, workers: nat, start: Time, steps: seq<Step>, inv: Id)
    requires Happens(form, workers, start, steps)
    requires inv in Now(form, workers, start, steps).rows && inv !in Now(form, workers, start, steps).ticket
    ensures var s := Now(form, workers, start, steps);
      s.rows[inv].status == Pending && (inv in s.calling || inv in s.dropped)
  {
    InvNow(form, workers, start, steps);
  }

  lemma DeadKept(s: State, e: Effect, id: Id)
    requires Places(s) && Possible(s, e) && id in s.place && s.place[id] == Dead
    ensures var t := Apply(s, e); id in t.place && t.place[id] == Dead
  {
    assert forall i :: 0 <= i < |s.waiting| ==> s.waiting[i].id != id;
  }

  lemma {:induction false} DeadStaysDead(form: Form, s: State, steps: seq<Step>, id: Id)
    requires Inv(s) && Legal(form, s, steps) && id in s.place && s.place[id] == Dead
    ensures var t := Exec(form, s, steps); id in t.place && t.place[id] == Dead
    decreases |steps|
  {
    if steps != [] {
      var n := |steps| - 1;
      DeadStaysDead(form, s, steps[..n], id);
      InvRun(form, s, steps[..n]);
      var mid := Exec(form, s, steps[..n]);
      EffectHolds(form, mid, steps[n]);
      DeadKept(mid, EffectOf(form, mid, steps[n]), id);
    }
  }

  /** Nobody ever finishes a dead-lettered invocation: its row, while it exists, is never terminal. */
  lemma DeadNeverTerminal(form: Form, workers: nat, start: Time, steps: seq<Step>, more: seq<Step>, m: Message)
    requires Happens(form, workers, start, steps + more)
    requires Happens(form, workers, start, steps)
    requires m in Now(form, workers, start, steps).dead
    ensures m.payload.Request?
    ensures var later := Now(form, workers, start, steps + more);
      m.payload.invocation in later.rows ==> !later.rows[m.payload.invocation].status.IsTerminal()
  {
    InvNow(form, workers, start, steps);
    InvNow(form, workers, start, steps + more);
    ExecSplit(form, Init(workers, start), steps, more);
    var s := Now(form, workers, start, steps);
    DeadStaysDead(form, s, more, m.id);
    var later := Now(form, workers, start, steps + more);
    assert Addressed(s, m);
    TicketsGrow(form, s, more);
    var i :| 0 <= i < |later.dead| && later.dead[i].id == m.id;
    assert Addressed(later, later.dead[i]);
    assert Owed(later, later.dead[i]);
  }

  lemma TicketsGrowStep(form: Form, s: State, step: Step)
    requires Ledger(s) && Enabled(s, step)
    ensures var t := Do(form, s, step);
      forall inv :: inv in s.ticket ==> inv in t.ticket && t.ticket[inv] == s.ticket[inv]
  {
    if !step.Send? {
      TicketsStay(form, s, step);
    }
  }

  lemma TicketsStay(form: Form, s: State, step: Step)
    requires Enabled(s, step) && !step.Send?
    ensures Do(form, s, step).ticket == s.ticket
  {
    if Moving(step) {
      MoveEffect(form, s, step);
    } else {
      OtherEffect(form, s, step);
    }
  }

  lemma {:induction false} TicketsGrow(form: Form, s: State, steps: seq<Step>)
    requires Inv(s) && Legal(form, s, steps)
    ensures var t := Exec(form, s, steps);
      forall inv :: inv in s.ticket ==> inv in t.ticket && t.ticket[inv] == s.ticket[inv]
    decreases |steps|
  {
    if steps != [] {
      var n := |steps| - 1;
      TicketsGrow(form, s, steps[..n]);
      InvRun(form, s, steps[..n]);
      TicketsGrowStep(form, Exec(form, s, steps[..n]), steps[n]);
    }
  }
}
