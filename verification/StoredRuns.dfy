/** The queue's machine over rows that keep what their columns keep: the same runs, and the same rows but for that. */
module StoredRuns {
  import opened Lifecycle
  import opened Metadata
  import opened Protocol
  import opened Types

  // ---------- records ----------

  /** The order of a row's times, and all else of its shape, survives the columns. */
  lemma ShapeIsKept(server: Server, row: Invocation, now: Time)
    requires Shape(row, now)
    ensures Shape(Kept(server, row), Micro(server, now))
  {
    MicroIsNearest(server, row.createdAt, now);
    if row.startedAt.Some? {
      MicroIsNearest(server, row.createdAt, row.startedAt.value);
      MicroIsNearest(server, row.startedAt.value, now);
    }
    if row.completedAt.Some? {
      MicroIsNearest(server, row.startedAt.value, row.completedAt.value);
      MicroIsNearest(server, row.completedAt.value, now);
    }
  }

  /** What was kept once is kept again. */
  lemma KeptTwice(server: Server, inv: Invocation)
    ensures Kept(server, Kept(server, inv)) == Kept(server, inv)
  {
    TimesTwice(server, inv.createdAt);
    if inv.startedAt.Some? {
      TimesTwice(server, inv.startedAt.value);
    }
    if inv.completedAt.Some? {
      TimesTwice(server, inv.completedAt.value);
    }
  }

  lemma TimesTwice(server: Server, t: Time)
    ensures Micro(server, Micro(server, t)) == Micro(server, t)
  {
    MicroIsNearest(server, t, t);
  }

  /** An update of a record that was read back writes what it would have written of the record itself. */
  lemma StatusMarkIsKept(server: Server, inv: Invocation, status: Status, now: Time)
    ensures Kept(server, MarkStatus(Kept(server, inv), status, now)) == Kept(server, MarkStatus(inv, status, now))
  {
    KeptTwice(server, inv);
  }

  lemma ResultMarkIsKept(server: Server, inv: Invocation, result: ExecutionResult, now: Time)
    ensures Kept(server, MarkResult(Kept(server, inv), result, now)) == Kept(server, MarkResult(inv, result, now))
  {
    KeptTwice(server, inv);
  }

  lemma PersistIsKept(server: Server, row: Invocation, record: Invocation, same: Invocation)
    requires Kept(server, record) == Kept(server, same)
    ensures Kept(server, Persist(Kept(server, row), record)) == Kept(server, Persist(row, same))
  {
    TimesTwice(server, row.createdAt);
  }

  // ---------- states ----------

  function KeptRows(server: Server, rows: map<Id, Invocation>): map<Id, Invocation> {
    map inv | inv in rows :: Kept(server, rows[inv])
  }

  // A worker's copy is what it read.
  function KeptCopy(server: Server, pc: Pc): Pc {
    match pc
    case StatusRead(raw, copy, since) => StatusRead(raw, Kept(server, copy), since)
    case ResultRead(raw, result, copy, since) => ResultRead(raw, result, Kept(server, copy), since)
    case _ => pc
  }

  function KeptCopies(server: Server, workers: seq<Pc>): (kept: seq<Pc>)
    ensures |kept| == |workers| && forall w :: 0 <= w < |workers| ==> kept[w] == KeptCopy(server, workers[w])
  {
    seq(|workers|, w requires 0 <= w < |workers| => KeptCopy(server, workers[w]))
  }

  function KeptState(server: Server, s: State): State {
    s.(rows := KeptRows(server, s.rows), workers := KeptCopies(server, s.workers))
  }

  // A step over the tables as they are: what it writes is kept as columns keep it.
  function DoKept(server: Server, form: Form, s: State, step: Step): State
    requires Enabled(s, step)
  {
    KeptState(server, Do(form, s, step))
  }

  lemma SameEnabled(server: Server, s: State, step: Step)
    ensures Enabled(KeptState(server, s), step) <==> Enabled(s, step)
  {
  }

  lemma GotoIsKept(server: Server, s: State, t: State, w: nat, pc: Pc, same: Pc)
    requires KeptState(server, s) == KeptState(server, t) && w < |s.workers|
    requires KeptCopy(server, pc) == KeptCopy(server, same)
    ensures w < |t.workers| && KeptState(server, Goto(s, w, pc)) == KeptState(server, Goto(t, w, same))
  {
    assert |KeptCopies(server, s.workers)| == |KeptCopies(server, t.workers)|;
    forall v | 0 <= v < |s.workers|
      ensures KeptCopy(server, Goto(s, w, pc).workers[v]) == KeptCopy(server, Goto(t, w, same).workers[v])
    {
      assert KeptCopies(server, s.workers)[v] == KeptCopies(server, t.workers)[v];
    }
    assert KeptCopies(server, Goto(s, w, pc).workers) == KeptCopies(server, Goto(t, w, same).workers);
  }

  lemma PutIsKept(server: Server, rows: map<Id, Invocation>, inv: Id, row: Invocation)
    ensures KeptRows(server, rows[inv := row]) == KeptRows(server, rows)[inv := Kept(server, row)]
  {
  }

  lemma WriteRow(server: Server, rows: map<Id, Invocation>, inv: Id, record: Invocation, same: Invocation)
    requires inv in rows && Kept(server, record) == Kept(server, same)
    ensures KeptRows(server, KeptRows(server, rows)[inv := Persist(Kept(server, rows[inv]), record)])
         == KeptRows(server, rows[inv := Persist(rows[inv], same)])
  {
    RowsTwice(server, rows);
    PersistIsKept(server, rows[inv], record, same);
    PutIsKept(server, KeptRows(server, rows), inv, Persist(Kept(server, rows[inv]), record));
    PutIsKept(server, rows, inv, Persist(rows[inv], same));
  }

  lemma WriteIsKept(server: Server, s: State, inv: Id, record: Invocation, same: Invocation, applied: bool)
    requires Kept(server, record) == Kept(server, same)
    ensures KeptState(server, Write(KeptState(server, s), inv, record, applied))
      == KeptState(server, Write(s, inv, same, applied))
  {
    StateTwice(server, s);
    if applied && inv in s.rows {
      WriteRow(server, s.rows, inv, record, same);
      assert KeptCopies(server, KeptCopies(server, s.workers)) == KeptCopies(server, s.workers);
    }
  }

  lemma StateTwice(server: Server, s: State)
    ensures KeptState(server, KeptState(server, s)) == KeptState(server, s)
  {
    RowsTwice(server, s.rows);
    CopiesTwice(server, s.workers);
  }

  lemma RowsTwice(server: Server, rows: map<Id, Invocation>)
    ensures KeptRows(server, KeptRows(server, rows)) == KeptRows(server, rows)
  {
    forall inv | inv in rows ensures Kept(server, Kept(server, rows[inv])) == Kept(server, rows[inv]) {
      KeptTwice(server, rows[inv]);
    }
  }

  lemma CopiesTwice(server: Server, workers: seq<Pc>)
    ensures KeptCopies(server, KeptCopies(server, workers)) == KeptCopies(server, workers)
  {
    forall w | 0 <= w < |workers|
      ensures KeptCopy(server, KeptCopy(server, workers[w])) == KeptCopy(server, workers[w])
    {
      CopyTwice(server, workers[w]);
    }
  }

  lemma CopyTwice(server: Server, pc: Pc)
    ensures KeptCopy(server, KeptCopy(server, pc)) == KeptCopy(server, pc)
  {
    if pc.StatusRead? || pc.ResultRead? {
      KeptTwice(server, pc.copy);
    }
  }

  // ---------- steps ----------

  lemma ReadStatusIsKept(server: Server, form: Form, s: State, w: nat, ok: bool)
    requires Enabled(s, ReadStatus(w, ok))
    ensures DoKept(server, form, KeptState(server, s), ReadStatus(w, ok))
      == KeptState(server, Do(form, s, ReadStatus(w, ok)))
  {
    StateTwice(server, s);
    var raw, inv := s.workers[w].raw, s.workers[w].raw.payload.invocation;
    if ok {
      KeptTwice(server, s.rows[inv]);
      GotoIsKept(server, KeptState(server, s), s, w, StatusRead(raw, Kept(server, s.rows[inv]), s.now),
                 StatusRead(raw, s.rows[inv], s.now));
    } else {
      GotoIsKept(server, KeptState(server, s), s, w, Executing(raw), Executing(raw));
    }
  }

  lemma ReadResultIsKept(server: Server, form: Form, s: State, w: nat, ok: bool)
    requires Enabled(s, ReadResult(w, ok))
    ensures DoKept(server, form, KeptState(server, s), ReadResult(w, ok))
      == KeptState(server, Do(form, s, ReadResult(w, ok)))
  {
    StateTwice(server, s);
    var pc, inv := s.workers[w], s.workers[w].raw.payload.invocation;
    if ok {
      KeptTwice(server, s.rows[inv]);
      GotoIsKept(server, KeptState(server, s), s, w, ResultRead(pc.raw, pc.result, Kept(server, s.rows[inv]), s.now),
                 ResultRead(pc.raw, pc.result, s.rows[inv], s.now));
    } else {
      GotoIsKept(server, KeptState(server, s), s, w, Acking(pc.raw), Acking(pc.raw));
    }
  }

  lemma WrittenIsKept(server: Server, s: State, w: nat, inv: Id, record: Invocation, same: Invocation, applied: bool,
                      next: Pc)
    requires w < |s.workers| && Kept(server, record) == Kept(server, same)
    ensures KeptState(server, Goto(Write(KeptState(server, s), inv, record, applied), w, next))
         == KeptState(server, Goto(Write(s, inv, same, applied), w, next))
  {
    WriteIsKept(server, s, inv, record, same, applied);
    GotoIsKept(server, Write(KeptState(server, s), inv, record, applied), Write(s, inv, same, applied), w, next, next);
  }

  lemma StatusIsKept(server: Server, form: Form, s: State, w: nat, applied: bool, t: Time)
    requires Enabled(s, WriteStatus(w, applied, t))
    ensures DoKept(server, form, KeptState(server, s), WriteStatus(w, applied, t))
         == KeptState(server, Do(form, s, WriteStatus(w, applied, t)))
  {
    var pc := s.workers[w];
    var copy := Kept(server, pc.copy);
    StatusMarkIsKept(server, pc.copy, Running, t);
    WrittenIsKept(server, s, w, pc.raw.payload.invocation, MarkStatus(copy, Running, t),
                  MarkStatus(pc.copy, Running, t), applied, Executing(pc.raw));
  }

  lemma ResultWritten(form: Form, s: State, w: nat, applied: bool, t: Time)
    requires Enabled(s, WriteResult(w, applied, t))
    ensures var pc := s.workers[w];
      && pc.ResultRead? && pc.raw.payload.Request?
      && Do(form, s, WriteResult(w, applied, t))
         == Goto(Write(s, pc.raw.payload.invocation, MarkResult(pc.copy, pc.result, t), applied), w, Acking(pc.raw))
  {
  }

  lemma ResultIsKept(server: Server, form: Form, s: State, w: nat, applied: bool, t: Time)
    requires Enabled(s, WriteResult(w, applied, t))
    ensures DoKept(server, form, KeptState(server, s), WriteResult(w, applied, t))
         == KeptState(server, Do(form, s, WriteResult(w, applied, t)))
  {
    SameEnabled(server, s, WriteResult(w, applied, t));
    assert KeptState(server, s).workers[w] == KeptCopy(server, s.workers[w]);
    ResultOver(server, form, s, KeptState(server, s), w, applied, t);
  }

  lemma ResultOver(server: Server, form: Form, s: State, kept: State, w: nat, applied: bool, t: Time)
    requires Enabled(s, WriteResult(w, applied, t)) && Enabled(kept, WriteResult(w, applied, t))
    requires kept == KeptState(server, s) && kept.workers[w] == KeptCopy(server, s.workers[w])
    ensures KeptState(server, Do(form, kept, WriteResult(w, applied, t)))
         == KeptState(server, Do(form, s, WriteResult(w, applied, t)))
  {
    var pc := s.workers[w];
    ResultWritten(form, s, w, applied, t);
    ResultWritten(form, kept, w, applied, t);
    ResultMarkIsKept(server, pc.copy, pc.result, t);
    WrittenIsKept(server, s, w, pc.raw.payload.invocation, MarkResult(Kept(server, pc.copy), pc.result, t),
                  MarkResult(pc.copy, pc.result, t), applied, Acking(pc.raw));
  }

  lemma RowsIsKept(server: Server, form: Form, s: State, step: Step)
    requires Enabled(s, step) && (step.DropRows? || step.CreateRow?)
    ensures DoKept(server, form, KeptState(server, s), step) == KeptState(server, Do(form, s, step))
  {
    StateTwice(server, s);
    match step
    case CreateRow(inv, f, at) =>
      PutIsKept(server, s.rows, inv, NewRow(f, at));
      PutIsKept(server, KeptRows(server, s.rows), inv, NewRow(f, at));
    case DropRows(f) =>
      forall inv | inv in s.rows ensures Kept(server, Kept(server, s.rows[inv])) == Kept(server, s.rows[inv]) {
        KeptTwice(server, s.rows[inv]);
      }
      assert KeptRows(server, Do(form, KeptState(server, s), step).rows) == KeptRows(server, Do(form, s, step).rows);
  }

  // A step that neither reads nor writes rows.
  predicate Aside(step: Step) {
    !step.ReadStatus? && !step.ReadResult? && !step.WriteStatus? && !step.WriteResult? && !step.DropRows?
      && !step.CreateRow?
  }

  // It looks at its own worker only; a crash, at that worker's message only.
  predicate SameToIt(step: Step, pc: Pc, other: Pc) {
    pc == other || (step.Crash? && pc.StatusRead? && other.StatusRead? && pc.raw == other.raw)
    || (step.Crash? && pc.ResultRead? && other.ResultRead? && pc.raw == other.raw)
  }

  predicate AlikeToIt(s: State, step: Step, workers: seq<Pc>)
    requires Enabled(s, step)
  {
    && |workers| == |s.workers|
    && (step.Actor().Some? ==> SameToIt(step, s.workers[step.Actor().value], workers[step.Actor().value]))
  }

  // Over other rows and workers it is possible too, and does the same.
  predicate LooksAside(form: Form, s: State, step: Step, rows: map<Id, Invocation>, workers: seq<Pc>)
    requires Enabled(s, step) && |workers| == |s.workers|
  {
    var t, next := s.(rows := rows, workers := workers), Do(form, s, step);
    && Enabled(t, step) && |next.workers| == |s.workers| && next.rows == s.rows
    && (step.Actor().None? ==>
         next.workers == s.workers && Do(form, t, step) == next.(rows := rows, workers := workers))
    && (step.Actor().Some? ==>
         var w := step.Actor().value;
         && next.workers == s.workers[w := next.workers[w]]
         && !next.workers[w].StatusRead? && !next.workers[w].ResultRead?
         && Do(form, t, step) == next.(rows := rows, workers := workers[w := next.workers[w]]))
  }

  lemma RemoveLooks(s: State, entry: Message, applied: bool, rows: map<Id, Invocation>, workers: seq<Pc>)
    ensures Remove(s.(rows := rows, workers := workers), entry, applied)
         == Remove(s, entry, applied).(rows := rows, workers := workers)
  {
  }

  lemma ReleaseLooks(s: State, w: nat, place: Place, rows: map<Id, Invocation>, workers: seq<Pc>)
    requires Busy(s, w) && |workers| == |s.workers| && workers[w] == s.workers[w]
    ensures Release(s.(rows := rows, workers := workers), w, place)
         == Release(s, w, place).(rows := rows, workers := workers[w := Idle])
  {
  }

  lemma AckLooks(form: Form, s: State, w: nat, applied: bool, rows: map<Id, Invocation>, workers: seq<Pc>)
    requires Enabled(s, Ack(w, applied)) && AlikeToIt(s, Ack(w, applied), workers)
    ensures LooksAside(form, s, Ack(w, applied), rows, workers)
  {
    var raw := s.workers[w].raw;
    var entry := Sought(form, raw, Received(raw));
    RemoveLooks(s, entry, applied, rows, workers);
    ReleaseLooks(Remove(s, entry, applied), w, if applied then Acked else Abandoned, rows, workers);
  }

  lemma CrashLooks(form: Form, s: State, w: nat, rows: map<Id, Invocation>, workers: seq<Pc>)
    requires Enabled(s, Crash(w)) && AlikeToIt(s, Crash(w), workers)
    ensures LooksAside(form, s, Crash(w), rows, workers)
  {
  }

  lemma NackRemoveLooks(form: Form, s: State, w: nat, applied: bool, rows: map<Id, Invocation>, workers: seq<Pc>)
    requires Enabled(s, NackRemove(w, applied)) && AlikeToIt(s, NackRemove(w, applied), workers)
    ensures LooksAside(form, s, NackRemove(w, applied), rows, workers)
  {
  }

  lemma NackPushLooks(form: Form, s: State, w: nat, applied: bool, rows: map<Id, Invocation>, workers: seq<Pc>)
    requires Enabled(s, NackPush(w, applied)) && AlikeToIt(s, NackPush(w, applied), workers)
    ensures LooksAside(form, s, NackPush(w, applied), rows, workers)
  {
  }

  lemma LetterRemoveLooks(form: Form, s: State, w: nat, applied: bool, rows: map<Id, Invocation>, workers: seq<Pc>)
    requires Enabled(s, LetterRemove(w, applied)) && AlikeToIt(s, LetterRemove(w, applied), workers)
    ensures LooksAside(form, s, LetterRemove(w, applied), rows, workers)
  {
  }

  lemma LetterPushLooks(form: Form, s: State, w: nat, applied: bool, rows: map<Id, Invocation>, workers: seq<Pc>)
    requires Enabled(s, LetterPush(w, applied)) && AlikeToIt(s, LetterPush(w, applied), workers)
    ensures LooksAside(form, s, LetterPush(w, applied), rows, workers)
  {
  }

  lemma RejectLooks(form: Form, s: State, w: nat, reason: string, at: string, rows: map<Id, Invocation>,
                    workers: seq<Pc>)
    requires Enabled(s, RejectPayload(w, reason, at)) && AlikeToIt(s, RejectPayload(w, reason, at), workers)
    ensures LooksAside(form, s, RejectPayload(w, reason, at), rows, workers)
  {
  }

  lemma ExecuteLooks(form: Form, s: State, w: nat, outcome: Outcome, at: string, rows: map<Id, Invocation>,
                     workers: seq<Pc>)
    requires Enabled(s, Execute(w, outcome, at)) && AlikeToIt(s, Execute(w, outcome, at), workers)
    ensures LooksAside(form, s, Execute(w, outcome, at), rows, workers)
  {
  }

  lemma DeliverLooks(form: Form, s: State, w: nat, rows: map<Id, Invocation>, workers: seq<Pc>)
    requires Enabled(s, Deliver(w)) && AlikeToIt(s, Deliver(w), workers)
    ensures LooksAside(form, s, Deliver(w), rows, workers)
  {
  }

  lemma QueueLooks(form: Form, s: State, step: Step, rows: map<Id, Invocation>, workers: seq<Pc>)
    requires Enabled(s, step) && Aside(step) && AlikeToIt(s, step, workers) && step.Actor().None?
    ensures LooksAside(form, s, step, rows, workers)
  {
  }

  lemma AsideLooks(form: Form, s: State, step: Step, rows: map<Id, Invocation>, workers: seq<Pc>)
    requires Enabled(s, step) && Aside(step) && AlikeToIt(s, step, workers)
    ensures LooksAside(form, s, step, rows, workers)
  {
    match step
    case Ack(w, applied) => AckLooks(form, s, w, applied, rows, workers);
    case Crash(w) => CrashLooks(form, s, w, rows, workers);
    case NackRemove(w, applied) => NackRemoveLooks(form, s, w, applied, rows, workers);
    case NackPush(w, applied) => NackPushLooks(form, s, w, applied, rows, workers);
    case LetterRemove(w, applied) => LetterRemoveLooks(form, s, w, applied, rows, workers);
    case LetterPush(w, applied) => LetterPushLooks(form, s, w, applied, rows, workers);
    case RejectPayload(w, reason, at) => RejectLooks(form, s, w, reason, at, rows, workers);
    case Execute(w, outcome, at) => ExecuteLooks(form, s, w, outcome, at, rows, workers);
    case Deliver(w) => DeliverLooks(form, s, w, rows, workers);
    case _ => QueueLooks(form, s, step, rows, workers);
  }

  lemma AsideIsKept(server: Server, form: Form, s: State, step: Step)
    requires Enabled(s, step) && Aside(step)
    ensures DoKept(server, form, KeptState(server, s), step) == KeptState(server, Do(form, s, step))
  {
    var workers := KeptCopies(server, s.workers);
    AsideLooks(form, s, step, KeptRows(server, s.rows), workers);
    RowsTwice(server, s.rows);
    CopiesTwice(server, s.workers);
    if step.Actor().Some? {
      var w := step.Actor().value;
      PutCopy(server, s.workers, w, Do(form, s, step).workers[w]);
    }
  }

  lemma PutCopy(server: Server, workers: seq<Pc>, w: nat, pc: Pc)
    requires w < |workers|
    ensures KeptCopies(server, KeptCopies(server, workers)[w := pc]) == KeptCopies(server, workers[w := pc])
  {
    forall v | 0 <= v < |workers|
      ensures KeptCopy(server, KeptCopy(server, workers[v])) == KeptCopy(server, workers[v])
    {
      CopyTwice(server, workers[v]);
    }
    assert KeptCopies(server, KeptCopies(server, workers)[w := pc]) == KeptCopies(server, workers[w := pc]);
  }

  lemma StepIsKept(server: Server, form: Form, s: State, step: Step)
    requires Enabled(s, step)
    ensures DoKept(server, form, KeptState(server, s), step) == KeptState(server, Do(form, s, step))
  {
    match step
    case ReadStatus(w, ok) => ReadStatusIsKept(server, form, s, w, ok);
    case ReadResult(w, ok) => ReadResultIsKept(server, form, s, w, ok);
    case WriteStatus(w, applied, t) => StatusIsKept(server, form, s, w, applied, t);
    case WriteResult(w, applied, t) => ResultIsKept(server, form, s, w, applied, t);
    case DropRows(_) => RowsIsKept(server, form, s, step);
    case CreateRow(_, _, _) => RowsIsKept(server, form, s, step);
    case _ => AsideIsKept(server, form, s, step);
  }

  // ---------- runs ----------

  predicate LegalKept(server: Server, form: Form, s: State, steps: seq<Step>)
    decreases |steps|, 0
  {
    steps == [] ||
    (var n := |steps| - 1;
     LegalKept(server, form, s, steps[..n]) && Enabled(ExecKept(server, form, s, steps[..n]), steps[n]))
  }

  function ExecKept(server: Server, form: Form, s: State, steps: seq<Step>): State
    requires LegalKept(server, form, s, steps)
    decreases |steps|, 1
  {
    if steps == [] then s
    else (var n := |steps| - 1; DoKept(server, form, ExecKept(server, form, s, steps[..n]), steps[n]))
  }

  /**
   Whatever the columns round, cut or leave out: the same steps are possible, and every run ends with the rows and
   copies of the machine over whole records, as columns keep them.
   */
  lemma {:induction false} RunIsKept(server: Server, form: Form, s: State, steps: seq<Step>)
    ensures LegalKept(server, form, KeptState(server, s), steps) <==> Legal(form, s, steps)
    ensures Legal(form, s, steps) ==>
      ExecKept(server, form, KeptState(server, s), steps) == KeptState(server, Exec(form, s, steps))
    decreases |steps|
  {
    if steps != [] {
      var n := |steps| - 1;
      RunIsKept(server, form, s, steps[..n]);
      if Legal(form, s, steps[..n]) {
        SameEnabled(server, Exec(form, s, steps[..n]), steps[n]);
        if Enabled(Exec(form, s, steps[..n]), steps[n]) {
          StepIsKept(server, form, Exec(form, s, steps[..n]), steps[n]);
        }
      }
    }
  }
}
