/** What the processing list holds: a log nobody clears as coded, the open deliveries as meant. */
module ProcessingList {
  import opened Types
  import opened Protocol
  import opened ProtocolInvariant
  import opened ProtocolTheorems

  lemma {:induction false} LRemAbsent(list: seq<Message>, entry: Message)
    requires entry !in list
    ensures LRem(list, entry) == list
  {
    if list != [] {
      LRemAbsent(list[1..], entry);
    }
  }

  lemma {:induction false} LRemOne(list: seq<Message>, entry: Message)
    requires entry in list
    ensures multiset(LRem(list, entry)) == multiset(list) - multiset{entry}
  {
    assert list == [list[0]] + list[1..];
    if list[0] != entry {
      LRemOne(list[1..], entry);
    }
  }

  // ---------- as coded ----------

  lemma {:induction false} ReversedSnoc(a: seq<Message>, m: Message)
    ensures Reversed(a + [m]) == [m] + Reversed(a)
  {
    if a == [] {
      assert [] + [m] == [m];
    } else {
      assert (a + [m])[1..] == a[1..] + [m];
      ReversedSnoc(a[1..], m);
    }
  }

  // Every entry of the log carries fewer attempts than its message now has.
  lemma {:induction false} NumberedBelow(log: seq<Message>, m: Message)
    requires Numbered(log) && m in log
    ensures m.attempts < Count(log, m.id)
  {
    var n := |log| - 1;
    if m in log[..n] {
      NumberedBelow(log[..n], m);
    }
  }

  // The settle calls look for an entry that is not there.
  lemma NothingSought(s: State, w: nat, entry: Message)
    requires Attempts(s) && Letters(s) && Busy(s, w) && s.processing == Reversed(s.deliveries)
    requires entry == Received(s.workers[w].raw) || (s.workers[w].DeadLettering? && entry == s.workers[w].letter)
    ensures LRem(s.processing, entry) == s.processing
  {
    if entry in s.processing {
      ReversedSame(s.deliveries);
      NumberedBelow(s.deliveries, entry);
    }
    LRemAbsent(s.processing, entry);
  }

  lemma LogStep(s: State, step: Step)
    requires Attempts(s) && Letters(s) && s.processing == Reversed(s.deliveries) && Enabled(s, step)
    ensures var t := Do(AsCoded, s, step); t.processing == Reversed(t.deliveries)
  {
    match step
    case Deliver(_) => ReversedSnoc(s.deliveries, s.waiting[|s.waiting| - 1]);
    case LoseDelivery => ReversedSnoc(s.deliveries, s.waiting[|s.waiting| - 1]);
    case Ack(w, _) => NothingSought(s, w, Received(s.workers[w].raw));
    case NackRemove(w, _) => NothingSought(s, w, Received(s.workers[w].raw));
    case LetterRemove(w, _) => NothingSought(s, w, s.workers[w].letter);
    case _ =>
  }

  lemma {:induction false} LogRun(s: State, steps: seq<Step>)
    requires Inv(s) && s.processing == Reversed(s.deliveries) && Legal(AsCoded, s, steps)
    ensures var t := Exec(AsCoded, s, steps); t.processing == Reversed(t.deliveries)
    decreases |steps|
  {
    if steps != [] {
      var n := |steps| - 1;
      LogRun(s, steps[..n]);
      InvRun(AsCoded, s, steps[..n]);
      LogStep(Exec(AsCoded, s, steps[..n]), steps[n]);
    }
  }

  lemma LogNow(workers: nat, start: Time, steps: seq<Step>)
    requires Happens(AsCoded, workers, start, steps)
    ensures Now(AsCoded, workers, start, steps).processing == Reversed(Now(AsCoded, workers, start, steps).deliveries)
  {
    InvInit(workers, start);
    LogRun(Init(workers, start), steps);
  }

  // Entries of the list that carry the given id and attempts.
  function Entries(list: seq<Message>, id: Id, attempts: nat): nat {
    if list == [] then 0
    else Entries(list[1..], id, attempts) + if list[0].id == id && list[0].attempts == attempts then 1 else 0
  }

  lemma {:induction false} EntriesOfLog(log: seq<Message>, id: Id, k: nat)
    requires Numbered(log)
    ensures Entries(Reversed(log), id, k) == if k < Count(log, id) then 1 else 0
  {
    if log != [] {
      var n := |log| - 1;
      EntriesOfLog(log[..n], id, k);
      ReversedSnoc(log[..n], log[n]);
      assert log[..n] + [log[n]] == log;
    }
  }

  /**
   As coded, nothing ever leaves the processing list: it is the complete log of deliveries, newest first,
   with exactly one entry for each past delivery of each message.
   */
  lemma ProcessingIsDeliveryLog(workers: nat, start: Time, steps: seq<Step>)
    requires Happens(AsCoded, workers, start, steps)
    ensures var s := Now(AsCoded, workers, start, steps);
      && s.processing == Reversed(s.deliveries) && |s.processing| == |s.deliveries|
      && forall id, k: nat :: Entries(s.processing, id, k) == if k < Count(s.deliveries, id) then 1 else 0
  {
    var s := Now(AsCoded, workers, start, steps);
    LogNow(workers, start, steps);
    InvNow(AsCoded, workers, start, steps);
    forall id, k: nat ensures Entries(s.processing, id, k) == if k < Count(s.deliveries, id) then 1 else 0 {
      EntriesOfLog(s.deliveries, id, k);
    }
    ReversedSame(s.deliveries);
  }

  /** As coded, the LREM of Ack, Nack and DeadLetter matches no entry, whoever calls them and whenever. */
  lemma SettleRemovesNothing(workers: nat, start: Time, steps: seq<Step>, step: Step)
    requires Happens(AsCoded, workers, start, steps) && Enabled(Now(AsCoded, workers, start, steps), step)
    requires step.Ack? || step.NackRemove? || step.LetterRemove?
    ensures Do(AsCoded, Now(AsCoded, workers, start, steps), step).processing
      == Now(AsCoded, workers, start, steps).processing
  {
    LogNow(workers, start, steps);
    InvNow(AsCoded, workers, start, steps);
    SettleKeeps(Now(AsCoded, workers, start, steps), step);
  }

  lemma SettleKeeps(s: State, step: Step)
    requires Attempts(s) && Letters(s) && s.processing == Reversed(s.deliveries) && Enabled(s, step)
    requires step.Ack? || step.NackRemove? || step.LetterRemove?
    ensures Do(AsCoded, s, step).processing == s.processing
  {
    NothingSought(s, step.w, if step.LetterRemove? then s.workers[step.w].letter else Received(s.workers[step.w].raw));
  }

  // ---------- as meant ----------

  // The delivered entry a worker still has to remove.
  function Own(pc: Pc): multiset<Message> {
    match pc
    case Idle => multiset{}
    case Nacking(raw, removed) => if removed then multiset{} else multiset{raw}
    case DeadLettering(raw, _, removed) => if removed then multiset{} else multiset{raw}
    case _ => multiset{pc.raw}
  }

  function InFlight(workers: seq<Pc>): multiset<Message> {
    if workers == [] then multiset{} else Own(workers[0]) + InFlight(workers[1..])
  }

  lemma Exchange(first: multiset<Message>, rest: multiset<Message>, out: multiset<Message>, into: multiset<Message>)
    requires out <= rest
    ensures out <= first + rest && first + (rest - out + into) == first + rest - out + into
  {
  }

  lemma {:induction false} InFlightUpdate(workers: seq<Pc>, w: nat, pc: Pc)
    requires w < |workers|
    ensures Own(workers[w]) <= InFlight(workers)
    ensures InFlight(workers[w := pc]) == InFlight(workers) - Own(workers[w]) + Own(pc)
  {
    var next := workers[w := pc];
    if w == 0 {
      assert next[1..] == workers[1..];
      Exchange(InFlight(workers[1..]), Own(workers[0]), Own(workers[0]), Own(pc));
    } else {
      InFlightUpdate(workers[1..], w - 1, pc);
      assert next[1..] == workers[1..][w - 1 := pc];
      Exchange(Own(workers[0]), InFlight(workers[1..]), Own(workers[w]), Own(pc));
    }
  }

  // The delivered entries a step gives up without removing them.
  function Leak(s: State, step: Step): multiset<Message>
    requires Enabled(s, step)
  {
    match step
    case LoseDelivery => multiset{s.waiting[|s.waiting| - 1]}
    case Ack(w, applied) => if applied then multiset{} else Own(s.workers[w])
    case NackRemove(w, applied) => if applied then multiset{} else Own(s.workers[w])
    case LetterRemove(w, applied) => if applied then multiset{} else Own(s.workers[w])
    case Crash(w) => Own(s.workers[w])
    case _ => multiset{}
  }

  function Leaks(form: Form, s: State, steps: seq<Step>): multiset<Message>
    requires Legal(form, s, steps)
    decreases |steps|
  {
    if steps == [] then multiset{}
    else (var n := |steps| - 1; Leaks(form, s, steps[..n]) + Leak(Exec(form, s, steps[..n]), steps[n]))
  }

  lemma RemovalMoves(s: State, step: Step)
    requires Enabled(s, step) && (step.Ack? || step.NackRemove? || step.LetterRemove?)
    ensures var t := Do(AsMeant, s, step); var raw := s.workers[step.w].raw;
      t.processing == if step.applied then LRem(s.processing, raw) else s.processing
    ensures Do(AsMeant, s, step).workers == s.workers[step.w := Do(AsMeant, s, step).workers[step.w]]
    ensures Own(s.workers[step.w]) == multiset{s.workers[step.w].raw}
    ensures Own(Do(AsMeant, s, step).workers[step.w]) == multiset{}
    ensures Leak(s, step) == (if step.applied then multiset{} else multiset{s.workers[step.w].raw})
  {
  }

  // A worker whose entry leaves its hands, out of the list or not.
  lemma LetGo(list: seq<Message>, workers: seq<Pc>, w: nat, pc: Pc, leaked: multiset<Message>, removed: bool)
    requires multiset(list) == InFlight(workers) + leaked
    requires w < |workers| && workers[w] != Idle && Own(workers[w]) == multiset{workers[w].raw} && Own(pc) == multiset{}
    ensures removed ==> multiset(LRem(list, workers[w].raw)) == InFlight(workers[w := pc]) + leaked
    ensures !removed ==> multiset(list) == InFlight(workers[w := pc]) + leaked + multiset{workers[w].raw}
  {
    var raw := workers[w].raw;
    InFlightUpdate(workers, w, pc);
    assert raw in multiset(list);
    LRemOne(list, raw);
    Less(multiset(list), InFlight(workers), leaked, raw);
  }

  lemma Less(all: multiset<Message>, flying: multiset<Message>, leaked: multiset<Message>, raw: Message)
    requires all == flying + leaked && raw in flying
    ensures all - multiset{raw} == flying - multiset{raw} + leaked
    ensures all == flying - multiset{raw} + leaked + multiset{raw}
  {
  }

  lemma KeptEntry(s: State, step: Step)
    requires Enabled(s, step) && Moving(step) && !step.NackRemove? && !step.LetterRemove?
    ensures var t := Do(AsMeant, s, step);
      && t.processing == s.processing && t.workers == s.workers[step.w := t.workers[step.w]]
      && Own(s.workers[step.w]) == multiset{s.workers[step.w].raw}
        && Own(t.workers[step.w]) == multiset{s.workers[step.w].raw}
  {
  }

  lemma LeftEntry(s: State, step: Step)
    requires Enabled(s, step) && (step.NackPush? || step.LetterPush? || step.Crash?)
    ensures var t := Do(AsMeant, s, step);
      t.processing == s.processing && t.workers == s.workers[step.w := Idle]
    ensures Own(s.workers[step.w]) == Leak(s, step)
  {
  }

  ghost predicate Balanced(s: State, leaked: multiset<Message>) {
    multiset(s.processing) == InFlight(s.workers) + leaked
  }

  lemma RemovalBalanced(s: State, t: State, w: nat, removed: bool, lost: multiset<Message>, leaked: multiset<Message>)
    requires Balanced(s, leaked) && Busy(s, w) && |t.workers| == |s.workers|
    requires t.workers == s.workers[w := t.workers[w]]
    requires Own(s.workers[w]) == multiset{s.workers[w].raw} && Own(t.workers[w]) == multiset{}
    requires t.processing == if removed then LRem(s.processing, s.workers[w].raw) else s.processing
    requires lost == if removed then multiset{} else multiset{s.workers[w].raw}
    ensures Balanced(t, leaked + lost)
  {
    LetGo(s.processing, s.workers, w, t.workers[w], leaked, removed);
  }

  lemma MeantRemoval(s: State, step: Step, leaked: multiset<Message>)
    requires Balanced(s, leaked) && Enabled(s, step) && (step.Ack? || step.NackRemove? || step.LetterRemove?)
    ensures Balanced(Do(AsMeant, s, step), leaked + Leak(s, step))
  {
    RemovalMoves(s, step);
    RemovalBalanced(s, Do(AsMeant, s, step), step.w, step.applied, Leak(s, step), leaked);
  }

  lemma Rebalanced(s: State, t: State, w: nat, popped: seq<Message>, lost: multiset<Message>, leaked: multiset<Message>)
    requires Balanced(s, leaked) && t.processing == popped + s.processing
    requires w < |s.workers| && |t.workers| == |s.workers| && t.workers == s.workers[w := t.workers[w]]
    requires Own(s.workers[w]) + multiset(popped) == Own(t.workers[w]) + lost
    ensures Balanced(t, leaked + lost)
  {
    InFlightUpdate(s.workers, w, t.workers[w]);
    Given(multiset(s.processing), InFlight(s.workers), leaked, Own(s.workers[w]), multiset(popped),
          Own(t.workers[w]), lost);
  }

  lemma Given(all: multiset<Message>, flying: multiset<Message>, leaked: multiset<Message>,
              had: multiset<Message>, got: multiset<Message>, kept: multiset<Message>, lost: multiset<Message>)
    requires all == flying + leaked && had <= flying && had + got == kept + lost
    ensures got + all == flying - had + kept + (leaked + lost)
  {
    forall m ensures (got + all)[m] == (flying - had + kept + (leaked + lost))[m] {
      assert (had + got)[m] == (kept + lost)[m];
    }
  }

  lemma MeantMoves(s: State, step: Step, leaked: multiset<Message>)
    requires Balanced(s, leaked) && Enabled(s, step) && step.Actor().Some?
    requires !(step.Deliver? || step.Ack? || step.NackRemove? || step.LetterRemove?)
    ensures Balanced(Do(AsMeant, s, step), leaked + Leak(s, step))
  {
    if Moving(step) {
      KeptEntry(s, step);
    } else {
      LeftEntry(s, step);
    }
    Rebalanced(s, Do(AsMeant, s, step), step.Actor().value, [], Leak(s, step), leaked);
  }

  lemma MeantDeliver(s: State, step: Step, leaked: multiset<Message>)
    requires Balanced(s, leaked) && Enabled(s, step) && step.Deliver?
    ensures Balanced(Do(AsMeant, s, step), leaked + Leak(s, step))
  {
    var raw := s.waiting[|s.waiting| - 1];
    Rebalanced(s, Do(AsMeant, s, step), step.w, [raw], multiset{}, leaked);
  }

  lemma MeantLoss(s: State, step: Step, leaked: multiset<Message>)
    requires Balanced(s, leaked) && Enabled(s, step) && step.LoseDelivery?
    ensures Balanced(Do(AsMeant, s, step), leaked + Leak(s, step))
  {
    var raw := s.waiting[|s.waiting| - 1];
    assert multiset([raw] + s.processing) == multiset{raw} + multiset(s.processing);
  }

  lemma MeantStep(s: State, step: Step, leaked: multiset<Message>)
    requires Balanced(s, leaked) && Enabled(s, step)
    ensures Balanced(Do(AsMeant, s, step), leaked + Leak(s, step))
  {
    if step.Ack? || step.NackRemove? || step.LetterRemove? {
      MeantRemoval(s, step, leaked);
    } else if step.Deliver? {
      MeantDeliver(s, step, leaked);
    } else if step.LoseDelivery? {
      MeantLoss(s, step, leaked);
    } else if step.Actor().Some? {
      MeantMoves(s, step, leaked);
    }
  }

  /** As meant, the processing list is exactly the deliveries still in flight and those given up without removal. */
  lemma {:induction false} ProcessingIsOpenDeliveries(workers: nat, start: Time, steps: seq<Step>)
    requires Happens(AsMeant, workers, start, steps)
    ensures var s := Now(AsMeant, workers, start, steps);
      multiset(s.processing) == InFlight(s.workers) + Leaks(AsMeant, Init(workers, start), steps)
    decreases |steps|
  {
    if steps != [] {
      var n := |steps| - 1;
      ProcessingIsOpenDeliveries(workers, start, steps[..n]);
      MeantStep(Now(AsMeant, workers, start, steps[..n]), steps[n], Leaks(AsMeant, Init(workers, start), steps[..n]));
    } else {
      NothingInFlight(workers);
    }
  }

  lemma {:induction false} NothingInFlight(workers: nat)
    ensures InFlight(seq(workers, _ => Idle)) == multiset{}
  {
    if workers > 0 {
      NothingInFlight(workers - 1);
      assert seq(workers, _ => Idle)[1..] == seq(workers - 1, _ => Idle);
    }
  }

  lemma OwnIsListed(list: seq<Message>, workers: seq<Pc>, w: nat, leaked: multiset<Message>)
    requires multiset(list) == InFlight(workers) + leaked
    requires w < |workers| && workers[w] != Idle && Own(workers[w]) == multiset{workers[w].raw}
    ensures workers[w].raw in list
  {
    InFlightUpdate(workers, w, Idle);
    assert workers[w].raw in multiset(list);
  }

  /** As meant, a settle call takes out one entry, the one its worker was delivered. */
  lemma SettleRemovesItsOwn(workers: nat, start: Time, steps: seq<Step>, step: Step)
    requires Happens(AsMeant, workers, start, steps) && Enabled(Now(AsMeant, workers, start, steps), step)
    requires (step.Ack? || step.NackRemove? || step.LetterRemove?) && step.applied
    ensures var s := Now(AsMeant, workers, start, steps);
      && s.workers[step.w].raw in s.processing
      && multiset(Do(AsMeant, s, step).processing) == multiset(s.processing) - multiset{s.workers[step.w].raw}
  {
    var s := Now(AsMeant, workers, start, steps);
    ProcessingIsOpenDeliveries(workers, start, steps);
    RemovalMoves(s, step);
    OwnIsListed(s.processing, s.workers, step.w, Leaks(AsMeant, Init(workers, start), steps));
    LRemOne(s.processing, s.workers[step.w].raw);
  }
}
