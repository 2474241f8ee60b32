/**
 The rate limiter when its pipelines overlap: the clock is read first, the four commands follow one by one,
 and anything may happen in between, the key's expiry included.
 */
module RateLimitOverlap {
  import opened RateLimit
  import opened Sets
  import opened Types

  datatype Stage = Started | Pruned | Counted(count: nat) | Added(count: nat) | Done(count: nat)

  datatype Pipe = Pipe(t: Time, stage: Stage) {
    predicate Active() {
      !stage.Done?
    }

    // The request's member is or was in the set.
    predicate Stored() {
      stage.Added? || stage.Done?
    }

    predicate Passed(limit: nat) {
      match stage
      case Counted(c) => c < limit
      case Added(c) => c < limit
      case Done(c) => c < limit
      case _ => false
    }
  }

  // A limit, a window, at most overlap pipelines at a time, each done within latency of its clock read.
  datatype Config = Config(limit: nat, window: nat, overlap: nat, latency: nat) {
    predicate Valid() {
      overlap >= 1 && window + latency <= Lifetime(window)
    }
  }

  datatype State = State(now: Time, key: ZSet, pipes: seq<Pipe>)

  datatype Step = Tick(t: Time) | Begin | Prune(i: nat) | Card(i: nat) | Add(i: nat) | Expire(i: nat) | DropKey

  function UnderWay(s: State): set<nat> {
    set i: nat | i < |s.pipes| && s.pipes[i].Active()
  }

  predicate Enabled(c: Config, s: State, step: Step) {
    match step
    case Tick(t) => s.now <= t && forall i :: 0 <= i < |s.pipes| && s.pipes[i].Active() ==>
      t <= s.pipes[i].t + c.latency
    case Begin => |UnderWay(s)| < c.overlap && forall i :: 0 <= i < |s.pipes| ==> s.pipes[i].t != s.now
    case Prune(i) => i < |s.pipes| && s.pipes[i].stage == Started
    case Card(i) => i < |s.pipes| && s.pipes[i].stage == Pruned
    case Add(i) => i < |s.pipes| && s.pipes[i].stage.Counted?
    case Expire(i) => i < |s.pipes| && s.pipes[i].stage.Added?
    case DropKey => s.key.expiresAt.Some? && s.key.expiresAt.value <= s.now
  }

  function Put(s: State, i: nat, stage: Stage): State
    requires i < |s.pipes|
  {
    s.(pipes := s.pipes[i := s.pipes[i].(stage := stage)])
  }

  function Do(c: Config, s: State, step: Step): State
    requires Enabled(c, s, step)
  {
    match step
    case Tick(t) => s.(now := t)
    case Begin => s.(pipes := s.pipes + [Pipe(s.now, Started)])
    case Prune(i) => Put(s.(key := RemoveUpTo(s.key, s.pipes[i].t - c.window)), i, Pruned)
    case Card(i) => Put(s, i, Counted(|s.key.members|))
    case Add(i) => Put(s.(key := AddMember(s.key, s.pipes[i].t)), i, Added(s.pipes[i].stage.count))
    case Expire(i) => Put(s.(key := SetExpiry(s.key, s.now + Lifetime(c.window))), i, Done(s.pipes[i].stage.count))
    case DropKey => s.(key := NOTHING)
  }

  function Init(now: Time): State {
    State(now, NOTHING, [])
  }

  ghost predicate Run(c: Config, s: State, steps: seq<Step>, t: State)
    decreases |steps|
  {
    if steps == [] then s == t
    else Enabled(c, s, steps[0]) && Run(c, Do(c, s, steps[0]), steps[1..], t)
  }

  // ---------- the key's expiry ----------

  // When the key's expiry was last set.
  function LastSet(c: Config, s: State): int
    requires s.key.expiresAt.Some?
  {
    s.key.expiresAt.value - Lifetime(c.window)
  }

  // A member added after that, whose own EXPIRE is still to come.
  predicate Pending(p: Pipe) {
    p.stage.Added?
  }

  ghost predicate StoredBy(pipes: seq<Pipe>, m: Time) {
    exists i :: 0 <= i < |pipes| && pipes[i].t == m && pipes[i].Stored()
  }

  ghost predicate PendingFor(pipes: seq<Pipe>, m: Time) {
    exists i :: 0 <= i < |pipes| && pipes[i].t == m && Pending(pipes[i])
  }

  ghost predicate Clocks(c: Config, s: State) {
    && (forall i :: 0 <= i < |s.pipes| ==> s.pipes[i].t <= s.now)
    && (forall i, j :: 0 <= i < j < |s.pipes| ==> s.pipes[i].t != s.pipes[j].t)
    && (forall i :: 0 <= i < |s.pipes| && s.pipes[i].Active() ==> s.now <= s.pipes[i].t + c.latency)
    && |UnderWay(s)| <= c.overlap
  }

  ghost predicate Members(c: Config, s: State) {
    && (forall m :: m in s.key.members ==> StoredBy(s.pipes, m))
    && (s.key.expiresAt.Some? ==> s.key.members != {} && LastSet(c, s) <= s.now)
  }

  // A member a pruned pipeline can find beyond its window was added since then: its EXPIRE is still to
  // come, or came since then.
  ghost predicate Recent(c: Config, s: State, p: Pipe, m: Time) {
    || m > p.t - c.window
    || PendingFor(s.pipes, m)
    || (s.key.expiresAt.Some? && LastSet(c, s) >= p.t)
  }

  predicate Counting(p: Pipe) {
    p.stage.Pruned? || p.stage.Counted?
  }

  ghost predicate Refreshed(c: Config, s: State) {
    forall i, m :: 0 <= i < |s.pipes| && Counting(s.pipes[i]) && m in s.key.members ==> Recent(c, s, s.pipes[i], m)
  }

  // A pipeline whose EXPIRE comes before the key's present expiry.
  ghost predicate Rescuer(c: Config, s: State, p: Pipe) {
    s.key.expiresAt.Some? && Pending(p) && (p.t < LastSet(c, s) + c.window || p.t <= LastSet(c, s))
  }

  // A member younger than the last EXPIRE is rescued by the next.
  ghost predicate Rescued(c: Config, s: State) {
    s.key.expiresAt.Some? && (exists m :: m in s.key.members && m > LastSet(c, s)) ==>
      exists j :: 0 <= j < |s.pipes| && Rescuer(c, s, s.pipes[j])
  }

  ghost predicate Expiry(c: Config, s: State) {
    Clocks(c, s) && Members(c, s) && Refreshed(c, s) && Rescued(c, s)
  }

  lemma LifetimeLong(window: nat)
    ensures window + 59 * SECOND < Lifetime(window) <= window + 60 * SECOND
  {
  }

  lemma DropOld(c: Config, s: State, m: Time)
    requires c.Valid() && Expiry(c, s) && Enabled(c, s, DropKey) && m in s.key.members
    ensures m <= s.now - c.window
    ensures forall i :: 0 <= i < |s.pipes| && s.pipes[i].Active() && c.window > 0 ==> m <= s.pipes[i].t - c.window
  {
    LifetimeLong(c.window);
  }

  lemma ClocksStep(c: Config, s: State, step: Step)
    requires Clocks(c, s) && Enabled(c, s, step)
    ensures Clocks(c, Do(c, s, step))
  {
    RunningStep(c, s, step);
  }

  lemma RunningStep(c: Config, s: State, step: Step)
    requires Enabled(c, s, step) && |UnderWay(s)| <= c.overlap
    ensures |UnderWay(Do(c, s, step))| <= c.overlap
  {
    var t := Do(c, s, step);
    if step.Begin? {
      assert UnderWay(t) == UnderWay(s) + {|s.pipes|};
    } else {
      assert UnderWay(t) <= UnderWay(s);
      Subset(UnderWay(t), UnderWay(s));
    }
  }

  // Pipelines keep their instants, what is stored stays stored, and only its own EXPIRE ends a pending.
  lemma PipesStep(c: Config, s: State, step: Step)
    requires Enabled(c, s, step)
    ensures |s.pipes| <= |Do(c, s, step).pipes|
    ensures forall i :: 0 <= i < |s.pipes| ==>
      var p, q := s.pipes[i], Do(c, s, step).pipes[i];
      && q.t == p.t && (p.Stored() ==> q.Stored()) && (Pending(p) && step != Expire(i) ==> Pending(q))
      && (Counting(q) && !Counting(p) ==> step == Prune(i))
    ensures forall m :: StoredBy(s.pipes, m) ==> StoredBy(Do(c, s, step).pipes, m)
    ensures forall m :: PendingFor(s.pipes, m) && !step.Expire? ==> PendingFor(Do(c, s, step).pipes, m)
  {
    var t := Do(c, s, step);
    forall m | StoredBy(s.pipes, m) ensures StoredBy(t.pipes, m) {
      var i :| 0 <= i < |s.pipes| && s.pipes[i].t == m && s.pipes[i].Stored();
      assert t.pipes[i].t == m;
    }
    forall m | PendingFor(s.pipes, m) && !step.Expire? ensures PendingFor(t.pipes, m) {
      var i :| 0 <= i < |s.pipes| && s.pipes[i].t == m && Pending(s.pipes[i]);
      assert t.pipes[i].t == m;
    }
  }

  lemma MembersStep(c: Config, s: State, step: Step)
    requires Clocks(c, s) && Members(c, s) && Enabled(c, s, step)
    ensures Members(c, Do(c, s, step))
  {
    PipesStep(c, s, step);
    if step.Add? {
      assert Do(c, s, step).pipes[step.i].t == s.pipes[step.i].t;
    }
  }

  lemma RefreshedStep(c: Config, s: State, step: Step)
    requires Expiry(c, s) && Enabled(c, s, step)
    ensures Refreshed(c, Do(c, s, step))
  {
    var t := Do(c, s, step);
    PipesStep(c, s, step);
    forall i, m | 0 <= i < |t.pipes| && Counting(t.pipes[i]) && m in t.key.members ensures Recent(c, t, t.pipes[i], m) {
      if step.Add? && m == s.pipes[step.i].t {
        assert t.pipes[step.i].t == m && Pending(t.pipes[step.i]);
      } else if step != Prune(i) {
        RecentStays(c, s, step, i, m);
      }
    }
  }

  lemma RecentStays(c: Config, s: State, step: Step, i: nat, m: Time)
    requires Expiry(c, s) && Enabled(c, s, step) && i < |s.pipes| && Counting(s.pipes[i]) && m in s.key.members
    requires m in Do(c, s, step).key.members && i < |Do(c, s, step).pipes| && Do(c, s, step).pipes[i].t == s.pipes[i].t
    ensures Recent(c, Do(c, s, step), s.pipes[i], m)
  {
    assert Recent(c, s, s.pipes[i], m);
    PipesStep(c, s, step);
  }

  lemma RescuedAdd(c: Config, s: State, i: nat)
    requires Expiry(c, s) && Enabled(c, s, Add(i))
    ensures Rescued(c, Do(c, s, Add(i)))
  {
    var t := Do(c, s, Add(i));
    if t.key.expiresAt.Some? && exists m :: m in t.key.members && m > LastSet(c, t) {
      if m :| m in s.key.members && m > LastSet(c, s) {
        var j :| 0 <= j < |s.pipes| && Rescuer(c, s, s.pipes[j]);
        assert Rescuer(c, t, t.pipes[j]);
      } else {
        AddRescued(c, s, i);
      }
    }
  }

  // No member is younger than the last EXPIRE before the step: the new one, or one it found, is the rescuer.
  lemma AddRescued(c: Config, s: State, i: nat)
    requires Expiry(c, s) && Enabled(c, s, Add(i)) && s.key.expiresAt.Some?
    requires forall m :: m in s.key.members ==> m <= LastSet(c, s)
    ensures var t := Do(c, s, Add(i)); exists j :: 0 <= j < |t.pipes| && Rescuer(c, t, t.pipes[j])
  {
    var t := Do(c, s, Add(i));
    var z :| z in s.key.members;
    assert Recent(c, s, s.pipes[i], z);
    if s.pipes[i].t < LastSet(c, s) + c.window || s.pipes[i].t <= LastSet(c, s) {
      assert Rescuer(c, t, t.pipes[i]);
    } else {
      var j :| 0 <= j < |s.pipes| && s.pipes[j].t == z && Pending(s.pipes[j]);
      assert Rescuer(c, t, t.pipes[j]);
    }
  }

  lemma RescuedExpire(c: Config, s: State, i: nat)
    requires Clocks(c, s) && Members(c, s) && Enabled(c, s, Expire(i))
    ensures Rescued(c, Do(c, s, Expire(i)))
  {
    var t := Do(c, s, Expire(i));
    if t.key.expiresAt.Some? {
      forall m | m in t.key.members ensures m <= s.now {
        assert StoredBy(s.pipes, m);
      }
    }
  }

  lemma RescuedElse(c: Config, s: State, step: Step)
    requires Expiry(c, s) && Enabled(c, s, step) && !step.Add? && !step.Expire? && !step.DropKey?
    ensures Rescued(c, Do(c, s, step))
  {
    var t := Do(c, s, step);
    if t.key.expiresAt.Some? && exists m :: m in t.key.members && m > LastSet(c, t) {
      var j :| 0 <= j < |s.pipes| && Rescuer(c, s, s.pipes[j]);
      PipesStep(c, s, step);
      assert Rescuer(c, t, t.pipes[j]);
    }
  }

  lemma RescuedStep(c: Config, s: State, step: Step)
    requires Expiry(c, s) && Enabled(c, s, step)
    ensures Rescued(c, Do(c, s, step))
  {
    match step
    case Add(i) => RescuedAdd(c, s, i);
    case Expire(i) => RescuedExpire(c, s, i);
    case DropKey =>
    case _ => RescuedElse(c, s, step);
  }

  lemma ExpiryStep(c: Config, s: State, step: Step)
    requires Expiry(c, s) && Enabled(c, s, step)
    ensures Expiry(c, Do(c, s, step))
  {
    ClocksStep(c, s, step);
    MembersStep(c, s, step);
    RefreshedStep(c, s, step);
    RescuedStep(c, s, step);
  }

  lemma {:induction false} ExpiryRun(c: Config, s: State, steps: seq<Step>, t: State)
    requires Expiry(c, s) && Run(c, s, steps, t)
    ensures Expiry(c, t)
    decreases |steps|
  {
    if steps != [] {
      ExpiryStep(c, s, steps[0]);
      ExpiryRun(c, Do(c, s, steps[0]), steps[1..], t);
    }
  }

  /**
   However the pipelines interleave, the key never expires with a member that any request, begun or to come, could still
   have to count.
   */
  lemma DroppedAreOld(c: Config, start: Time, steps: seq<Step>, s: State, m: Time)
    requires c.Valid() && Run(c, Init(start), steps, s) && Enabled(c, s, DropKey) && m in s.key.members
    ensures m <= s.now - c.window
    ensures forall i :: 0 <= i < |s.pipes| && s.pipes[i].Active() && c.window > 0 ==> m <= s.pipes[i].t - c.window
  {
    assert UnderWay(Init(start)) == {};
    ExpiryRun(c, Init(start), steps, s);
    DropOld(c, s, m);
  }

  // ---------- the bound ----------

  predicate Inside(c: Config, from: int, p: Pipe) {
    from < p.t <= from + c.window
  }

  function PassedIn(c: Config, s: State, from: int): set<nat> {
    set i: nat | i < |s.pipes| && Inside(c, from, s.pipes[i]) && s.pipes[i].Passed(c.limit)
  }

  // Pipelines inside the interval that have not counted yet.
  function OpenIn(c: Config, s: State, from: int): set<nat> {
    set i: nat | i < |s.pipes| && Inside(c, from, s.pipes[i]) && (s.pipes[i].stage.Started? || s.pipes[i].stage.Pruned?)
  }

  function StoredIn(c: Config, s: State, from: int): set<nat> {
    set i: nat | i < |s.pipes| && Inside(c, from, s.pipes[i]) && s.pipes[i].Stored()
  }

  // As long as nothing inside the interval was removed, everything inside is counted.
  ghost predicate Complete(c: Config, s: State, from: int) {
    && (forall i :: 0 <= i < |s.pipes| && Inside(c, from, s.pipes[i]) && s.pipes[i].Stored() ==>
        s.pipes[i].t in s.key.members)
    && |PassedIn(c, s, from)| <= c.limit + c.overlap - 1
  }

  // Afterwards the interval is over: only pipelines already open can still pass.
  ghost predicate Over(c: Config, s: State, from: int) {
    && s.now > from + c.window
    && |PassedIn(c, s, from)| + |OpenIn(c, s, from)| <= c.limit + 2 * (c.overlap - 1)
  }

  ghost predicate Bounded(c: Config, s: State, from: int) {
    Complete(c, s, from) || Over(c, s, from)
  }

  lemma {:induction false} Instants(pipes: seq<Pipe>, indices: set<nat>, members: set<Time>)
    requires forall i, j :: 0 <= i < j < |pipes| ==> pipes[i].t != pipes[j].t
    requires forall i :: i in indices ==> i < |pipes| && pipes[i].t in members
    ensures |indices| <= |members|
    decreases |indices|
  {
    if indices != {} {
      var i :| i in indices;
      Instants(pipes, indices - {i}, members - {pipes[i].t});
    }
  }

  lemma CardKeeps(c: Config, s: State, i: nat, from: int)
    requires Clocks(c, s) && Enabled(c, s, Card(i)) && Complete(c, s, from)
    ensures Complete(c, Do(c, s, Card(i)), from)
  {
    var t := Do(c, s, Card(i));
    if |s.key.members| < c.limit {
      Instants(s.pipes, StoredIn(c, s, from), s.key.members);
      assert PassedIn(c, t, from) <= StoredIn(c, s, from) + UnderWay(s);
      Union(StoredIn(c, s, from), UnderWay(s), PassedIn(c, t, from));
    } else {
      assert PassedIn(c, t, from) == PassedIn(c, s, from);
    }
  }

  lemma PruneKeeps(c: Config, s: State, i: nat, from: int)
    requires Clocks(c, s) && Enabled(c, s, Prune(i)) && Complete(c, s, from) && c.overlap >= 1
    ensures Bounded(c, Do(c, s, Prune(i)), from)
  {
    var t := Do(c, s, Prune(i));
    assert PassedIn(c, t, from) == PassedIn(c, s, from);
    if s.pipes[i].t > from + c.window {
      assert i in UnderWay(s);
      assert OpenIn(c, t, from) <= UnderWay(s) - {i};
      Subset(OpenIn(c, t, from), UnderWay(s) - {i});
    }
  }

  lemma DropKeeps(c: Config, s: State, from: int)
    requires c.Valid() && Expiry(c, s) && Enabled(c, s, DropKey) && Complete(c, s, from)
    ensures Bounded(c, Do(c, s, DropKey), from)
  {
    var t := Do(c, s, DropKey);
    assert PassedIn(c, t, from) == PassedIn(c, s, from);
    if i :| 0 <= i < |s.pipes| && Inside(c, from, s.pipes[i]) && s.pipes[i].Stored() {
      DropOld(c, s, s.pipes[i].t);
      assert OpenIn(c, t, from) == {};
    }
  }

  lemma OtherKeeps(c: Config, s: State, step: Step, from: int)
    requires Enabled(c, s, step) && Complete(c, s, from) && !step.Card? && !step.Prune? && !step.DropKey?
    ensures Complete(c, Do(c, s, step), from)
  {
    assert PassedIn(c, Do(c, s, step), from) == PassedIn(c, s, from);
  }

  lemma OverCard(c: Config, s: State, i: nat, from: int)
    requires Enabled(c, s, Card(i)) && Over(c, s, from)
    ensures Over(c, Do(c, s, Card(i)), from)
  {
    var t := Do(c, s, Card(i));
    if Inside(c, from, s.pipes[i]) {
      CardInside(c, s, i, from);
    } else {
      assert OpenIn(c, t, from) == OpenIn(c, s, from);
      assert PassedIn(c, t, from) == PassedIn(c, s, from);
    }
  }

  lemma CardInside(c: Config, s: State, i: nat, from: int)
    requires Enabled(c, s, Card(i)) && Inside(c, from, s.pipes[i])
    ensures var t := Do(c, s, Card(i));
      |PassedIn(c, t, from)| + |OpenIn(c, t, from)| <= |PassedIn(c, s, from)| + |OpenIn(c, s, from)|
  {
    var t := Do(c, s, Card(i));
    assert i in OpenIn(c, s, from);
    assert OpenIn(c, t, from) == OpenIn(c, s, from) - {i};
    assert PassedIn(c, t, from) <= PassedIn(c, s, from) + {i};
    Subset(PassedIn(c, t, from), PassedIn(c, s, from) + {i});
  }

  lemma OverKeeps(c: Config, s: State, step: Step, from: int)
    requires Enabled(c, s, step) && Over(c, s, from)
    ensures Over(c, Do(c, s, step), from)
  {
    if step.Card? {
      OverCard(c, s, step.i, from);
    } else {
      assert OpenIn(c, Do(c, s, step), from) == OpenIn(c, s, from);
      assert PassedIn(c, Do(c, s, step), from) == PassedIn(c, s, from);
    }
  }

  lemma BoundedStep(c: Config, s: State, step: Step, from: int)
    requires c.Valid() && Expiry(c, s) && Enabled(c, s, step) && Bounded(c, s, from)
    ensures Bounded(c, Do(c, s, step), from)
  {
    if Over(c, s, from) {
      OverKeeps(c, s, step, from);
    } else {
      match step
      case Card(i) => CardKeeps(c, s, i, from);
      case Prune(i) => PruneKeeps(c, s, i, from);
      case DropKey => DropKeeps(c, s, from);
      case _ => OtherKeeps(c, s, step, from);
    }
  }

  lemma {:induction false} BoundedRun(c: Config, s: State, steps: seq<Step>, t: State, from: int)
    requires c.Valid() && Expiry(c, s) && Bounded(c, s, from) && Run(c, s, steps, t)
    ensures Expiry(c, t) && Bounded(c, t, from)
    decreases |steps|
  {
    if steps != [] {
      ExpiryStep(c, s, steps[0]);
      BoundedStep(c, s, steps[0], from);
      BoundedRun(c, Do(c, s, steps[0]), steps[1..], t, from);
    }
  }

  /**
   With at most k pipelines at a time, however their commands interleave, any half-open interval as long as
   the window holds at most N + 2(k - 1) allowed requests; with k = 1 the configured N.
   */
  lemma WindowBoundUnderOverlap(c: Config, start: Time, steps: seq<Step>, t: State, from: int)
    requires c.Valid() && Run(c, Init(start), steps, t)
    ensures |PassedIn(c, t, from)| <= c.limit + 2 * (c.overlap - 1)
  {
    assert UnderWay(Init(start)) == {} && PassedIn(c, Init(start), from) == {};
    BoundedRun(c, Init(start), steps, t, from);
    assert |OpenIn(c, t, from)| >= 0;
  }
}
