/** How slow the pipelines of the rate limiter may be before its bounds break. */
module RateLimitLatency {
  import opened RateLimit
  import opened RateLimitOverlap
  import opened RateLimitReach
  import opened Sets
  import opened Types

  // ---------- one pipeline at a time ----------

  // The key's expiry was last set after every pipeline that is done began.
  ghost predicate Fresh(c: Config, s: State) {
    forall i :: 0 <= i < |s.pipes| && s.pipes[i].stage.Done? && s.key.expiresAt.Some? ==> s.pipes[i].t <= LastSet(c, s)
  }

  // A pipeline whose prune left the key its expiry found a member in its window.
  ghost predicate Spared(c: Config, s: State) {
    forall i :: 0 <= i < |s.pipes| && (Counting(s.pipes[i]) || s.pipes[i].stage.Added?) && s.key.expiresAt.Some? ==>
      s.pipes[i].t - c.window < LastSet(c, s)
  }

  // All pipelines but the last are done.
  ghost predicate Serial(c: Config, s: State) {
    && Clocks(c, s) && Members(c, s) && Fresh(c, s) && Spared(c, s)
    && forall i :: 0 <= i < |s.pipes| - 1 ==> s.pipes[i].stage.Done?
  }

  lemma FreshStep(c: Config, s: State, step: Step)
    requires Clocks(c, s) && Members(c, s) && Fresh(c, s) && Enabled(c, s, step)
    ensures Fresh(c, Do(c, s, step))
  {
  }

  lemma SparedPrune(c: Config, s: State, i: nat)
    requires Serial(c, s) && Enabled(c, s, Prune(i))
    ensures Spared(c, Do(c, s, Prune(i)))
  {
    var t := Do(c, s, Prune(i));
    if t.key.expiresAt.Some? {
      var m :| m in t.key.members;
      var j :| 0 <= j < |s.pipes| && s.pipes[j].t == m && s.pipes[j].Stored();
      assert s.pipes[j].stage.Done?;
    }
  }

  lemma SparedStep(c: Config, s: State, step: Step)
    requires Serial(c, s) && Enabled(c, s, step)
    ensures Spared(c, Do(c, s, step))
  {
    if step.Prune? {
      SparedPrune(c, s, step.i);
    }
  }

  lemma LastStep(c: Config, s: State, step: Step)
    requires c.overlap == 1 && Enabled(c, s, step) && forall i :: 0 <= i < |s.pipes| - 1 ==> s.pipes[i].stage.Done?
    ensures var t := Do(c, s, step); forall i :: 0 <= i < |t.pipes| - 1 ==> t.pipes[i].stage.Done?
  {
    if step.Begin? {
      assert UnderWay(s) == {};
      forall i: nat | i < |s.pipes| ensures s.pipes[i].stage.Done? {
        assert i !in UnderWay(s);
      }
    }
  }

  lemma SerialStep(c: Config, s: State, step: Step)
    requires c.overlap == 1 && Serial(c, s) && Enabled(c, s, step)
    ensures Serial(c, Do(c, s, step))
  {
    ClocksStep(c, s, step);
    MembersStep(c, s, step);
    FreshStep(c, s, step);
    SparedStep(c, s, step);
    LastStep(c, s, step);
  }

  // When a key that expires takes a request of the window with it, this is the earliest there can be another.
  function Resumed(c: Config, from: int): int {
    from + 2 + Lifetime(c.window) - c.window
  }

  // The requests in the window from before that.
  function Early(c: Config, s: State, from: int): set<nat> {
    set i: nat | i < |s.pipes| && Inside(c, from, s.pipes[i]) && s.pipes[i].t < Resumed(c, from)
  }

  ghost predicate Late(c: Config, s: State, from: int) {
    s.now >= Resumed(c, from) && |Early(c, s, from)| <= 1
  }

  lemma LateKeeps(c: Config, s: State, step: Step, from: int)
    requires Enabled(c, s, step) && Late(c, s, from)
    ensures Late(c, Do(c, s, step), from)
  {
    assert Early(c, Do(c, s, step), from) == Early(c, s, from);
  }

  // What is left of the window then has fewer instants than the limit.
  lemma LateBound(c: Config, s: State, from: int)
    requires Clocks(c, s) && Late(c, s, from) && c.limit >= 1 && Lifetime(c.window) + c.limit >= 2 * c.window
    ensures |PassedIn(c, s, from)| <= c.limit
  {
    var passed, early := PassedIn(c, s, from), Early(c, s, from);
    var rest := passed - early;
    var first := if Resumed(c, from) < 0 then 0 else Resumed(c, from);
    var left := if first <= from + c.window then from + c.window - first + 1 else 0;
    RateLimitOverlap.Instants(s.pipes, rest, Span(first, left));
    Union(early, rest, passed);
  }

  // The key expires after the window is over, under a pipeline that began in it: the expiry was set so late that
  // fewer requests than the limit can have begun before.
  lemma DropAfter(c: Config, s: State, from: int)
    requires c.overlap == 1 && Serial(c, s) && Enabled(c, s, DropKey) && Complete(c, s, from) && s.now > from + c.window
    requires c.limit >= 1 && c.window + c.latency < Lifetime(c.window) + c.limit
    ensures Over(c, Do(c, s, DropKey), from)
  {
    var t := Do(c, s, DropKey);
    assert PassedIn(c, t, from) == PassedIn(c, s, from) && OpenIn(c, t, from) == OpenIn(c, s, from);
    if OpenIn(c, s, from) != {} {
      OneOpen(c, s, from);
      PassedBefore(c, s, from, LastSet(c, s));
      SetEarly(c, s, from);
    }
  }

  // It is the last pipeline; the others are done, and began before the expiry was set.
  lemma OneOpen(c: Config, s: State, from: int)
    requires Serial(c, s) && s.key.expiresAt.Some? && OpenIn(c, s, from) != {}
    ensures |OpenIn(c, s, from)| == 1
    ensures forall i :: i in PassedIn(c, s, from) ==> s.pipes[i].t <= LastSet(c, s)
  {
    assert OpenIn(c, s, from) == {|s.pipes| - 1};
  }

  // The expiry is at least a lifetime old, and the pipeline that is still open began in the window.
  lemma SetEarly(c: Config, s: State, from: int)
    requires Clocks(c, s) && Enabled(c, s, DropKey) && OpenIn(c, s, from) != {}
    requires c.limit >= 1 && c.window + c.latency < Lifetime(c.window) + c.limit
    ensures LastSet(c, s) < from + c.limit
  {
    var q :| q in OpenIn(c, s, from);
    assert s.now <= s.pipes[q].t + c.latency;
  }

  lemma PassedBefore(c: Config, s: State, from: int, end: int)
    requires Clocks(c, s) && forall i :: i in PassedIn(c, s, from) ==> s.pipes[i].t <= end
    ensures |PassedIn(c, s, from)| <= if from <= end then end - from else 0
  {
    var first := if from < 0 then 0 else from + 1;
    RateLimitOverlap.Instants(s.pipes, PassedIn(c, s, from), Span(first, if first <= end then end - first + 1 else 0));
  }

  // The key expires within the window: no pipeline that is done began in it.
  lemma DropWithin(c: Config, s: State, from: int)
    requires c.overlap == 1 && Serial(c, s) && Enabled(c, s, DropKey) && Complete(c, s, from)
    requires s.now <= from + c.window
    ensures Complete(c, Do(c, s, DropKey), from) || Late(c, Do(c, s, DropKey), from)
  {
    LifetimeLong(c.window);
    var t := Do(c, s, DropKey);
    var q := |s.pipes| - 1;
    assert PassedIn(c, t, from) == PassedIn(c, s, from);
    assert forall i :: 0 <= i < |s.pipes| && Inside(c, from, s.pipes[i]) ==> i == q;
    if q >= 0 && Inside(c, from, s.pipes[q]) && s.pipes[q].Stored() {
      assert Early(c, t, from) <= {q};
      Subset(Early(c, t, from), {q});
    }
  }

  ghost predicate Steady(c: Config, s: State, from: int) {
    Complete(c, s, from) || Over(c, s, from) || Late(c, s, from)
  }

  lemma SteadyStep(c: Config, s: State, step: Step, from: int)
    requires c.overlap == 1 && Serial(c, s) && Enabled(c, s, step) && Steady(c, s, from)
    requires c.limit >= 1 && c.window + c.latency < Lifetime(c.window) + c.limit
    ensures Steady(c, Do(c, s, step), from)
  {
    if Over(c, s, from) {
      OverKeeps(c, s, step, from);
    } else if Late(c, s, from) {
      LateKeeps(c, s, step, from);
    } else {
      match step
      case Card(i) => CardKeeps(c, s, i, from);
      case Prune(i) => PruneKeeps(c, s, i, from);
      case DropKey =>
        if s.now > from + c.window {
          DropAfter(c, s, from);
        } else {
          DropWithin(c, s, from);
        }
      case _ => OtherKeeps(c, s, step, from);
    }
  }

  lemma {:induction false} SteadyRun(c: Config, s: State, steps: seq<Step>, t: State, from: int)
    requires c.overlap == 1 && Serial(c, s) && Steady(c, s, from) && Run(c, s, steps, t)
    requires c.limit >= 1 && c.window + c.latency < Lifetime(c.window) + c.limit
    ensures Serial(c, t) && Steady(c, t, from)
    decreases |steps|
  {
    if steps != [] {
      SerialStep(c, s, steps[0]);
      SteadyStep(c, s, steps[0], from);
      SteadyRun(c, Do(c, s, steps[0]), steps[1..], t, from);
    }
  }

  lemma SlowKeeps(c: Config, start: Time, steps: seq<Step>, t: State, from: int)
    requires c.overlap == 1 && Run(c, Init(start), steps, t) && c.limit >= 1
    requires Lifetime(c.window) + c.limit >= 2 * c.window && c.window + c.latency < Lifetime(c.window) + c.limit
    ensures |PassedIn(c, t, from)| <= c.limit
  {
    assert UnderWay(Init(start)) == {} && PassedIn(c, Init(start), from) == {};
    SteadyRun(c, Init(start), steps, t, from);
    if Late(c, t, from) {
      LateBound(c, t, from);
    }
    assert |OpenIn(c, t, from)| >= 0;
  }

  // ---------- a key that is gone before the window is over ----------

  lemma PrunesNothing(z: ZSet, top: int)
    requires z.members != {} && forall m :: m in z.members ==> m > top
    ensures RemoveUpTo(z, top) == z
  {
    assert (set t | t in z.members && !(0 <= t <= top)) == z.members;
  }

  // A first request, and a pipeline that has stored a second at the end of the first's window.
  lemma Second(c: Config) returns (t: State)
    requires c.overlap >= 1 && c.window >= 2
    ensures Reachable(c, t) && t.now == c.window && t.key == ZSet({1, c.window}, Some(1 + Lifetime(c.window)))
    ensures t.pipes == [Pipe(1, Done(0)), Pipe(c.window, Added(1))]
  {
    t := Start(c);
    t := Together(c, t, 1, 1, 0);
    t := Begun(c, t, c.window, 1);
    PrunesNothing(t.key, 0);
    t := Reach(c, t, Prune(1));
    t := Reach(c, t, Card(1));
    t := Reach(c, t, Add(1));
  }

  // It waits before its EXPIRE until the key is gone.
  lemma Stalled(c: Config) returns (t: State)
    requires c.overlap >= 1 && c.window >= 2 && c.window + c.latency > Lifetime(c.window)
    ensures Quiet(c, t, 1 + Lifetime(c.window)) && t.pipes == [Pipe(1, Done(0)), Pipe(c.window, Done(1))]
  {
    LifetimeLong(c.window);
    t := Second(c);
    t := Reach(c, t, Tick(1 + Lifetime(c.window)));
    t := Reach(c, t, DropKey);
    t := Reach(c, t, Expire(1));
  }

  // A key that outlives two windows by less than the limit: the second request and a full window after it.
  lemma LongWindowBreaks(c: Config)
    requires c.overlap == 1 && c.limit >= 2 && c.window + c.latency > Lifetime(c.window)
    requires Lifetime(c.window) + c.limit < 2 * c.window
    ensures !KeepsLimit(c)
  {
    LifetimeLong(c.window);
    var s := Stalled(c);
    var from := 1 + Lifetime(c.window);
    var t := Crowd(c, s, from, from + c.limit - 1, 1);
    CrowdPasses(c, s.pipes, from, from + c.limit - 1, 1, t.pipes);
    assert Pass(c, t.pipes, 1, c.limit + 1, c.window, 2 * c.window - 1);
    PassedAtLeast(c, t, 1, c.limit + 1, c.window - 1);
    var steps :| Run(c, Init(1), steps, t);
  }

  // As many pipelines as there may be begin at the end of the window, and count when the key is gone.
  lemma Outlived(c: Config, s: State, from: Time, n: nat) returns (t: State)
    requires Reachable(c, s) && AllDone(s.pipes) && Before(s.pipes, from) && s.now <= from && s.key.expiresAt.Some?
    requires 1 <= n <= c.overlap && from + n <= s.key.expiresAt.value + 1 <= from + c.latency + 1 && n <= c.latency + 1
    ensures Reachable(c, t) && t.pipes == s.pipes + Pipes(from, n, Counted(0))
  {
    t := Begun(c, s, from, n);
    t := Reach(c, t, Tick(s.key.expiresAt.value));
    t := Reach(c, t, DropKey);
    NoTail(s.pipes, from, n, Started);
    t := PruneMany(c, t, s.pipes, from, n, []);
    t := CardMany(c, t, s.pipes, from, n, [], 0);
    NoTail(s.pipes, from, n, Counted(0));
  }

  /**
   For every limit N from one on and every number k of pipelines: when pipelines may wait until a key is gone that was
   refreshed at the start of the window, some run lets more than N + 2(k - 1) requests into one window.
   */
  lemma BoundBreaks(c: Config) returns (t: State)
    requires c.limit >= 1 && c.overlap >= 1 && c.window >= c.limit + 2 * c.overlap - 1
    requires c.window + c.latency >= Lifetime(c.window) + c.limit + 2 * (c.overlap - 1)
    ensures Reachable(c, t) && |PassedIn(c, t, 0)| > c.limit + 2 * (c.overlap - 1)
  {
    LifetimeLong(c.window);
    var k := c.overlap;
    var s := Start(c);
    s := CrowdOn(c, s, 1);
    t := Outlived(c, s, c.window - k + 1, k);
    CrowdAgain(c, s, t, c.window - k + 1);
  }

  lemma CrowdAgain(c: Config, s: State, t: State, from: Time)
    requires c.limit >= 1 && c.overlap >= 1 && from + c.overlap == c.window + 1
    requires var n := c.limit + c.overlap - 1; |s.pipes| == n && Pass(c, s.pipes, 0, n, 1, n) && n <= from
    requires t.pipes == s.pipes + Pipes(from, c.overlap, Counted(0))
    ensures |PassedIn(c, t, 0)| > c.limit + 2 * (c.overlap - 1)
  {
    assert t.pipes == s.pipes + Pipes(from, c.overlap, Counted(0)) + [];
    PassMore(c, s.pipes, 0, c.limit + c.overlap - 1, 1, from, c.overlap, c.window, []);
    PassedAtLeast(c, t, 0, c.limit + 2 * c.overlap - 1, 0);
  }

  // ---------- exactly ----------

  // Done before a key is gone that it needs, one at a time.
  predicate InTime(c: Config) {
    var life := Lifetime(c.window);
    c.window + c.latency <= life || (life + c.limit >= 2 * c.window && c.window + c.latency < life + c.limit)
  }

  /**
   Every run keeps the configured limit N exactly when nothing passes, or the window has no more than N instants, or no
   time passes under a pipeline, or pipelines do not overlap and are done before a key is gone that they need: at once,
   in windows that outlast its life after them, and else as long as N requests can hold it back.
   */
  lemma LimitKept(c: Config)
    requires c.overlap >= 1
    ensures KeepsLimit(c) <==>
      || c.limit == 0 || c.window <= c.limit || c.latency == 0
      || (c.overlap == 1 && InTime(c))
  {
    if c.limit == 0 || c.window <= c.limit || c.latency == 0 || (c.overlap == 1 && InTime(c)) {
      forall start, steps, t, from | Run(c, Init(start), steps, t) ensures |PassedIn(c, t, from)| <= c.limit {
        if c.limit == 0 || c.window <= c.limit || c.latency == 0 || c.Valid() {
          Kept(c, start, steps, t, from);
        } else {
          SlowKeeps(c, start, steps, t, from);
        }
      }
    } else if c.overlap > 1 {
      Exceeded(c);
    } else {
      TooLate(c);
    }
  }

  lemma TooLate(c: Config)
    requires c.overlap == 1 && c.window > c.limit >= 1 && !InTime(c)
    ensures !KeepsLimit(c)
  {
    if c.window + c.latency >= Lifetime(c.window) + c.limit {
      var t := BoundBreaks(c);
      var steps :| Run(c, Init(1), steps, t);
    } else {
      LongWindowBreaks(c);
    }
  }

  // ---------- overlapping pipelines ----------

  /** In no run does a window hold more than N + 2(k - 1) allowed requests. */
  ghost predicate KeepsBound(c: Config) {
    forall start, steps, t, from :: Run(c, Init(start), steps, t) ==>
      |PassedIn(c, t, from)| <= c.limit + 2 * (c.overlap - 1)
  }

  // Windows from about half a minute on, with any limit and number of pipelines that are small beside them.
  predicate Roomy(c: Config) {
    var life, crowd := Lifetime(c.window), c.limit + 2 * c.overlap;
    c.limit >= 2 && c.overlap >= 2 && crowd <= c.window + 1 && crowd + c.window <= life + 3
      && life + crowd <= 3 * c.window
  }

  // When the third request comes: before the second leaves its window, and before the key is gone.
  function Third(c: Config): Time
    requires c.window > 0
  {
    if 2 * c.window <= Lifetime(c.window) then 2 * c.window - 1 else Lifetime(c.window)
  }

  // A third request finds the second, so that the key keeps its expiry.
  lemma Joined(c: Config) returns (t: State)
    requires c.overlap >= 2 && c.window >= 2 && c.window + c.latency > Lifetime(c.window)
    ensures Reachable(c, t) && t.now == Third(c) && t.key == ZSet({c.window, Third(c)}, Some(1 + Lifetime(c.window)))
    ensures t.pipes == [Pipe(1, Done(0)), Pipe(c.window, Added(1)), Pipe(Third(c), Added(1))]
  {
    t := ThirdBegun(c);
    PrunesFirst(c, t.key);
    t := Reach(c, t, Prune(2));
    t := Reach(c, t, Card(2));
    t := Reach(c, t, Add(2));
  }

  lemma ThirdBegun(c: Config) returns (t: State)
    requires c.overlap >= 2 && c.window >= 2 && c.window + c.latency > Lifetime(c.window)
    ensures Reachable(c, t) && t.now == Third(c) && t.key == ZSet({1, c.window}, Some(1 + Lifetime(c.window)))
    ensures t.pipes == [Pipe(1, Done(0)), Pipe(c.window, Added(1)), Pipe(Third(c), Started)]
  {
    LifetimeLong(c.window);
    t := Second(c);
    t := Reach(c, t, Tick(Third(c)));
    assert UnderWay(t) == {1};
    t := Reach(c, t, Begin);
  }

  lemma PrunesFirst(c: Config, z: ZSet)
    requires c.window >= 2 && z.members == {1, c.window}
    ensures RemoveUpTo(z, Third(c) - c.window) == z.(members := {c.window})
  {
    LifetimeLong(c.window);
    assert (set m | m in z.members && !(0 <= m <= Third(c) - c.window)) == {c.window};
  }

  // The key is gone with both.
  lemma Forgotten(c: Config) returns (t: State)
    requires c.overlap >= 2 && c.window >= 2 && c.window + c.latency > Lifetime(c.window)
    ensures Quiet(c, t, 1 + Lifetime(c.window))
    ensures t.pipes == [Pipe(1, Done(0)), Pipe(c.window, Done(1)), Pipe(Third(c), Done(1))]
  {
    LifetimeLong(c.window);
    t := Joined(c);
    t := Reach(c, t, Tick(1 + Lifetime(c.window)));
    t := Reach(c, t, DropKey);
    t := Reach(c, t, Expire(1));
    t := Reach(c, t, Expire(2));
  }

  lemma RoomyBreaks(c: Config)
    requires Roomy(c) && c.window + c.latency > Lifetime(c.window)
    ensures !KeepsBound(c)
  {
    LifetimeLong(c.window);
    var s := Forgotten(c);
    var end, n := Third(c) + c.window - 1, c.limit + 2 * (c.overlap - 1);
    var t := Filled(c, s, 1 + Lifetime(c.window), end);
    assert t.pipes[2] == s.pipes[2];
    assert Pass(c, t.pipes, 2, n + 1, Third(c), end);
    PassedAtLeast(c, t, 2, n + 1, Third(c) - 1);
    var steps :| Run(c, Init(1), steps, t);
  }

  /**
   With two or more pipelines and limits of two or more, in windows from half a minute on: every run keeps the bound
   N + 2(k - 1) exactly when no pipeline takes longer than the key outlives the window.
   */
  lemma LatencyExactly(c: Config)
    requires Roomy(c)
    ensures KeepsBound(c) <==> c.window + c.latency <= Lifetime(c.window)
  {
    if c.window + c.latency <= Lifetime(c.window) {
      forall start, steps, t, from | Run(c, Init(start), steps, t)
        ensures |PassedIn(c, t, from)| <= c.limit + 2 * (c.overlap - 1)
      {
        WindowBoundUnderOverlap(c, start, steps, t, from);
      }
    } else {
      RoomyBreaks(c);
    }
  }

  /**
   The configuration as shipped, a hundred requests a minute, with up to a billion pipelines: one at a time, the limit
   is kept exactly as long as none takes a minute and 100 nanoseconds; of more, their bound, as long as none takes more
   than a minute.
   */
  lemma AsShipped(c: Config)
    requires c.limit == 100 && c.window == 60 * SECOND && 1 <= c.overlap <= 1_000_000_000
    ensures c.overlap == 1 ==> (KeepsLimit(c) <==> c.latency < 60 * SECOND + 100)
    ensures c.overlap >= 2 ==> (KeepsBound(c) <==> c.latency <= 60 * SECOND)
  {
    assert Lifetime(c.window) == 120 * SECOND;
    if c.overlap == 1 {
      LimitKept(c);
    } else {
      LatencyExactly(c);
    }
  }
}
