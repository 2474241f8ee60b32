/**
 How far the bounds of the overlapping rate limiter go: runs that reach them, for every limit and every number of
 pipelines.
 */
module RateLimitReach {
  import opened RateLimit
  import opened RateLimitOverlap
  import opened Sets
  import opened Types

  lemma {:induction false} RunOn(c: Config, s: State, steps: seq<Step>, t: State, step: Step)
    requires Run(c, s, steps, t) && Enabled(c, t, step)
    ensures Run(c, s, steps + [step], Do(c, t, step))
    decreases |steps|
  {
    if steps == [] {
      assert [step][1..] == [];
    } else {
      RunOn(c, Do(c, s, steps[0]), steps[1..], t, step);
      assert (steps + [step])[1..] == steps[1..] + [step];
    }
  }

  // Where some run from time one leads.
  ghost predicate Reachable(c: Config, s: State) {
    exists steps :: Run(c, Init(1), steps, s)
  }

  lemma Reach(c: Config, s: State, step: Step) returns (t: State)
    requires Reachable(c, s) && Enabled(c, s, step)
    ensures t == Do(c, s, step) && Reachable(c, t)
  {
    t := Do(c, s, step);
    var steps :| Run(c, Init(1), steps, s);
    RunOn(c, Init(1), steps, s, step);
  }

  lemma Start(c: Config) returns (s: State)
    ensures s == Init(1) && Reachable(c, s)
  {
    s := Init(1);
    assert Run(c, Init(1), [], s);
  }

  // ---------- pipelines side by side ----------

  // One pipeline an instant.
  function Pipes(from: Time, n: nat, stage: Stage): (p: seq<Pipe>)
    ensures |p| == n && forall j :: 0 <= j < n ==> p[j] == Pipe(from + j, stage)
  {
    if n == 0 then [] else Pipes(from, n - 1, stage) + [Pipe(from + n - 1, stage)]
  }

  lemma PipesFirst(from: Time, n: nat, stage: Stage)
    requires n > 0
    ensures Pipes(from, n, stage) == [Pipe(from, stage)] + Pipes(from + 1, n - 1, stage)
  {
  }

  predicate AllDone(pipes: seq<Pipe>) {
    forall i :: 0 <= i < |pipes| ==> pipes[i].stage.Done?
  }

  predicate Before(pipes: seq<Pipe>, t: Time) {
    forall i :: 0 <= i < |pipes| ==> pipes[i].t < t
  }

  lemma {:induction false} Begun(c: Config, s: State, from: Time, n: nat) returns (t: State)
    requires Reachable(c, s) && AllDone(s.pipes) && Before(s.pipes, from) && s.now <= from
    requires n <= c.overlap && n <= c.latency + 1
    ensures Reachable(c, t) && t.key == s.key && t.pipes == s.pipes + Pipes(from, n, Started)
    ensures t.now == if n == 0 then s.now else from + n - 1
    decreases n
  {
    if n == 0 {
      t := s;
    } else {
      var u := Begun(c, s, from, n - 1);
      u := Reach(c, u, Tick(from + n - 1));
      RunningSpan(u, s.pipes, from, n - 1);
      t := Reach(c, u, Begin);
    }
  }

  lemma RunningSpan(u: State, base: seq<Pipe>, from: Time, n: nat)
    requires AllDone(base) && u.pipes == base + Pipes(from, n, Started)
    ensures |UnderWay(u)| == n
  {
    assert UnderWay(u) == Span(|base|, n);
  }

  // The first of them moves on; the rest are then one pipeline further.
  lemma FirstMoves(base: seq<Pipe>, from: Time, n: nat, was: Stage, stage: Stage, tail: seq<Pipe>)
    requires n > 0
    ensures var pipes := base + Pipes(from, n, was) + tail;
      && pipes[|base|] == Pipe(from, was)
      && pipes[|base| := Pipe(from, stage)] == base + [Pipe(from, stage)] + Pipes(from + 1, n - 1, was) + tail
    ensures base + [Pipe(from, stage)] + Pipes(from + 1, n - 1, stage) + tail == base + Pipes(from, n, stage) + tail
  {
    PipesFirst(from, n, was);
    PipesFirst(from, n, stage);
  }

  lemma NoPipes(base: seq<Pipe>, from: Time, was: Stage, stage: Stage, tail: seq<Pipe>)
    ensures base + Pipes(from, 0, was) + tail == base + Pipes(from, 0, stage) + tail
  {
  }

  lemma {:induction false} PruneMany(c: Config, s: State, base: seq<Pipe>, from: Time, n: nat, tail: seq<Pipe>)
    returns (t: State)
    requires Reachable(c, s) && s.pipes == base + Pipes(from, n, Started) + tail
    requires forall m :: m in s.key.members ==> m > from + n - 1 - c.window
    ensures Reachable(c, t) && t.now == s.now && t.key.members == s.key.members
    ensures s.key.members != {} ==> t.key == s.key
    ensures t.pipes == base + Pipes(from, n, Pruned) + tail
    decreases n
  {
    if n == 0 {
      t := s;
      NoPipes(base, from, Started, Pruned, tail);
    } else {
      FirstMoves(base, from, n, Started, Pruned, tail);
      var u := Reach(c, s, Prune(|base|));
      t := PruneMany(c, u, base + [Pipe(from, Pruned)], from + 1, n - 1, tail);
    }
  }

  lemma {:induction false} CardMany(c: Config, s: State, base: seq<Pipe>, from: Time, n: nat, tail: seq<Pipe>,
                                    count: nat)
    returns (t: State)
    requires Reachable(c, s) && s.pipes == base + Pipes(from, n, Pruned) + tail && |s.key.members| == count
    ensures Reachable(c, t) && t.now == s.now && t.key == s.key
    ensures t.pipes == base + Pipes(from, n, Counted(count)) + tail
    decreases n
  {
    if n == 0 {
      t := s;
      NoPipes(base, from, Pruned, Counted(count), tail);
    } else {
      FirstMoves(base, from, n, Pruned, Counted(count), tail);
      var u := Reach(c, s, Card(|base|));
      t := CardMany(c, u, base + [Pipe(from, Counted(count))], from + 1, n - 1, tail, count);
    }
  }

  lemma {:induction false} AddMany(c: Config, s: State, base: seq<Pipe>, from: Time, n: nat, tail: seq<Pipe>,
                                   count: nat)
    returns (t: State)
    requires Reachable(c, s) && s.pipes == base + Pipes(from, n, Counted(count)) + tail
    ensures Reachable(c, t) && t.now == s.now && t.key == s.key.(members := s.key.members + Span(from, n))
    ensures t.pipes == base + Pipes(from, n, Added(count)) + tail
    decreases n
  {
    if n == 0 {
      t := s;
      NoPipes(base, from, Counted(count), Added(count), tail);
      assert Span(from, 0) == {};
    } else {
      FirstMoves(base, from, n, Counted(count), Added(count), tail);
      var u := Reach(c, s, Add(|base|));
      SpanFirst(from, n);
      t := AddMany(c, u, base + [Pipe(from, Added(count))], from + 1, n - 1, tail, count);
    }
  }

  lemma {:induction false} ExpireMany(c: Config, s: State, base: seq<Pipe>, from: Time, n: nat, tail: seq<Pipe>,
                                      count: nat)
    returns (t: State)
    requires Reachable(c, s) && s.pipes == base + Pipes(from, n, Added(count)) + tail
    ensures Reachable(c, t) && t.now == s.now && t.key.members == s.key.members
    ensures n == 0 ==> t.key == s.key
    ensures n > 0 && s.key.members != {} ==> t.key.expiresAt == Some(s.now + Lifetime(c.window))
    ensures t.pipes == base + Pipes(from, n, Done(count)) + tail
    decreases n
  {
    if n == 0 {
      t := s;
      NoPipes(base, from, Added(count), Done(count), tail);
    } else {
      FirstMoves(base, from, n, Added(count), Done(count), tail);
      var u := Reach(c, s, Expire(|base|));
      t := ExpireMany(c, u, base + [Pipe(from, Done(count))], from + 1, n - 1, tail, count);
    }
  }

  /** So many pipelines begin, prune, and count; only then they store. All of them see what was there before. */
  lemma Together(c: Config, s: State, from: Time, n: nat, count: nat) returns (t: State)
    requires Reachable(c, s) && AllDone(s.pipes) && Before(s.pipes, from) && s.now <= from
    requires 1 <= n <= c.overlap && n <= c.latency + 1 && |s.key.members| == count
    requires forall m :: m in s.key.members ==> m > from + n - 1 - c.window
    ensures Reachable(c, t) && t.now == from + n - 1 && t.key.members == s.key.members + Span(from, n)
    ensures t.key.expiresAt == Some(t.now + Lifetime(c.window))
    ensures t.pipes == s.pipes + Pipes(from, n, Done(count))
  {
    assert from in Span(from, n);
    t := Begun(c, s, from, n);
    NoTail(s.pipes, from, n, Started);
    t := PruneMany(c, t, s.pipes, from, n, []);
    t := CardMany(c, t, s.pipes, from, n, [], count);
    t := AddMany(c, t, s.pipes, from, n, [], count);
    t := ExpireMany(c, t, s.pipes, from, n, [], count);
    NoTail(s.pipes, from, n, Done(count));
  }

  lemma NoTail(base: seq<Pipe>, from: Time, n: nat, stage: Stage)
    ensures base + Pipes(from, n, stage) + [] == base + Pipes(from, n, stage)
  {
  }

  // Requests one after the other: each counts those before it.
  function Line(from: Time, n: nat): (p: seq<Pipe>)
    ensures |p| == n && forall j :: 0 <= j < n ==> p[j] == Pipe(from + j, Done(j))
  {
    if n == 0 then [] else Line(from, n - 1) + [Pipe(from + n - 1, Done(n - 1))]
  }

  lemma {:induction false} OneByOne(c: Config, s: State, from: Time, n: nat) returns (t: State)
    requires Reachable(c, s) && AllDone(s.pipes) && Before(s.pipes, from) && s.now <= from && s.key.members == {}
    requires c.overlap >= 1 && n <= c.window
    ensures Reachable(c, t) && t.now == (if n == 0 then s.now else from + n - 1) && t.key.members == Span(from, n)
    ensures t.pipes == s.pipes + Line(from, n)
    decreases n
  {
    if n == 0 {
      t := s;
      assert Span(from, 0) == {};
    } else {
      var u := OneByOne(c, s, from, n - 1);
      t := NextInLine(c, u, s.pipes, from, n - 1);
    }
  }

  lemma NextInLine(c: Config, u: State, base: seq<Pipe>, from: Time, n: nat) returns (t: State)
    requires Reachable(c, u) && AllDone(base) && Before(base, from) && u.now <= from + n && c.overlap >= 1
    requires n < c.window
    requires u.key.members == Span(from, n) && u.pipes == base + Line(from, n)
    ensures Reachable(c, t) && t.now == from + n && t.key.members == Span(from, n + 1)
    ensures t.pipes == base + Line(from, n + 1)
  {
    LineDone(base, from, n, u.pipes);
    t := Together(c, u, from + n, 1, n);
    SpanJoin(from, n, 1);
    LineLast(base, from, n + 1);
  }

  lemma LineDone(base: seq<Pipe>, from: Time, n: nat, pipes: seq<Pipe>)
    requires AllDone(base) && Before(base, from) && pipes == base + Line(from, n)
    ensures AllDone(pipes) && Before(pipes, from + n)
  {
  }

  lemma LineLast(base: seq<Pipe>, from: Time, n: nat)
    requires n > 0
    ensures base + Line(from, n - 1) + Pipes(from + n - 1, 1, Done(n - 1)) == base + Line(from, n)
  {
  }

  // ---------- the bound is reached ----------

  // Where a window can begin afresh.
  ghost predicate Quiet(c: Config, s: State, from: Time) {
    Reachable(c, s) && AllDone(s.pipes) && Before(s.pipes, from) && s.now <= from && s.key.members == {}
  }

  // Requests one by one, then a crowd that sees those only.
  lemma Crowd(c: Config, s: State, from: Time, at: Time, n: nat) returns (t: State)
    requires from <= at && Quiet(c, s, from) && 1 <= n <= c.overlap && n <= c.latency + 1 && at - from + n <= c.window
    ensures t.pipes == s.pipes + Line(from, at - from) + Pipes(at, n, Done(at - from))
    ensures Reachable(c, t) && t.now == at + n - 1 && t.key.members == Span(from, at - from + n)
    ensures t.key.expiresAt == Some(t.now + Lifetime(c.window))
  {
    var u := OneByOne(c, s, from, at - from);
    LineDone(s.pipes, from, at - from, u.pipes);
    t := CrowdAfter(c, u, from, at, n);
  }

  lemma CrowdAfter(c: Config, u: State, from: Time, at: Time, n: nat) returns (t: State)
    requires from <= at && Reachable(c, u) && AllDone(u.pipes) && Before(u.pipes, at) && u.now <= at
    requires u.key.members == Span(from, at - from) && 1 <= n <= c.overlap && n <= c.latency + 1
    requires at - from + n <= c.window
    ensures t.pipes == u.pipes + Pipes(at, n, Done(at - from))
    ensures Reachable(c, t) && t.now == at + n - 1 && t.key.members == Span(from, at - from + n)
    ensures t.key.expiresAt == Some(t.now + Lifetime(c.window))
  {
    t := Together(c, u, at, n, at - from);
    SpanJoin(from, at - from, n);
  }

  // The pipelines from index first on, so many of them, began in the interval and passed.
  predicate Pass(c: Config, pipes: seq<Pipe>, first: nat, n: nat, from: int, end: int) {
    first + n <= |pipes| && forall i :: first <= i < first + n ==> from <= pipes[i].t <= end && pipes[i].Passed(c.limit)
  }

  lemma CrowdPasses(c: Config, base: seq<Pipe>, from: Time, at: Time, n: nat, pipes: seq<Pipe>)
    requires from <= at && at - from < c.limit && AllDone(base) && Before(base, from)
    requires pipes == base + Line(from, at - from) + Pipes(at, n, Done(at - from))
    ensures AllDone(pipes) && Before(pipes, at + n) && base <= pipes && |pipes| == |base| + (at - from + n)
    ensures Pass(c, pipes, |base|, at - from + n, from, at + n - 1)
  {
  }

  lemma PassMore(c: Config, pipes: seq<Pipe>, first: nat, n: nat, from: int, late: Time, more: nat, end: int,
                 tail: seq<Pipe>)
    requires Pass(c, pipes, first, n, from, end) && |pipes| == first + n && c.limit >= 1 && from <= late
    requires late + more <= end + 1
    ensures Pass(c, pipes + Pipes(late, more, Counted(0)) + tail, first, n + more, from, end)
  {
  }

  lemma PassedAtLeast(c: Config, t: State, first: nat, n: nat, from: int)
    requires Pass(c, t.pipes, first, n, from + 1, from + c.window)
    ensures |PassedIn(c, t, from)| >= n
  {
    assert Span(first, n) <= PassedIn(c, t, from);
    Subset(Span(first, n), PassedIn(c, t, from));
  }

  // Pipelines that began in the window count after one that is past it has pruned.
  lemma Latecomers(c: Config, s: State, from: Time, n: nat, past: Time) returns (t: State)
    requires Reachable(c, s) && AllDone(s.pipes) && Before(s.pipes, from) && s.now <= from
    requires 1 <= n < c.overlap && from + n <= past <= from + c.latency
    requires forall m :: m in s.key.members ==> m <= past - c.window
    ensures Reachable(c, t) && t.pipes == s.pipes + Pipes(from, n, Counted(0)) + [Pipe(past, Pruned)]
  {
    var base, tail := s.pipes, [Pipe(past, Pruned)];
    var u := Begun(c, s, from, n);
    u := Reach(c, u, Tick(past));
    RunningSpan(u, base, from, n);
    u := Reach(c, u, Begin);
    var last := |base| + n;
    assert u.pipes == base + Pipes(from, n, Started) + [Pipe(past, Started)];
    u := Reach(c, u, Prune(last));
    assert u.pipes == base + Pipes(from, n, Started) + tail;
    assert u.key.members == {};
    u := PruneMany(c, u, base, from, n, tail);
    t := CardMany(c, u, base, from, n, tail, 0);
  }

  // As large a crowd as there may be, after all but one of the requests that may pass.
  lemma CrowdOn(c: Config, s: State, from: Time) returns (t: State)
    requires Quiet(c, s, from) && 1 <= c.limit && 1 <= c.overlap <= c.latency + 1 && c.limit + c.overlap - 1 <= c.window
    ensures var n := c.limit + c.overlap - 1;
      && Reachable(c, t) && t.now == from + n - 1 && t.key == ZSet(Span(from, n), Some(t.now + Lifetime(c.window)))
      && s.pipes <= t.pipes && |t.pipes| == |s.pipes| + n && AllDone(t.pipes) && Before(t.pipes, from + n)
      && Pass(c, t.pipes, |s.pipes|, n, from, from + n - 1)
  {
    var at := from + c.limit - 1;
    t := Crowd(c, s, from, at, c.overlap);
    CrowdPasses(c, s.pipes, from, at, c.overlap, t.pipes);
  }

  // After the crowd, all but one of the pipelines come in at the end of the window.
  lemma AddLate(c: Config, s: State, first: nat, from: Time, end: Time) returns (t: State)
    requires c.limit >= 1 && c.overlap > 1 && Reachable(c, s) && AllDone(s.pipes)
    requires var crowd := c.limit + c.overlap - 1;
      && s.now == from + crowd - 1 && s.key.members == Span(from, crowd) && Before(s.pipes, from + crowd)
      && |s.pipes| == first + crowd && Pass(c, s.pipes, first, crowd, from, end)
    requires from + c.limit + 2 * c.overlap - 3 <= end < from + c.window
    requires from + c.limit + 2 * c.overlap + c.window <= end + c.latency + 4
    ensures Reachable(c, t) && s.pipes <= t.pipes && Pass(c, t.pipes, first, c.limit + 2 * (c.overlap - 1), from, end)
  {
    var late, n := end - c.overlap + 2, c.overlap - 1;
    t := Latecomers(c, s, late, n, c.window + s.now);
    PassMore(c, s.pipes, first, c.limit + c.overlap - 1, from, late, n, end, [Pipe(c.window + s.now, Pruned)]);
  }

  /**
   From any quiet state on, a window can let N + 2(k - 1) requests through, if it has the instants and pipelines can
   wait.
   */
  lemma Filled(c: Config, s: State, from: Time, end: Time) returns (t: State)
    requires Quiet(c, s, from) && c.limit >= 1 && c.overlap >= 1 && c.overlap <= c.latency + 1
    requires from + c.limit + 2 * c.overlap - 3 <= end < from + c.window
    requires from + c.limit + 2 * c.overlap + c.window <= end + c.latency + 4
    ensures Reachable(c, t) && s.pipes <= t.pipes
    ensures Pass(c, t.pipes, |s.pipes|, c.limit + 2 * (c.overlap - 1), from, end)
  {
    t := CrowdOn(c, s, from);
    if c.overlap > 1 {
      t := AddLate(c, t, |s.pipes|, from, end);
    }
  }

  /**
   For every limit N from one on and every number k of pipelines: with a window of at least N + 2(k - 1) instants, and
   time enough for a pipeline to wait for the last of the others, some run lets N + 2(k - 1) requests into one window.
   */
  lemma BoundIsReached(c: Config) returns (t: State)
    requires c.limit >= 1 && c.overlap >= 1
    requires c.window >= c.limit + 2 * (c.overlap - 1) && c.latency >= c.limit + 2 * c.overlap - 3
    ensures Reachable(c, t) && |PassedIn(c, t, 0)| >= c.limit + 2 * (c.overlap - 1)
  {
    var s := Start(c);
    t := Filled(c, s, 1, c.window);
    PassedAtLeast(c, t, 0, c.limit + 2 * (c.overlap - 1), 0);
  }

  // ---------- when the configured limit is kept ----------

  /** In no run does a half-open interval as long as the window hold more allowed requests than the configured limit. */
  ghost predicate KeepsLimit(c: Config) {
    forall start, steps, t, from :: Run(c, Init(start), steps, t) ==> |PassedIn(c, t, from)| <= c.limit
  }

  // The clocks of the pipelines, whatever the latency.
  lemma {:induction false} ClocksRun(c: Config, s: State, steps: seq<Step>, t: State)
    requires Clocks(c, s) && Run(c, s, steps, t)
    ensures Clocks(c, t)
    decreases |steps|
  {
    if steps != [] {
      ClocksStep(c, s, steps[0]);
      ClocksRun(c, Do(c, s, steps[0]), steps[1..], t);
    }
  }

  // No time passes while a pipeline is under way: they come one by one.
  lemma {:induction false} SerialRun(c: Config, s: State, steps: seq<Step>, t: State)
    requires c.latency == 0 && Clocks(c, s) && Run(c, s, steps, t)
    ensures Run(c.(overlap := 1), s, steps, t)
    decreases |steps|
  {
    if steps != [] {
      ClocksStep(c, s, steps[0]);
      if steps[0].Begin? {
        assert UnderWay(s) == {};
      }
      SerialRun(c, Do(c, s, steps[0]), steps[1..], t);
    }
  }

  lemma ShortWindow(c: Config, t: State, from: int)
    requires Clocks(c, t)
    ensures |PassedIn(c, t, from)| <= c.window
  {
    var instants := Span(if from + 1 < 0 then 0 else from + 1, c.window);
    RateLimitOverlap.Instants(t.pipes, PassedIn(c, t, from), instants);
  }

  lemma NothingUnderWay(c: Config, start: Time)
    requires c.overlap >= 1
    ensures Clocks(c, Init(start))
  {
    assert UnderWay(Init(start)) == {};
  }

  // Without overlap, or with none that shows.
  lemma Kept(c: Config, start: Time, steps: seq<Step>, t: State, from: int)
    requires Run(c, Init(start), steps, t) && c.overlap >= 1
    requires c.limit == 0 || c.latency == 0 || c.window <= c.limit || (c.overlap == 1 && c.Valid())
    ensures |PassedIn(c, t, from)| <= c.limit
  {
    NothingUnderWay(c, start);
    ClocksRun(c, Init(start), steps, t);
    LifetimeLong(c.window);
    if c.limit == 0 {
      assert PassedIn(c, t, from) == {};
    } else if c.window <= c.limit {
      ShortWindow(c, t, from);
    } else if c.latency == 0 {
      SerialRun(c, Init(start), steps, t);
      WindowBoundUnderOverlap(c.(overlap := 1), start, steps, t, from);
      assert PassedIn(c.(overlap := 1), t, from) == PassedIn(c, t, from);
    } else {
      WindowBoundUnderOverlap(c, start, steps, t, from);
    }
  }

  lemma Exceeded(c: Config)
    requires c.overlap >= 2 && c.limit >= 1 && c.latency >= 1 && c.window > c.limit
    ensures !KeepsLimit(c)
  {
    var s := Start(c);
    var t := Crowd(c, s, 1, c.limit, 2);
    CrowdPasses(c, [], 1, c.limit, 2, t.pipes);
    PassedAtLeast(c, t, 0, c.limit + 1, 0);
    var steps :| Run(c, Init(1), steps, t);
  }
}
