/** The sliding-window rate limiter when its pipelines do not overlap. */
module RateLimit {
  import opened Sets
  import opened Types
  import Timeouts

  const SECOND: nat := Timeouts.SECOND
  const MINUTE: nat := 60 * SECOND

  // A sorted set whose members are their own scores, and the instant its key expires.
  datatype ZSet = ZSet(members: set<Time>, expiresAt: Option<Time>)

  const NOTHING: ZSet := ZSet({}, None)

  datatype Decision = Decision(allowed: bool, remaining: int, reset: Time)

  // The headers of an answer; Retry-After only with a refusal.
  datatype Headers = Headers(limit: int, remaining: int, reset: nat, retryAfter: Option<int>)

  // EXPIRE takes whole seconds; the client cuts the fraction off.
  function Lifetime(window: nat): nat {
    (window + MINUTE) / SECOND * SECOND
  }

  // ---------- Redis ----------

  function Purge(z: ZSet, now: Time): ZSet {
    if z.expiresAt.Some? && z.expiresAt.value <= now then NOTHING else z
  }

  // ZREMRANGEBYSCORE key 0 top. A set that becomes empty takes its key and expiry with it.
  function RemoveUpTo(z: ZSet, top: int): ZSet {
    var kept := set t | t in z.members && !(0 <= t <= top);
    if kept == {} then NOTHING else z.(members := kept)
  }

  function AddMember(z: ZSet, t: Time): ZSet {
    z.(members := z.members + {t})
  }

  function SetExpiry(z: ZSet, at: Time): ZSet {
    if z.members == {} then z else z.(expiresAt := Some(at))
  }

  // ---------- one request ----------

  // The set a request leaves behind, and how many members it counted.
  function Request(z: ZSet, now: Time, window: nat): (ZSet, nat) {
    var pruned := RemoveUpTo(Purge(z, now), now - window);
    (SetExpiry(AddMember(pruned, now), now + Lifetime(window)), |pruned.members|)
  }

  // What a pipeline leaves behind of which only the first commands ran.
  function Partly(z: ZSet, now: Time, window: nat, commands: nat): ZSet {
    var purged := Purge(z, now);
    if commands == 0 then purged
    else
      var pruned := RemoveUpTo(purged, now - window);
      if commands <= 2 then pruned
      else if commands == 3 then AddMember(pruned, now)
      else SetExpiry(AddMember(pruned, now), now + Lifetime(window))
  }

  function Decide(count: nat, limit: int, now: Time, window: nat): Decision {
    Decision(count < limit, if limit - count - 1 < 0 then 0 else limit - count - 1, now + window)
  }

  class RateLimiter {
    const requestsPerWindow: int
    const windowDuration: nat
    var keys: map<string, ZSet>        // a missing key is the empty set

    constructor (requestsPerWindow: int, windowDuration: nat)
      ensures keys == map[] && this.requestsPerWindow == requestsPerWindow && this.windowDuration == windowDuration
    {
      this.requestsPerWindow, this.windowDuration := requestsPerWindow, windowDuration;
      keys := map[];
    }

    function At(key: string): ZSet
      reads this
    {
      if key in keys then keys[key] else NOTHING
    }

    /**
     checkRateLimit at a given instant. A pipeline that fails may have run any number of its four commands;
     the decision is then missing.
     */
    method CheckRateLimit(key: string, now: Time, failsAfter: Option<nat>) returns (decision: Option<Decision>)
      modifies this
      ensures forall other :: other != key ==> At(other) == old(At(other))
      ensures failsAfter == None ==>
        var (z, count) := Request(old(At(key)), now, windowDuration);
        At(key) == z && decision == Some(Decide(count, requestsPerWindow, now, windowDuration))
      ensures failsAfter.Some? ==>
        decision == None && At(key) == Partly(old(At(key)), now, windowDuration, failsAfter.value)
    {
      var commands := if failsAfter.Some? then failsAfter.value else 4;
      var z := Purge(At(key), now);
      var windowStart := now - windowDuration;
      var count := 0;
      if commands > 0 {
        z := RemoveUpTo(z, windowStart);
      }
      if commands > 1 {
        count := |z.members|;
      }
      if commands > 2 {
        z := AddMember(z, now);
      }
      if commands > 3 {
        z := SetExpiry(z, now + Lifetime(windowDuration));
      }
      keys := keys[key := z];
      if failsAfter.Some? {
        return None;
      }
      var allowed := count < requestsPerWindow;
      var remaining := requestsPerWindow - count - 1;
      if remaining < 0 {
        remaining := 0;
      }
      var reset := now + windowDuration;
      decision := Some(Decision(allowed, remaining, reset));
    }

    // Middleware serves the request unless the limiter says no; a failed check lets it through. The time left is taken
    // when the answer is written.
    method Middleware(key: string, now: Time, failsAfter: Option<nat>, answered: Time)
      returns (served: bool, headers: Option<Headers>)
      modifies this
      ensures forall other :: other != key ==> At(other) == old(At(other))
      ensures failsAfter.Some? ==> served && headers == None
      ensures failsAfter == None ==>
        var d := Decide(Request(old(At(key)), now, windowDuration).1, requestsPerWindow, now, windowDuration);
        && served == d.allowed && headers.Some? && headers.value.limit == requestsPerWindow
        && headers.value.remaining == d.remaining && headers.value.reset == d.reset / SECOND
        && (served <==> headers.value.retryAfter.None?)
        && (!served ==> headers.value.retryAfter == Some(Timeouts.StoredSeconds(d.reset - answered)))
    {
      var decision := CheckRateLimit(key, now, failsAfter);
      if decision.None? {
        return true, None;
      }
      var d := decision.value;
      headers := Some(Headers(requestsPerWindow, d.remaining, d.reset / SECOND, None));
      if !d.allowed {
        headers := Some(headers.value.(retryAfter := Some(Timeouts.StoredSeconds(d.reset - answered))));
      }
      served := d.allowed;
    }
  }

  // ---------- serial runs ----------

  predicate Ordered(times: seq<Time>) {
    forall i, j :: 0 <= i < j < |times| ==> times[i] <= times[j]
  }

  // The set after one request at each of the given instants.
  function After(times: seq<Time>, window: nat): ZSet {
    if times == [] then NOTHING
    else Request(After(times[..|times| - 1], window), times[|times| - 1], window).0
  }

  // What request number i counted.
  function CountAt(times: seq<Time>, window: nat, i: nat): nat
    requires i < |times|
  {
    Request(After(times[..i], window), times[i], window).1
  }

  // The distinct instants of the earlier requests, allowed or not, in the window that ends at request i.
  function Instants(times: seq<Time>, window: nat, i: nat): set<Time>
    requires i < |times|
  {
    set j | 0 <= j < i && times[j] > times[i] - window :: times[j]
  }

  // Those requests themselves.
  function Recent(times: seq<Time>, window: nat, i: nat): set<nat>
    requires i < |times|
  {
    set j: nat | j < i && times[j] > times[i] - window
  }

  // The set holds the instants of the last request's window, and outlives it by more than the next window needs.
  lemma {:induction false} Holds(times: seq<Time>, window: nat)
    requires Ordered(times) && times != []
    ensures var z := After(times, window); var last := times[|times| - 1];
      && z.members == (set j | 0 <= j < |times| && (times[j] > last - window || times[j] == last) :: times[j])
      && z.expiresAt == Some(last + Lifetime(window))
    decreases 2 * |times|
  {
    var n := |times| - 1;
    Counted(times, window, n);
    InstantsAndLast(times, window);
  }

  lemma InstantsAndLast(times: seq<Time>, window: nat)
    requires Ordered(times) && times != []
    ensures var last := times[|times| - 1];
      Instants(times, window, |times| - 1) + {last}
      == (set j | 0 <= j < |times| && (times[j] > last - window || times[j] == last) :: times[j])
  {
    var n := |times| - 1;
    var all := set j | 0 <= j < |times| && (times[j] > times[n] - window || times[j] == times[n]) :: times[j];
    forall t ensures t in Instants(times, window, n) + {times[n]} <==> t in all {
      if t in all {
        var j :| 0 <= j < |times| && (times[j] > times[n] - window || times[j] == times[n]) && times[j] == t;
        assert j == n || times[j] == times[n] || t in Instants(times, window, n);
      }
      if t == times[n] {
        assert t in all;
      }
    }
  }

  // What request i sees after pruning: exactly the recent instants. Neither pruning nor expiry hides any.
  lemma {:induction false} Counted(times: seq<Time>, window: nat, i: nat)
    requires Ordered(times) && i < |times|
    ensures RemoveUpTo(Purge(After(times[..i], window), times[i]), times[i] - window).members
      == Instants(times, window, i)
    decreases 2 * i + 1
  {
    var earlier := times[..i];
    if i > 0 {
      Holds(earlier, window);
      var z := After(earlier, window);
      var last := times[i - 1];
      assert Lifetime(window) > window;
      if z.expiresAt.value <= times[i] {
        assert forall j :: 0 <= j < i ==> times[j] <= last < times[i] - window;
      } else {
        PruneExact(times, window, i, z.members);
      }
    }
  }

  lemma PruneExact(times: seq<Time>, window: nat, i: nat, members: set<Time>)
    requires Ordered(times) && 0 < i < |times|
    requires var earlier, last := times[..i], times[i - 1];
      members == set j | 0 <= j < i && (earlier[j] > last - window || earlier[j] == last) :: earlier[j]
    ensures (set t | t in members && !(0 <= t <= times[i] - window)) == Instants(times, window, i)
  {
    forall t | t in Instants(times, window, i) ensures t in members {
      var j :| 0 <= j < i && times[j] > times[i] - window && times[j] == t;
      assert times[..i][j] == t;
    }
  }

  predicate Allowed(times: seq<Time>, limit: int, window: nat, i: nat)
    requires i < |times|
  {
    Decide(CountAt(times, window, i), limit, times[i], window).allowed
  }

  /**
   The stored set has the plain meaning: a request is allowed exactly when fewer than the limit of distinct
   instants with a request, allowed or denied, lie in the window before it.
   */
  lemma MeaningByInstants(times: seq<Time>, limit: int, window: nat, i: nat)
    requires Ordered(times) && i < |times|
    ensures CountAt(times, window, i) == |Instants(times, window, i)|
    ensures Allowed(times, limit, window, i) <==> |Instants(times, window, i)| < limit
  {
    Counted(times, window, i);
  }

  // No two of the requests share an instant.
  ghost predicate Distinct(times: seq<Time>, indices: set<nat>) {
    forall j, k :: j in indices && k in indices && j < k < |times| ==> times[j] != times[k]
  }

  lemma {:induction false} SameSize(times: seq<Time>, indices: set<nat>)
    requires forall j :: j in indices ==> j < |times|
    ensures var instants := set j | j in indices :: times[j];
      |instants| <= |indices| && (|instants| == |indices| <==> Distinct(times, indices))
    decreases |indices|
  {
    if indices != {} {
      var j :| j in indices;
      var rest := indices - {j};
      SameSize(times, rest);
      var instants, others := set i | i in indices :: times[i], set i | i in rest :: times[i];
      assert instants == others + {times[j]};
      if times[j] in others {
        var i :| i in rest && times[i] == times[j];
        assert instants == others;
        assert !Distinct(times, indices) by {
          assert i < j || j < i;
        }
      } else {
        assert Distinct(times, indices) <==> Distinct(times, rest);
      }
    }
  }

  /** It is the earlier requests themselves that count exactly when no two of those in the window share an instant. */
  lemma MeaningByRequests(times: seq<Time>, limit: int, window: nat, i: nat)
    requires Ordered(times) && i < |times|
    ensures CountAt(times, window, i) <= |Recent(times, window, i)|
    ensures CountAt(times, window, i) == |Recent(times, window, i)| <==> Distinct(times, Recent(times, window, i))
    ensures Distinct(times, Recent(times, window, i)) ==>
      (Allowed(times, limit, window, i) <==> |Recent(times, window, i)| < limit)
  {
    MeaningByInstants(times, limit, window, i);
    SameSize(times, Recent(times, window, i));
    assert Instants(times, window, i) == set j | j in Recent(times, window, i) :: times[j];
  }

  /** When they do, the limit may not be kept: three requests in one instant all pass a limit of two. */
  lemma SameInstantUndercounts()
    ensures var times := [5, 5, 5]; forall i: nat :: i < 3 ==> Allowed(times, 2, 10, i)
  {
    var times := [5, 5, 5];
    forall i: nat | i < 3 ensures Allowed(times, 2, 10, i) {
      MeaningByInstants(times, 2, 10, i);
      var instants := Instants(times, 10, i);
      assert instants <= {5};
      Subset(instants, {5});
    }
  }

  function AllowedWithin(times: seq<Time>, limit: int, window: nat, from: int): set<nat> {
    set i: nat | i < |times| && Allowed(times, limit, window, i) && from < times[i] <= from + window
  }

  lemma {:induction false} Largest(s: set<nat>) returns (top: nat)
    requires s != {}
    ensures top in s && forall x :: x in s ==> x <= top
    decreases |s|
  {
    var x :| x in s;
    if s == {x} {
      top := x;
    } else {
      var rest := Largest(s - {x});
      top := if rest < x then x else rest;
      assert forall y :: y in s ==> y == x || y in s - {x};
    }
  }

  // The instants of the allowed requests in the interval.
  function AllowedInstants(times: seq<Time>, limit: int, window: nat, from: int): set<Time> {
    set i | i in AllowedWithin(times, limit, window, from) :: times[i]
  }

  /**
   Half-open intervals as long as the window: the allowed requests in them have never more instants than the limit ...
   */
  lemma InstantBound(times: seq<Time>, limit: nat, window: nat, from: int)
    requires Ordered(times)
    ensures |AllowedInstants(times, limit, window, from)| <= limit
  {
    var within, instants := AllowedWithin(times, limit, window, from), AllowedInstants(times, limit, window, from);
    if within != {} {
      var last := Largest(within);
      MeaningByInstants(times, limit, window, last);
      OthersCounted(times, within, window, last);
      Subset(instants - {times[last]}, Instants(times, window, last));
    }
  }

  lemma OthersCounted(times: seq<Time>, indices: set<nat>, window: nat, last: nat)
    requires Ordered(times) && last < |times|
    requires forall i :: i in indices ==> i <= last && times[i] > times[last] - window
    ensures (set i | i in indices :: times[i]) - {times[last]} <= Instants(times, window, last)
  {
  }

  /** ... and where none of them share one, there are never more requests. */
  lemma WindowBound(times: seq<Time>, limit: nat, window: nat, from: int)
    requires Ordered(times) && Distinct(times, AllowedWithin(times, limit, window, from))
    ensures |AllowedWithin(times, limit, window, from)| <= limit
  {
    InstantBound(times, limit, window, from);
    SameSize(times, AllowedWithin(times, limit, window, from));
  }

  /** A reported remaining of r is kept: the next r requests, whenever they come, are all allowed. */
  lemma RemainingIsKept(times: seq<Time>, limit: int, window: nat, i: nat, k: nat)
    requires Ordered(times) && i + k < |times| && k > 0
    requires k <= Decide(CountAt(times, window, i), limit, times[i], window).remaining
    ensures Allowed(times, limit, window, i + k)
  {
    MeaningByInstants(times, limit, window, i);
    MeaningByInstants(times, limit, window, i + k);
    InstantsGrow(times, window, i, k);
  }

  lemma {:induction false} InstantsGrow(times: seq<Time>, window: nat, i: nat, k: nat)
    requires Ordered(times) && i + k < |times|
    ensures |Instants(times, window, i + k)| <= |Instants(times, window, i)| + k
  {
    if k > 0 {
      InstantsGrow(times, window, i, k - 1);
      var before, after := Instants(times, window, i + k - 1), Instants(times, window, i + k);
      OneMoreInstant(times, window, i + k - 1);
      Subset(after, before + {times[i + k - 1]});
    }
  }

  lemma OneMoreInstant(times: seq<Time>, window: nat, i: nat)
    requires Ordered(times) && i + 1 < |times|
    ensures Instants(times, window, i + 1) <= Instants(times, window, i) + {times[i]}
  {
    assert times[i] <= times[i + 1];
  }

  /** After a refusal nothing remains. */
  lemma NothingRemains(times: seq<Time>, limit: int, window: nat, i: nat)
    requires i < |times|
    ensures !Allowed(times, limit, window, i) ==>
      Decide(CountAt(times, window, i), limit, times[i], window).remaining == 0
    ensures Decide(CountAt(times, window, i), limit, times[i], window).remaining >= 0
  {
  }

  // The instants of the first n requests that are later than that.
  function Since(times: seq<Time>, n: nat, low: int): set<Time>
    requires n <= |times|
  {
    set j | 0 <= j < n && times[j] > low :: times[j]
  }

  lemma SinceOne(times: seq<Time>, n: nat, low: int)
    requires n < |times| && times[n] > low && forall j :: 0 <= j < n ==> times[j] < times[n]
    ensures |Since(times, n + 1, low)| == |Since(times, n, low)| + 1
  {
    assert Since(times, n + 1, low) == Since(times, n, low) + {times[n]};
  }

  // Each of these requests has an instant of its own.
  predicate OwnInstants(times: seq<Time>, from: nat, to: nat)
    requires to <= |times|
  {
    forall j, k :: 0 <= j < k < to && from <= k ==> times[j] < times[k]
  }

  lemma {:induction false} SinceMany(times: seq<Time>, n: nat, more: nat, low: int)
    requires n + more <= |times| && OwnInstants(times, n, n + more) && forall k :: n <= k < n + more ==> times[k] > low
    ensures |Since(times, n + more, low)| == |Since(times, n, low)| + more
  {
    if more > 0 {
      SinceMany(times, n, more - 1, low);
      SinceOne(times, n + more - 1, low);
    }
  }

  lemma InstantsSince(times: seq<Time>, window: nat, i: nat)
    requires i < |times|
    ensures Instants(times, window, i) == Since(times, i, times[i] - window)
  {
  }

  lemma SameSince(times: seq<Time>, n: nat, low: int, lower: int)
    requires n <= |times| && lower <= low && forall t :: t in Since(times, n, lower) ==> t > low
    ensures Since(times, n, lower) == Since(times, n, low)
  {
  }

  // What request i found, and the request itself, are still in the window of a later one.
  predicate StillInWindow(times: seq<Time>, window: nat, i: nat, last: nat)
    requires i < |times| && last < |times|
  {
    times[i] > times[last] - window && forall t :: t in Instants(times, window, i) ==> t > times[last] - window
  }

  lemma InstantsAdd(times: seq<Time>, window: nat, i: nat, last: nat)
    requires Ordered(times) && i < last < |times| && OwnInstants(times, i, last)
    requires StillInWindow(times, window, i, last)
    ensures |Instants(times, window, last)| == |Instants(times, window, i)| + last - i
  {
    InstantsSince(times, window, i);
    InstantsSince(times, window, last);
    SameSince(times, i, times[last] - window, times[i] - window);
    forall k | i <= k < last ensures times[k] > times[last] - window {
      assert times[i] <= times[k];
    }
    SinceMany(times, i, last - i, times[last] - window);
  }

  /** It is the most that can be promised: one request more, while all of them still count, is refused. */
  lemma RemainingIsMost(times: seq<Time>, limit: int, window: nat, i: nat, last: nat)
    requires Ordered(times) && i < last < |times| && Allowed(times, limit, window, i)
    requires last == i + Decide(CountAt(times, window, i), limit, times[i], window).remaining + 1
    requires OwnInstants(times, i, last) && StillInWindow(times, window, i, last)
    ensures !Allowed(times, limit, window, last)
  {
    MeaningByInstants(times, limit, window, i);
    MeaningByInstants(times, limit, window, last);
    InstantsAdd(times, window, i, last);
  }

  /** A request at or after the reset time, with none in between, is allowed. */
  lemma ResetIsKept(times: seq<Time>, limit: int, window: nat, i: nat)
    requires Ordered(times) && i + 1 < |times| && limit >= 1
    requires times[i + 1] >= Decide(CountAt(times, window, i), limit, times[i], window).reset
    ensures Allowed(times, limit, window, i + 1)
  {
    MeaningByInstants(times, limit, window, i + 1);
    assert Instants(times, window, i + 1) == {};
  }

  /** With a limit of one the reset time is the first that is: before it the next request is refused. */
  lemma ResetIsFirst(times: seq<Time>, window: nat, i: nat)
    requires Ordered(times) && i + 1 < |times|
    requires times[i + 1] < Decide(CountAt(times, window, i), 1, times[i], window).reset
    ensures !Allowed(times, 1, window, i + 1)
  {
    MeaningByInstants(times, 1, window, i + 1);
    assert times[i] in Instants(times, window, i + 1);
  }

  /** The X-RateLimit-Reset header cuts the reset time to its second, which can be too early ... */
  lemma HeaderTooEarly()
    ensures var window := 60 * SECOND; var times := [SECOND - 1, 60 * SECOND];
      && Decide(CountAt(times, window, 0), 1, times[0], window).reset / SECOND * SECOND == times[1]
      && !Allowed(times, 1, window, 1)
  {
    var times := [SECOND - 1, 60 * SECOND];
    MeaningByInstants(times, 1, 60 * SECOND, 1);
    assert times[0] in Instants(times, 60 * SECOND, 1);
  }

  // The instants up to request i that the cut off second still has in its window.
  function StillCounted(times: seq<Time>, window: nat, i: nat): set<Time>
    requires i < |times|
  {
    set j | 0 <= j <= i && times[j] > times[i] - (times[i] + window) % SECOND :: times[j]
  }

  /**
   ... exactly when the fraction of a second that is cut off the reset time still holds as many requests as the
   limit ...
   */
  lemma HeaderExact(times: seq<Time>, limit: int, window: nat, i: nat)
    requires Ordered(times) && i + 1 < |times|
    requires times[i + 1] == Decide(CountAt(times, window, i), limit, times[i], window).reset / SECOND * SECOND
    ensures Allowed(times, limit, window, i + 1) <==> |StillCounted(times, window, i)| < limit
  {
    MeaningByInstants(times, limit, window, i + 1);
    assert times[i + 1] - window == times[i] - (times[i] + window) % SECOND;
    assert Instants(times, window, i + 1) == StillCounted(times, window, i);
  }

  /** ... but by less than a second. */
  lemma HeaderPlusOneSecond(times: seq<Time>, limit: int, window: nat, i: nat)
    requires Ordered(times) && i + 1 < |times| && limit >= 1
    requires times[i + 1] >= (Decide(CountAt(times, window, i), limit, times[i], window).reset / SECOND + 1) * SECOND
    ensures Allowed(times, limit, window, i + 1)
  {
    ResetIsKept(times, limit, window, i);
  }

  // The instants up to request i that a request so much before its reset time still has in its window.
  function CountedBefore(times: seq<Time>, i: nat, early: int): set<Time>
    requires i < |times|
  {
    set j | 0 <= j <= i && times[j] > times[i] - early :: times[j]
  }

  /**
   Retry-After is too early exactly when the fraction of a second it cuts off still holds as many requests as the limit,
   in windows below 2^24 seconds; one second more is enough.
   */
  lemma RetryExact(times: seq<Time>, limit: int, window: nat, i: nat, answered: Time)
    requires Ordered(times) && i + 1 < |times| && times[i] <= answered && window < 16777216 * SECOND
    requires var left := Decide(CountAt(times, window, i), limit, times[i], window).reset - answered;
      left >= 0 && times[i + 1] == answered + Timeouts.StoredSeconds(left) * SECOND
    ensures Allowed(times, limit, window, i + 1)
       <==> |CountedBefore(times, i, (times[i] + window - answered) % SECOND)| < limit
  {
    var left := times[i] + window - answered;
    Timeouts.FirstToGrow(left);
    assert Timeouts.StoredSeconds(left) == left / SECOND;
    MeaningByInstants(times, limit, window, i + 1);
    assert times[i + 1] - window == times[i] - left % SECOND;
    assert Instants(times, window, i + 1) == CountedBefore(times, i, left % SECOND);
  }

  lemma RetryPlusOneSecond(times: seq<Time>, limit: int, window: nat, i: nat, answered: Time)
    requires Ordered(times) && i + 1 < |times| && limit >= 1
    requires var left := Decide(CountAt(times, window, i), limit, times[i], window).reset - answered;
      0 <= left && times[i] <= answered && times[i + 1] >= answered + (Timeouts.StoredSeconds(left) + 1) * SECOND
    ensures Allowed(times, limit, window, i + 1)
  {
    assert Timeouts.StoredSeconds(times[i] + window - answered) >= (times[i] + window - answered) / SECOND;
    ResetIsKept(times, limit, window, i);
  }
}
