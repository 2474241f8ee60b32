/** The rate limiter when pipelines fail: any of them may have run only the first of its commands. */
module RateLimitFailures {
  import opened RateLimit
  import opened Types

  // A request, and how many of its four commands ran; the third stores it, the fourth sets the key's expiry.
  datatype Try = Try(t: Time, ran: nat) {
    predicate Stored() {
      ran >= 3
    }

    predicate Complete() {
      ran >= 4
    }
  }

  predicate InOrder(tries: seq<Try>) {
    forall i, j :: 0 <= i < j < |tries| ==> tries[i].t <= tries[j].t
  }

  // The set after the first n pipelines.
  function Left(tries: seq<Try>, window: nat, n: nat): ZSet
    requires n <= |tries|
  {
    if n == 0 then NOTHING
    else Partly(Left(tries, window, n - 1), tries[n - 1].t, window, tries[n - 1].ran)
  }

  // What the next one finds, or would find, in its window.
  function Found(tries: seq<Try>, window: nat, n: nat): set<Time>
    requires n < |tries|
  {
    RemoveUpTo(Purge(Left(tries, window, n), tries[n].t), tries[n].t - window).members
  }

  // The instants of the requests stored in that window.
  function InWindow(tries: seq<Try>, window: nat, n: nat): set<Time>
    requires n < |tries|
  {
    set j | 0 <= j < n && tries[j].Stored() && tries[j].t > tries[n].t - window :: tries[j].t
  }

  // One of the pipelines from e on stored a request that is in j's window.
  predicate Sees(tries: seq<Try>, window: nat, e: nat, j: nat)
    requires j < |tries|
  {
    exists h :: e <= h < j && tries[h].Stored() && tries[h].t > tries[j].t - window
  }

  // Before pipeline n, the key has the expiry that e gave it: none has set it since, come after it, or emptied the set.
  predicate InForce(tries: seq<Try>, window: nat, e: nat, n: nat)
    requires n <= |tries|
  {
    && e < n && tries[e].Complete()
    && forall j :: e < j < n ==>
         && !tries[j].Complete() && tries[j].t < tries[e].t + Lifetime(window)
         && (tries[j].ran >= 1 ==> Sees(tries, window, e, j))
  }

  // That expiry takes a later request away that is still in the window of pipeline n.
  predicate Loses(tries: seq<Try>, window: nat, e: nat, n: nat)
    requires n < |tries|
  {
    && InForce(tries, window, e, n) && tries[e].t + Lifetime(window) <= tries[n].t
    && exists h :: e < h < n && tries[h].Stored() && tries[h].t > tries[n].t - window
  }

  // ---------- one pipeline ----------

  // Its commands, by what they leave.
  lemma PartlyLeaves(z: ZSet, t: Time, window: nat, ran: nat)
    ensures var next, purged := Partly(z, t, window, ran), Purge(z, t); var kept := RemoveUpTo(purged, t - window);
      && (ran == 0 ==> next == purged)
      && (1 <= ran < 3 ==> next == kept)
      && (ran >= 3 ==> next.members == kept.members + {t})
      && next.expiresAt ==
         if ran >= 4 then Some(t + Lifetime(window)) else if ran >= 1 then kept.expiresAt else purged.expiresAt
  {
  }

  lemma Prunes(z: ZSet, top: int)
    ensures forall m :: m in RemoveUpTo(z, top).members <==> m in z.members && m > top
    ensures RemoveUpTo(z, top).expiresAt == if RemoveUpTo(z, top).members == {} then None else z.expiresAt
  {
  }

  lemma Leaves(tries: seq<Try>, window: nat, n: nat)
    requires n < |tries|
    ensures var z, t, ran := Purge(Left(tries, window, n), tries[n].t), tries[n].t, tries[n].ran;
      && (forall m :: m in Left(tries, window, n + 1).members <==>
            (m in z.members && (ran >= 1 ==> m > t - window)) || (ran >= 3 && m == t))
      && Left(tries, window, n + 1).expiresAt ==
         if ran >= 4 then Some(t + Lifetime(window))
         else if ran >= 1 && Found(tries, window, n) == {} then None
         else z.expiresAt
  {
    PartlyLeaves(Left(tries, window, n), tries[n].t, window, tries[n].ran);
    Prunes(Purge(Left(tries, window, n), tries[n].t), tries[n].t - window);
  }

  lemma FoundMembers(tries: seq<Try>, window: nat, n: nat)
    requires n < |tries|
    ensures forall m :: m in Found(tries, window, n) <==>
      m in Purge(Left(tries, window, n), tries[n].t).members && m > tries[n].t - window
  {
    Prunes(Purge(Left(tries, window, n), tries[n].t), tries[n].t - window);
  }

  // ---------- the expiry in force ----------

  // What was stored since pipeline e and is in the window of the last one is in the set.
  predicate Holds(tries: seq<Try>, window: nat, e: nat, n: nat)
    requires 0 < n <= |tries|
  {
    forall h :: e <= h < n && tries[h].Stored() && tries[h].t > tries[n - 1].t - window ==>
      tries[h].t in Left(tries, window, n).members
  }

  lemma {:induction false} HeldInForce(tries: seq<Try>, window: nat, e: nat, n: nat)
    requires InOrder(tries) && n <= |tries| && InForce(tries, window, e, n)
    ensures Left(tries, window, n).expiresAt == Some(tries[e].t + Lifetime(window)) && Holds(tries, window, e, n)
    decreases n
  {
    if e < n - 1 {
      HeldInForce(tries, window, e, n - 1);
      HeldOn(tries, window, e, n);
    } else {
      HeldAtOnce(tries, window, n);
    }
  }

  lemma HeldAtOnce(tries: seq<Try>, window: nat, n: nat)
    requires 0 < n <= |tries| && tries[n - 1].Complete()
    ensures Left(tries, window, n).expiresAt == Some(tries[n - 1].t + Lifetime(window))
    ensures Holds(tries, window, n - 1, n)
  {
    Leaves(tries, window, n - 1);
  }

  // A pipeline that is not complete, comes before the expiry, and finds something if it prunes.
  lemma HeldOn(tries: seq<Try>, window: nat, e: nat, n: nat)
    requires InOrder(tries) && e < n - 1 < |tries| && InForce(tries, window, e, n)
    requires Left(tries, window, n - 1).expiresAt == Some(tries[e].t + Lifetime(window))
    requires Holds(tries, window, e, n - 1)
    ensures Left(tries, window, n).expiresAt == Some(tries[e].t + Lifetime(window)) && Holds(tries, window, e, n)
  {
    NotPurged(Left(tries, window, n - 1), tries[n - 1].t);
    if tries[n - 1].ran >= 1 {
      SeenIsFound(tries, window, e, n - 1);
    }
    ExpiryOn(tries, window, n);
    HoldsOn(tries, window, e, n);
  }

  lemma NotPurged(z: ZSet, t: Time)
    requires z.expiresAt.Some? && t < z.expiresAt.value
    ensures Purge(z, t) == z
  {
  }

  lemma ExpiryOn(tries: seq<Try>, window: nat, n: nat)
    requires 0 < n <= |tries| && !tries[n - 1].Complete()
    requires Purge(Left(tries, window, n - 1), tries[n - 1].t) == Left(tries, window, n - 1)
    requires tries[n - 1].ran >= 1 ==> Found(tries, window, n - 1) != {}
    ensures Left(tries, window, n).expiresAt == Left(tries, window, n - 1).expiresAt
  {
    Leaves(tries, window, n - 1);
  }

  lemma HoldsOn(tries: seq<Try>, window: nat, e: nat, n: nat)
    requires InOrder(tries) && e < n - 1 < |tries| && Holds(tries, window, e, n - 1)
    requires Purge(Left(tries, window, n - 1), tries[n - 1].t) == Left(tries, window, n - 1)
    ensures Holds(tries, window, e, n)
  {
    Leaves(tries, window, n - 1);
  }

  lemma SeenIsFound(tries: seq<Try>, window: nat, e: nat, n: nat)
    requires InOrder(tries) && 0 < n < |tries| && Holds(tries, window, e, n) && Sees(tries, window, e, n)
    requires Purge(Left(tries, window, n), tries[n].t) == Left(tries, window, n)
    ensures Found(tries, window, n) != {}
  {
    FoundMembers(tries, window, n);
    var h :| e <= h < n && tries[h].Stored() && tries[h].t > tries[n].t - window;
    assert tries[h].t in Found(tries, window, n);
  }

  lemma {:induction false} MembersStored(tries: seq<Try>, window: nat, n: nat, m: Time)
    requires n <= |tries| && m in Left(tries, window, n).members
    ensures exists h :: 0 <= h < n && tries[h].Stored() && tries[h].t == m
    decreases n
  {
    Leaves(tries, window, n - 1);
    if tries[n - 1].Stored() && tries[n - 1].t == m {
    } else {
      MembersStored(tries, window, n - 1, m);
    }
  }

  // Whatever expiry the key has, some pipeline gave it.
  lemma {:induction false} ExpiryInForce(tries: seq<Try>, window: nat, n: nat) returns (e: nat)
    requires InOrder(tries) && n <= |tries| && Left(tries, window, n).expiresAt.Some?
    ensures InForce(tries, window, e, n) && Left(tries, window, n).expiresAt == Some(tries[e].t + Lifetime(window))
    decreases n
  {
    if tries[n - 1].Complete() {
      e := n - 1;
      HeldAtOnce(tries, window, n);
    } else {
      NotSet(tries, window, n);
      e := ExpiryInForce(tries, window, n - 1);
      StillInForce(tries, window, e, n);
    }
  }

  // A pipeline that leaves an expiry it has not set found it, and if it pruned, found members too.
  lemma NotSet(tries: seq<Try>, window: nat, n: nat)
    requires 0 < n <= |tries| && !tries[n - 1].Complete() && Left(tries, window, n).expiresAt.Some?
    ensures Left(tries, window, n - 1).expiresAt == Left(tries, window, n).expiresAt
    ensures tries[n - 1].t < Left(tries, window, n).expiresAt.value
    ensures tries[n - 1].ran >= 1 ==> Found(tries, window, n - 1) != {}
  {
    Leaves(tries, window, n - 1);
  }

  lemma StillInForce(tries: seq<Try>, window: nat, e: nat, n: nat)
    requires InOrder(tries) && 0 < n <= |tries| && InForce(tries, window, e, n - 1) && !tries[n - 1].Complete()
    requires tries[n - 1].t < tries[e].t + Lifetime(window)
    requires tries[n - 1].ran >= 1 ==> Found(tries, window, n - 1) != {}
    ensures InForce(tries, window, e, n)
  {
    if tries[n - 1].ran >= 1 {
      FoundIsSeen(tries, window, e, n - 1);
    }
  }

  lemma FoundIsSeen(tries: seq<Try>, window: nat, e: nat, n: nat)
    requires InOrder(tries) && e < n < |tries| && tries[e].Complete() && Found(tries, window, n) != {}
    ensures Sees(tries, window, e, n)
  {
    FoundMembers(tries, window, n);
    var m :| m in Found(tries, window, n);
    MembersStored(tries, window, n, m);
    var h :| 0 <= h < n && tries[h].Stored() && tries[h].t == m;
    assert tries[if h < e then e else h].t > tries[n].t - window;
  }

  // ---------- what is found ----------

  // Nothing is found that was not stored: failures let more requests through, never fewer.
  lemma FoundIsStored(tries: seq<Try>, window: nat, n: nat)
    requires n < |tries|
    ensures Found(tries, window, n) <= InWindow(tries, window, n)
  {
    FoundMembers(tries, window, n);
    forall m | m in Found(tries, window, n) ensures m in InWindow(tries, window, n) {
      MembersStored(tries, window, n, m);
    }
  }

  lemma LosesSome(tries: seq<Try>, window: nat, e: nat, n: nat)
    requires InOrder(tries) && n < |tries| && Loses(tries, window, e, n)
    ensures Found(tries, window, n) != InWindow(tries, window, n)
  {
    HeldInForce(tries, window, e, n);
    FoundMembers(tries, window, n);
    var h :| e < h < n && tries[h].Stored() && tries[h].t > tries[n].t - window;
    assert tries[h].t in InWindow(tries, window, n);
  }

  // An expiry that is due takes nothing from the window.
  lemma NothingToLose(tries: seq<Try>, window: nat, n: nat)
    requires InOrder(tries) && n < |tries| && forall e: nat :: e < n ==> !Loses(tries, window, e, n)
    requires Purge(Left(tries, window, n), tries[n].t) != Left(tries, window, n)
    ensures InWindow(tries, window, n) == {}
  {
    var e := ExpiryInForce(tries, window, n);
    assert !Loses(tries, window, e, n);
    forall h | 0 <= h < n && tries[h].Stored() ensures tries[h].t <= tries[n].t - window {
      if h <= e {
        LifetimeLonger(window);
      }
    }
  }

  lemma LifetimeLonger(window: nat)
    ensures Lifetime(window) > window
  {
  }

  lemma FindsAll(tries: seq<Try>, window: nat, n: nat)
    requires InOrder(tries) && n < |tries| && (n > 0 ==> Holds(tries, window, 0, n))
    requires forall e: nat :: e < n ==> !Loses(tries, window, e, n)
    ensures InWindow(tries, window, n) <= Found(tries, window, n)
  {
    if Purge(Left(tries, window, n), tries[n].t) != Left(tries, window, n) {
      NothingToLose(tries, window, n);
    } else {
      FoundMembers(tries, window, n);
    }
  }

  predicate Loseless(tries: seq<Try>, window: nat) {
    forall e: nat, n: nat :: e < n < |tries| ==> !Loses(tries, window, e, n)
  }

  lemma {:induction false} HoldsAll(tries: seq<Try>, window: nat, n: nat)
    requires InOrder(tries) && Loseless(tries, window) && 0 < n <= |tries|
    ensures Holds(tries, window, 0, n)
    decreases n
  {
    if n > 1 {
      HoldsAll(tries, window, n - 1);
    }
    FindsAll(tries, window, n - 1);
    HoldsFound(tries, window, n - 1);
  }

  lemma HoldsFound(tries: seq<Try>, window: nat, n: nat)
    requires n < |tries| && InWindow(tries, window, n) <= Found(tries, window, n)
    ensures Holds(tries, window, 0, n + 1)
  {
    Leaves(tries, window, n);
    FoundMembers(tries, window, n);
    forall h | 0 <= h <= n && tries[h].Stored() && tries[h].t > tries[n].t - window
      ensures tries[h].t in Left(tries, window, n + 1).members
    {
      if h < n {
        assert tries[h].t in InWindow(tries, window, n);
      }
    }
  }

  lemma AsMany<T>(a: set<T>, b: set<T>)
    requires a <= b
    ensures |a| <= |b| && (|a| == |b| <==> a == b)
  {
    assert a + (b - a) == b;
    assert |a| + |b - a| == |b|;
    if a != b {
      var x :| x in b - a;
    }
  }

  /**
   Whichever pipelines fail, and after whichever command: all of them find as many requests as were stored in their
   window, exactly when no expiry that is still in force comes between a request stored after it was set and the end of
   that request's window. They never find more.
   */
  lemma MeaningWithFailures(tries: seq<Try>, window: nat)
    requires InOrder(tries)
    ensures forall n :: 0 <= n < |tries| ==> |Found(tries, window, n)| <= |InWindow(tries, window, n)|
    ensures (forall n :: 0 <= n < |tries| ==> |Found(tries, window, n)| == |InWindow(tries, window, n)|)
       <==> Loseless(tries, window)
  {
    forall n | 0 <= n < |tries|
      ensures |Found(tries, window, n)| <= |InWindow(tries, window, n)|
      ensures |Found(tries, window, n)| == |InWindow(tries, window, n)|
         <==> Found(tries, window, n) == InWindow(tries, window, n)
    {
      FoundIsStored(tries, window, n);
      AsMany(Found(tries, window, n), InWindow(tries, window, n));
    }
    if Loseless(tries, window) {
      forall n | 0 <= n < |tries| ensures Found(tries, window, n) == InWindow(tries, window, n) {
        if n > 0 {
          HoldsAll(tries, window, n);
        }
        FindsAll(tries, window, n);
        FoundIsStored(tries, window, n);
      }
    } else {
      var e: nat, n: nat :| e < n < |tries| && Loses(tries, window, e, n);
      LosesSome(tries, window, e, n);
    }
  }
}
