/** Finite sets: runs of numbers, and sizes. */
module Sets {

  function Span(from: nat, count: nat): (s: set<nat>)
    ensures |s| == count && forall j :: j in s <==> from <= j < from + count
  {
    if count == 0 then {} else Span(from, count - 1) + {from + count - 1}
  }

  lemma SpanFirst(from: nat, n: nat)
    requires n > 0
    ensures Span(from, n) == {from} + Span(from + 1, n - 1)
  {
  }

  lemma SpanJoin(from: nat, a: nat, b: nat)
    ensures Span(from, a) + Span(from + a, b) == Span(from, a + b)
  {
  }

  lemma {:induction false} Subset<T>(a: set<T>, b: set<T>)
    requires a <= b
    ensures |a| <= |b|
    decreases |a|
  {
    if x :| x in a {
      Subset(a - {x}, b - {x});
    }
  }

  lemma Union<T>(a: set<T>, b: set<T>, whole: set<T>)
    requires whole <= a + b
    ensures |whole| <= |a| + |b|
  {
    Subset(whole, a + b);
    assert |a + b| <= |a| + |b|;
  }
}
