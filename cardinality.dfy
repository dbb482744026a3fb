/** Sizes of finite sets, as the termination and counting arguments of the
    other modules need them. */
module Cardinality {

  lemma {:induction false} SubsetNoLarger<T>(a: set<T>, b: set<T>)
    requires a <= b
    ensures |a| <= |b|
    decreases |a|
  {
    if a != {} {
      var x :| x in a;
      SubsetNoLarger(a - {x}, b - {x});
      assert a - {x} + {x} == a;
      assert b - {x} + {x} == b;
    }
  }

  lemma FewerLeft<T>(a: set<T>, b: set<T>)
    requires a < b
    ensures |a| < |b|
  {
    var x :| x in b && x !in a;
    var rest := b - {x};
    SubsetNoLarger(a, rest);
    assert rest + {x} == b;
  }

  /** The naturals from `lo` to `hi`. */
  function Span(lo: nat, hi: nat): set<nat>
    decreases hi + 1 - lo
  {
    if lo > hi then {} else {lo} + Span(lo + 1, hi)
  }

  lemma {:induction false} InSpan(lo: nat, hi: nat, t: nat)
    requires lo <= t <= hi
    ensures t in Span(lo, hi)
    decreases hi + 1 - lo
  {
    if t > lo {
      InSpan(lo + 1, hi, t);
    }
  }

  lemma {:induction false} SpanSize(lo: nat, hi: nat)
    requires lo <= hi + 1
    ensures |Span(lo, hi)| == hi + 1 - lo
    decreases hi + 1 - lo
  {
    if lo <= hi {
      SpanSize(lo + 1, hi);
      SpanAbove(lo + 1, hi, lo);
    }
  }

  lemma {:induction false} SpanAbove(lo: nat, hi: nat, t: nat)
    requires t < lo
    ensures t !in Span(lo, hi)
    decreases hi + 1 - lo
  {
    if lo <= hi {
      SpanAbove(lo + 1, hi, t);
    }
  }
}
