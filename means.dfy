/**
 * Arithmetic means as the services take them (`DoubleStream.average`, or a
 * hand-written mean that gives 0 for no values), on exact reals.
 */
module Means {

  function Sum(v: seq<real>): real
  {
    if v == [] then 0.0 else Sum(v[..|v| - 1]) + v[|v| - 1]
  }

  /** The arithmetic mean, and 0 for no values. */
  function Average(v: seq<real>): (a: real)
    ensures v == [] ==> a == 0.0
    ensures v != [] ==> a * (|v| as real) == Sum(v)
  {
    if v == [] then 0.0 else Sum(v) / (|v| as real)
  }

  lemma {:induction false} SumBounds(v: seq<real>, lo: real, hi: real)
    requires forall i :: 0 <= i < |v| ==> lo <= v[i] <= hi
    ensures lo * (|v| as real) <= Sum(v) <= hi * (|v| as real)
  {
    if v != [] {
      SumBounds(v[..|v| - 1], lo, hi);
      assert lo * (|v| as real) == lo * ((|v| - 1) as real) + lo;
      assert hi * (|v| as real) == hi * ((|v| - 1) as real) + hi;
    }
  }

  /** A mean of readings lies between any lower and upper bound of the readings. */
  lemma AverageBounds(v: seq<real>, lo: real, hi: real)
    requires v != []
    requires forall i :: 0 <= i < |v| ==> lo <= v[i] <= hi
    ensures lo <= Average(v) <= hi
  {
    SumBounds(v, lo, hi);
    var n := |v| as real;
    var a := Average(v);
    assert (a - lo) * n == Sum(v) - lo * n;
    assert (hi - a) * n == hi * n - Sum(v);
  }

  /** The mean of readings that all have the same value is that value. */
  lemma AverageOfConstant(v: seq<real>, c: real)
    requires v != []
    requires forall i :: 0 <= i < |v| ==> v[i] == c
    ensures Average(v) == c
  {
    AverageBounds(v, c, c);
  }

  lemma {:induction false} SumAppend(p: seq<real>, q: seq<real>)
    ensures Sum(p + q) == Sum(p) + Sum(q)
  {
    if q != [] {
      SumAppend(p, q[..|q| - 1]);
      assert (p + q)[..|p + q| - 1] == p + q[..|q| - 1];
    } else {
      assert p + q == p;
    }
  }

  /**
   * Two orderings of the same values: the last value of one occurs in the
   * other, and what is left of each is again a reordering of the other.
   */
  lemma PermutationWithoutLast<T>(a: seq<T>, b: seq<T>) returns (i: nat)
    requires a != [] && multiset(a) == multiset(b)
    ensures i < |b| && b[i] == a[|a| - 1]
    ensures multiset(a[..|a| - 1]) == multiset(b[..i] + b[i + 1..])
  {
    var x := a[|a| - 1];
    var init := a[..|a| - 1];
    assert a == init + [x];
    assert x in multiset(b);
    i :| 0 <= i < |b| && b[i] == x;
    var rest := b[..i] + b[i + 1..];
    assert b == b[..i] + [x] + b[i + 1..];
    assert multiset(a) == multiset(init) + multiset{x};
    assert multiset(b) == multiset(b[..i]) + multiset{x} + multiset(b[i + 1..]);
    assert multiset(rest) == multiset(b[..i]) + multiset(b[i + 1..]);
    forall y
      ensures multiset(init)[y] == multiset(rest)[y]
    {
      assert multiset(a)[y] == multiset(b)[y];
    }
  }

  /** The sum, and so the mean, does not depend on the order of the values. */
  lemma {:induction false} SumPermutation(a: seq<real>, b: seq<real>)
    requires multiset(a) == multiset(b)
    ensures Sum(a) == Sum(b)
    decreases |a|
  {
    if a == [] {
      assert |b| == |multiset(b)| == 0;
    } else {
      var x := a[|a| - 1];
      var i := PermutationWithoutLast(a, b);
      SumPermutation(a[..|a| - 1], b[..i] + b[i + 1..]);
      assert b == b[..i] + [x] + b[i + 1..];
      SumAppend(b[..i] + [x], b[i + 1..]);
      SumAppend(b[..i], [x]);
      SumAppend(b[..i], b[i + 1..]);
      assert [x][..0] == [];
    }
  }

  lemma AveragePermutation(a: seq<real>, b: seq<real>)
    requires multiset(a) == multiset(b)
    ensures Average(a) == Average(b)
  {
    SumPermutation(a, b);
    assert |a| == |multiset(a)| == |multiset(b)| == |b|;
  }
}
