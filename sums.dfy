/** Finite sums of a real-valued measure over a sequence, as built by the source's
    accumulating loops, `reduce` calls and pandas `sum` aggregations. */
module Sums {

  /** The sum of `f` over `s`, accumulated from the front like a `for` loop with `+=`. */
  function Sum<T>(s: seq<T>, f: T -> real): real
    decreases |s|
  {
    if s == [] then 0.0 else Sum(s[..|s| - 1], f) + f(s[|s| - 1])
  }

  /** Summing a concatenation is summing the parts. */
  lemma {:induction false} SumAppend<T>(a: seq<T>, b: seq<T>, f: T -> real)
    ensures Sum(a + b, f) == Sum(a, f) + Sum(b, f)
    decreases |b|
  {
    if b == [] {
      assert a + b == a;
    } else {
      var b' := b[..|b| - 1];
      assert (a + b)[..|a + b| - 1] == a + b';
      assert (a + b)[|a + b| - 1] == b[|b| - 1];
      SumAppend(a, b', f);
    }
  }

  /** Taking out the element at `j` takes its value out of the sum. */
  lemma RemoveAtSum<T>(b: seq<T>, j: nat, f: T -> real)
    requires j < |b|
    ensures Sum(b, f) == Sum(b[..j] + b[j + 1..], f) + f(b[j])
  {
    var left, mid, right := b[..j], [b[j]], b[j + 1..];
    assert b == (left + mid) + right;
    SumAppend(left + mid, right, f);
    SumAppend(left, mid, f);
    SumAppend(left, right, f);
    assert mid[..0] == [];
    assert Sum(mid, f) == f(b[j]);
  }

  /** Taking out the element at `j` takes one copy of it out of the multiset. */
  lemma RemoveAtMultiset<T>(b: seq<T>, j: nat)
    requires j < |b|
    ensures multiset(b[..j] + b[j + 1..]) == multiset(b) - multiset{b[j]}
  {
    var left, mid, right := b[..j], [b[j]], b[j + 1..];
    assert b == (left + mid) + right;
    assert multiset(b) == multiset(left) + multiset(mid) + multiset(right);
  }

  /** The sum does not depend on the order of the elements. */
  lemma {:induction false} SumPermutation<T>(a: seq<T>, b: seq<T>, f: T -> real)
    requires multiset(a) == multiset(b)
    ensures Sum(a, f) == Sum(b, f)
    decreases |a|
  {
    if a == [] {
      assert |b| == |multiset(b)| == 0;
    } else {
      var x := a[|a| - 1];
      var a' := a[..|a| - 1];
      assert a == a' + [x];
      assert multiset(a') == multiset(a) - multiset{x};
      assert x in multiset(b);
      var j :| 0 <= j < |b| && b[j] == x;
      RemoveAtSum(b, j, f);
      RemoveAtMultiset(b, j);
      SumPermutation(a', b[..j] + b[j + 1..], f);
    }
  }

  /** A sum of values that all lie in `[lo, hi]` lies in `[|s| * lo, |s| * hi]`. */
  lemma {:induction false} SumBounds<T>(s: seq<T>, f: T -> real, lo: real, hi: real)
    requires forall i :: 0 <= i < |s| ==> lo <= f(s[i]) <= hi
    ensures |s| as real * lo <= Sum(s, f) <= |s| as real * hi
    decreases |s|
  {
    if s != [] {
      var s' := s[..|s| - 1];
      assert forall i :: 0 <= i < |s'| ==> s'[i] == s[i];
      SumBounds(s', f, lo, hi);
    }
  }
}
