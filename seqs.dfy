/** The array operations the source applies to query results (`filter`,
    `reduce` into a sum, `length` of a filter), as left folds over sequences,
    with the facts the aggregators rely on. */
module Seqs {

  /** `s.filter(p)`: the elements satisfying p, in their original order. */
  function Filter<T>(s: seq<T>, p: T -> bool): (r: seq<T>)
    ensures |r| <= |s|
    ensures forall i :: 0 <= i < |r| ==> p(r[i])
    decreases |s|
  {
    if s == [] then []
    else Filter(s[..|s| - 1], p) + (if p(s[|s| - 1]) then [s[|s| - 1]] else [])
  }

  /** `s.reduce((sum, x) => sum + f(x), 0)`. */
  function SumBy<T>(s: seq<T>, f: T -> int): int
    decreases |s|
  {
    if s == [] then 0 else SumBy(s[..|s| - 1], f) + f(s[|s| - 1])
  }

  /** `s.filter(p).length`. */
  function Count<T>(s: seq<T>, p: T -> bool): nat
  {
    |Filter(s, p)|
  }

  /** The complement of a test. */
  function Not<T>(p: T -> bool): T -> bool
  {
    x => !p(x)
  }

  lemma {:induction false} FilterMembers<T>(s: seq<T>, p: T -> bool)
    ensures forall x :: x in Filter(s, p) <==> x in s && p(x)
    decreases |s|
  {
    if s != [] {
      FilterMembers(s[..|s| - 1], p);
      assert s == s[..|s| - 1] + [s[|s| - 1]];
    }
  }

  /** One element at a time: x is kept exactly when it occurs and passes the test. */
  lemma FilterContains<T>(s: seq<T>, p: T -> bool, x: T)
    ensures x in Filter(s, p) <==> x in s && p(x)
  {
    FilterMembers(s, p);
  }

  /** Two tests that agree everywhere select the same elements. */
  lemma {:induction false} FilterCongruent<T>(s: seq<T>, p: T -> bool, q: T -> bool)
    requires forall x :: p(x) == q(x)
    ensures Filter(s, p) == Filter(s, q)
    decreases |s|
  {
    if s != [] {
      FilterCongruent(s[..|s| - 1], p, q);
    }
  }

  lemma {:induction false} FilterConcat<T>(a: seq<T>, b: seq<T>, p: T -> bool)
    ensures Filter(a + b, p) == Filter(a, p) + Filter(b, p)
    decreases |b|
  {
    if b == [] {
      assert a + b == a;
    } else {
      var b' := b[..|b| - 1];
      assert (a + b)[..|a + b| - 1] == a + b';
      FilterConcat(a, b', p);
    }
  }

  lemma {:induction false} SumByConcat<T>(a: seq<T>, b: seq<T>, f: T -> int)
    ensures SumBy(a + b, f) == SumBy(a, f) + SumBy(b, f)
    decreases |b|
  {
    if b == [] {
      assert a + b == a;
    } else {
      var b' := b[..|b| - 1];
      assert (a + b)[..|a + b| - 1] == a + b';
      SumByConcat(a, b', f);
    }
  }

  /** The elements kept and the elements dropped by a filter account for every element. */
  lemma {:induction false} FilterSplitCount<T>(s: seq<T>, p: T -> bool)
    ensures |Filter(s, p)| + |Filter(s, Not(p))| == |s|
    decreases |s|
  {
    if s != [] {
      FilterSplitCount(s[..|s| - 1], p);
    }
  }

  /** ... and for every element's weight. */
  lemma {:induction false} FilterSplitSum<T>(s: seq<T>, p: T -> bool, f: T -> int)
    ensures SumBy(Filter(s, p), f) + SumBy(Filter(s, Not(p)), f) == SumBy(s, f)
    decreases |s|
  {
    if s != [] {
      var s' := s[..|s| - 1];
      var x := s[|s| - 1];
      FilterSplitSum(s', p, f);
      if p(x) {
        assert !Not(p)(x);
        assert Filter(s, Not(p)) == Filter(s', Not(p));
        assert Filter(s, p) == Filter(s', p) + [x];
        assert (Filter(s', p) + [x])[..|Filter(s', p)|] == Filter(s', p);
      } else {
        assert Not(p)(x);
        assert Filter(s, p) == Filter(s', p);
        assert Filter(s, Not(p)) == Filter(s', Not(p)) + [x];
        assert (Filter(s', Not(p)) + [x])[..|Filter(s', Not(p))|] == Filter(s', Not(p));
      }
    }
  }

  /** Replacing one element changes a sum by the difference of the weights. */
  lemma {:induction false} SumByUpdate<T>(s: seq<T>, i: nat, x: T, f: T -> int)
    requires i < |s|
    ensures SumBy(s[i := x], f) == SumBy(s, f) - f(s[i]) + f(x)
    decreases |s|
  {
    var n := |s| - 1;
    if i == n {
      assert s[i := x][..n] == s[..n];
    } else {
      assert s[i := x][..n] == s[..n][i := x];
      SumByUpdate(s[..n], i, x, f);
    }
  }

  /** A filter whose test holds of every element keeps all of them. */
  lemma {:induction false} FilterAll<T>(s: seq<T>, p: T -> bool)
    requires forall i :: 0 <= i < |s| ==> p(s[i])
    ensures Filter(s, p) == s
    decreases |s|
  {
    if s != [] {
      FilterAll(s[..|s| - 1], p);
    }
  }

  /** A filter whose test holds of no element keeps none. */
  lemma {:induction false} FilterNone<T>(s: seq<T>, p: T -> bool)
    requires forall i :: 0 <= i < |s| ==> !p(s[i])
    ensures Filter(s, p) == []
    decreases |s|
  {
    if s != [] {
      FilterNone(s[..|s| - 1], p);
    }
  }

  /** Summing weights that are all zero gives zero. */
  lemma {:induction false} SumByZero<T>(s: seq<T>, f: T -> int)
    requires forall i :: 0 <= i < |s| ==> f(s[i]) == 0
    ensures SumBy(s, f) == 0
    decreases |s|
  {
    if s != [] {
      SumByZero(s[..|s| - 1], f);
    }
  }

  /** Summing the weight 1 counts. */
  lemma {:induction false} SumByOnes<T>(s: seq<T>, f: T -> int)
    requires forall i :: 0 <= i < |s| ==> f(s[i]) == 1
    ensures SumBy(s, f) == |s|
    decreases |s|
  {
    if s != [] {
      SumByOnes(s[..|s| - 1], f);
    }
  }

  /** Two weights that agree on every element give the same sum. */
  lemma {:induction false} SumByCongruent<T>(s: seq<T>, f: T -> int, g: T -> int)
    requires forall i :: 0 <= i < |s| ==> f(s[i]) == g(s[i])
    ensures SumBy(s, f) == SumBy(s, g)
    decreases |s|
  {
    if s != [] {
      SumByCongruent(s[..|s| - 1], f, g);
    }
  }

  /** Non-negative weights give a non-negative sum. */
  lemma {:induction false} SumByNonNegative<T>(s: seq<T>, f: T -> int)
    requires forall i :: 0 <= i < |s| ==> f(s[i]) >= 0
    ensures SumBy(s, f) >= 0
    decreases |s|
  {
    if s != [] {
      SumByNonNegative(s[..|s| - 1], f);
    }
  }

  /** Filtering one more element of s: the filter of the longer prefix adds that
      element when it passes the test. */
  lemma FilterPrefixStep<T>(s: seq<T>, p: T -> bool, i: nat)
    requires i < |s|
    ensures Filter(s[..i + 1], p) == Filter(s[..i], p) + (if p(s[i]) then [s[i]] else [])
  {
    assert s[..i + 1][..i] == s[..i];
  }

  /** A weight that is zero outside a test sums to the weights of the elements
      passing the test. */
  lemma {:induction false} SumByMasked<T>(s: seq<T>, p: T -> bool, f: T -> int, g: T -> int)
    requires forall x :: g(x) == (if p(x) then f(x) else 0)
    ensures SumBy(s, g) == SumBy(Filter(s, p), f)
    decreases |s|
  {
    if s != [] {
      var s' := s[..|s| - 1];
      var x := s[|s| - 1];
      SumByMasked(s', p, f, g);
      if p(x) {
        assert Filter(s, p) == Filter(s', p) + [x];
        assert (Filter(s', p) + [x])[..|Filter(s', p)|] == Filter(s', p);
      } else {
        assert Filter(s, p) == Filter(s', p);
      }
    }
  }

  /** Filtering keeps elements told apart by f told apart. */
  lemma {:induction false} FilterDistinctBy<T, U>(s: seq<T>, p: T -> bool, f: T -> U)
    requires forall i, j :: 0 <= i < j < |s| ==> f(s[i]) != f(s[j])
    ensures forall i, j :: 0 <= i < j < |Filter(s, p)| ==> f(Filter(s, p)[i]) != f(Filter(s, p)[j])
    decreases |s|
  {
    if s != [] {
      var init := s[..|s| - 1];
      var x := s[|s| - 1];
      FilterDistinctBy(init, p, f);
      var r := Filter(s, p);
      var r0 := Filter(init, p);
      if p(x) {
        assert r == r0 + [x];
        forall i, j | 0 <= i < j < |r| ensures f(r[i]) != f(r[j]) {
          assert r[i] == r0[i];
          if j < |r0| {
            assert r[j] == r0[j];
          } else {
            assert r[j] == x;
            FilterContains(init, p, r0[i]);
            var k :| 0 <= k < |init| && init[k] == r0[i];
            assert s[k] == r0[i];
          }
        }
      }
    }
  }

  /** Pairwise distinct elements. */
  predicate Distinct<T(==)>(s: seq<T>)
  {
    forall i, j :: 0 <= i < j < |s| ==> s[i] != s[j]
  }

  /** Putting a new element after distinct elements keeps them distinct. */
  lemma DistinctSnoc<T>(s: seq<T>, x: T)
    requires Distinct(s) && x !in s
    ensures Distinct(s + [x])
  {
    var r := s + [x];
    forall i, j | 0 <= i < j < |r| ensures r[i] != r[j] {
      assert r[i] == s[i];
      if j < |s| {
        assert r[j] == s[j];
      }
    }
  }

  /** Putting a new element in front of distinct elements keeps them distinct. */
  lemma DistinctCons<T>(h: T, t: seq<T>)
    requires Distinct(t) && h !in t
    ensures Distinct([h] + t)
  {
    var s := [h] + t;
    forall i, j | 0 <= i < j < |s| ensures s[i] != s[j] {
      assert s[j] == t[j - 1];
      if i > 0 {
        assert s[i] == t[i - 1];
      }
    }
  }
}
