/** Ranking dictionary entries by value, as the top-clients report does with
    `Object.entries(d).sort((a, b) => b[1] - a[1]).slice(0, limit)`.
    `Array.prototype.sort` is stable, so entries of equal value keep their
    insertion order. */
module Ranking {
  import opened Seqs
  import opened Groups

  /** Values never increase along the sequence. */
  predicate SortedDesc<K>(s: seq<(K, int)>)
  {
    forall i, j :: 0 <= i < j < |s| ==> s[i].1 >= s[j].1
  }

  /** Inserts x after every leading entry whose value is at least x's. */
  function InsertDesc<K>(x: (K, int), s: seq<(K, int)>): (r: seq<(K, int)>)
    ensures |r| == |s| + 1
    ensures multiset(r) == multiset(s) + multiset{x}
    decreases |s|
  {
    if s == [] || s[0].1 < x.1 then [x] + s
    else
      assert s == [s[0]] + s[1..];
      [s[0]] + InsertDesc(x, s[1..])
  }

  /** The comparator sort: each entry in turn inserted after the entries of at
      least its value that came before it. */
  function SortDesc<K>(s: seq<(K, int)>): (r: seq<(K, int)>)
    ensures |r| == |s|
    ensures multiset(r) == multiset(s)
    decreases |s|
  {
    if s == [] then []
    else
      var n := |s| - 1;
      assert s == s[..n] + [s[n]];
      InsertDesc(s[n], SortDesc(s[..n]))
  }

  /** `s.slice(0, n)`: a prefix of s; a negative n counts from the end. */
  function Take<T>(s: seq<T>, n: int): (r: seq<T>)
    ensures |r| <= |s| && r == s[..|r|]
    ensures n >= 0 ==> |r| == if n < |s| then n else |s|
    ensures n < 0 ==> |r| == if |s| + n > 0 then |s| + n else 0
  {
    if n >= 0 then s[..if n < |s| then n else |s|]
    else s[..if |s| + n > 0 then |s| + n else 0]
  }

  lemma {:induction false} InsertDescSorted<K>(x: (K, int), s: seq<(K, int)>)
    requires SortedDesc(s)
    ensures SortedDesc(InsertDesc(x, s))
    decreases |s|
  {
    if s != [] && s[0].1 >= x.1 {
      var rest := InsertDesc(x, s[1..]);
      InsertDescSorted(x, s[1..]);
      forall j | 0 <= j < |rest| ensures s[0].1 >= rest[j].1 {
        assert rest[j] in multiset(rest);
        if rest[j] != x {
          assert rest[j] in multiset(s[1..]);
          var m :| 0 <= m < |s[1..]| && s[1..][m] == rest[j];
          assert s[m + 1] == rest[j];
        }
      }
    }
  }

  /** The sort orders by value, highest first. */
  lemma {:induction false} SortDescSorted<K>(s: seq<(K, int)>)
    ensures SortedDesc(SortDesc(s))
    decreases |s|
  {
    if s != [] {
      var n := |s| - 1;
      SortDescSorted(s[..n]);
      InsertDescSorted(s[n], SortDesc(s[..n]));
    }
  }

  /** Inserting an entry under a fresh key keeps the keys distinct and adds that key. */
  lemma {:induction false} InsertDescKeys<K>(x: (K, int), s: seq<(K, int)>)
    requires Distinct(Keys(s)) && x.0 !in Keys(s)
    ensures Distinct(Keys(InsertDesc(x, s)))
    ensures forall k :: k in Keys(InsertDesc(x, s)) <==> k == x.0 || k in Keys(s)
    decreases |s|
  {
    var r := InsertDesc(x, s);
    if s == [] || s[0].1 < x.1 {
      assert Keys(r) == [x.0] + Keys(s);
      DistinctCons(x.0, Keys(s));
    } else {
      var tail := s[1..];
      assert Keys(s) == [s[0].0] + Keys(tail);
      assert Distinct(Keys(tail)) by {
        forall a, b | 0 <= a < b < |tail| ensures Keys(tail)[a] != Keys(tail)[b] {
          assert Keys(s)[a + 1] != Keys(s)[b + 1];
        }
      }
      assert x.0 !in Keys(tail);
      InsertDescKeys(x, tail);
      var rest := InsertDesc(x, tail);
      assert r == [s[0]] + rest;
      assert Keys(r) == [s[0].0] + Keys(rest);
      assert s[0].0 !in Keys(tail) by {
        forall b | 0 <= b < |tail| ensures Keys(tail)[b] != s[0].0 {
          assert Keys(s)[0] != Keys(s)[b + 1];
        }
      }
      assert s[0].0 != x.0 by {
        assert Keys(s)[0] == s[0].0;
      }
      DistinctCons(s[0].0, Keys(rest));
    }
  }

  /** Sorting entries with distinct keys keeps them distinct, with the same keys. */
  lemma {:induction false} SortDescKeys<K>(s: seq<(K, int)>)
    requires Distinct(Keys(s))
    ensures Distinct(Keys(SortDesc(s)))
    ensures forall k :: k in Keys(SortDesc(s)) <==> k in Keys(s)
    decreases |s|
  {
    if s != [] {
      var n := |s| - 1;
      var init := s[..n];
      assert Keys(s) == Keys(init) + [s[n].0];
      assert Distinct(Keys(init)) by {
        forall a, b | 0 <= a < b < n ensures Keys(init)[a] != Keys(init)[b] {
          assert Keys(s)[a] != Keys(s)[b];
        }
      }
      assert s[n].0 !in Keys(init) by {
        forall a | 0 <= a < n ensures Keys(init)[a] != s[n].0 {
          assert Keys(s)[a] != Keys(s)[n];
        }
      }
      SortDescKeys(init);
      InsertDescKeys(s[n], SortDesc(init));
    }
  }

  /** The first n of the ranking are the top n: an entry left out is worth no
      more than any entry kept. */
  lemma TakeTop<K>(s: seq<(K, int)>, n: int)
    ensures forall x, y :: x in s && x !in Take(SortDesc(s), n) && y in Take(SortDesc(s), n) ==> x.1 <= y.1
  {
    var r := SortDesc(s);
    var top := Take(r, n);
    SortDescSorted(s);
    forall x, y | x in s && x !in top && y in top ensures x.1 <= y.1 {
      assert x in multiset(r);
      var j :| 0 <= j < |r| && r[j] == x;
      var i :| 0 <= i < |top| && top[i] == y;
      assert r[i] == y;
    }
  }
}
