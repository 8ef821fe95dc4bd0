/** The JavaScript objects the aggregators use as dictionaries
    (`acc[key] = ...` inside `forEach` or `reduce`), modelled as the list of
    their entries in insertion order, which is the order `Object.entries`
    returns them in. */
module Groups {
  import opened Common
  import opened Seqs

  /** `Object.keys(d)`. */
  function Keys<K, V>(e: seq<(K, V)>): (ks: seq<K>)
    ensures |ks| == |e|
    ensures forall i :: 0 <= i < |e| ==> ks[i] == e[i].0
  {
    seq(|e|, i requires 0 <= i < |e| => e[i].0)
  }

  /** `d[k]`, None when k has no entry. */
  function Lookup<K(==), V>(e: seq<(K, V)>, k: K): Option<V>
  {
    if e == [] then None
    else if e[0].0 == k then Some(e[0].1)
    else Lookup(e[1..], k)
  }

  /** `if (!d[k]) d[k] = zero; d[k] = f(d[k])`: rewrites the entry of k where it
      stands, or appends a new entry when k has none. */
  function Upsert<K(==), V>(e: seq<(K, V)>, k: K, zero: V, f: V -> V): seq<(K, V)>
  {
    if e == [] then [(k, f(zero))]
    else if e[0].0 == k then [(k, f(e[0].1))] + e[1..]
    else [e[0]] + Upsert(e[1..], k, zero, f)
  }

  /** The weight of an entry: a projection of its value. */
  function Weigh<K, V>(proj: V -> int): ((K, V)) -> int
  {
    (e: (K, V)) => proj(e.1)
  }

  /** Does a row fall under key k? */
  function KeyIs<T, K(==)>(key: T -> K, k: K): T -> bool
  {
    t => key(t) == k
  }

  /** `rows.reduce(add, zero)`. */
  function Fold<T, V>(rows: seq<T>, zero: V, add: (V, T) -> V): V
    decreases |rows|
  {
    if rows == [] then zero
    else add(Fold(rows[..|rows| - 1], zero, add), rows[|rows| - 1])
  }

  /** The dictionary built by visiting the rows in order and folding each row
      into the entry of its key. */
  function GroupBy<T, K(==), V>(rows: seq<T>, key: T -> K, zero: V, add: (V, T) -> V): seq<(K, V)>
    decreases |rows|
  {
    if rows == [] then []
    else
      GroupStep(GroupBy(rows[..|rows| - 1], key, zero, add), key, zero, add, rows[|rows| - 1])
  }

  /** One visit of the fold: row t folded into the entry of its key. */
  function GroupStep<T, K(==), V>(e: seq<(K, V)>, key: T -> K, zero: V, add: (V, T) -> V, t: T): seq<(K, V)>
  {
    Upsert(e, key(t), zero, v => add(v, t))
  }

  /** The dictionary built by `d[key(t)] = val(t)` for each row t in order: a
      later row with a key already present overwrites its value in place. */
  function Assigned<T, K(==), V>(rows: seq<T>, key: T -> K, val: T -> V): seq<(K, V)>
    decreases |rows|
  {
    if rows == [] then []
    else AssignStep(Assigned(rows[..|rows| - 1], key, val), key, val, rows[|rows| - 1])
  }

  /** One assignment `d[key(t)] = val(t)`. */
  function AssignStep<T, K(==), V>(e: seq<(K, V)>, key: T -> K, val: T -> V, t: T): seq<(K, V)>
  {
    Upsert(e, key(t), val(t), (_: V) => val(t))
  }

  /** A key has a value exactly when it is one of the keys. */
  lemma {:induction false} LookupKeys<K, V>(e: seq<(K, V)>, k: K)
    ensures Lookup(e, k).Some? <==> k in Keys(e)
    decreases |e|
  {
    if e != [] {
      LookupKeys(e[1..], k);
      assert Keys(e) == [e[0].0] + Keys(e[1..]);
    }
  }

  /** Each key once, and exactly the keys of the rows. */
  lemma {:induction false} AssignedKeys<T, K, V>(rows: seq<T>, key: T -> K, val: T -> V)
    ensures Distinct(Keys(Assigned(rows, key, val)))
    ensures forall k :: k in Keys(Assigned(rows, key, val)) <==> exists i :: 0 <= i < |rows| && key(rows[i]) == k
    decreases |rows|
  {
    if rows != [] {
      var n := |rows| - 1;
      var last := rows[n];
      var prev := Assigned(rows[..n], key, val);
      AssignedKeys(rows[..n], key, val);
      UpsertKeys(prev, key(last), val(last), (_: V) => val(last));
      var ks := Keys(Assigned(rows, key, val));
      assert ks == if key(last) in Keys(prev) then Keys(prev) else Keys(prev) + [key(last)];
      if key(last) !in Keys(prev) {
        DistinctSnoc(Keys(prev), key(last));
      }
      forall k | k in ks ensures exists i :: 0 <= i < |rows| && key(rows[i]) == k {
        if k in Keys(prev) {
          var i :| 0 <= i < n && key(rows[..n][i]) == k;
          assert key(rows[i]) == k;
        } else {
          assert key(rows[n]) == k;
        }
      }
      forall i | 0 <= i < |rows| ensures key(rows[i]) in ks {
        AssignedHasKey(rows, key, val, i);
      }
    }
  }

  /** The key of every row is a key of the dictionary. */
  lemma {:induction false} AssignedHasKey<T, K, V>(rows: seq<T>, key: T -> K, val: T -> V, i: nat)
    requires i < |rows|
    ensures key(rows[i]) in Keys(Assigned(rows, key, val))
    decreases |rows|
  {
    var n := |rows| - 1;
    var last := rows[n];
    var prev := Assigned(rows[..n], key, val);
    UpsertKeys(prev, key(last), val(last), (_: V) => val(last));
    var ks := Keys(Assigned(rows, key, val));
    assert ks == if key(last) in Keys(prev) then Keys(prev) else Keys(prev) + [key(last)];
    if i < n {
      AssignedHasKey(rows[..n], key, val, i);
      assert rows[..n][i] == rows[i];
      assert key(rows[i]) in Keys(prev);
    } else if key(last) !in Keys(prev) {
      assert ks[|ks| - 1] == key(last);
    }
  }

  /** The value under a key is that of the last row carrying it: later rows overwrite earlier ones. */
  lemma {:induction false} AssignedLookup<T, K, V>(rows: seq<T>, key: T -> K, val: T -> V, j: nat)
    requires j < |rows|
    requires forall m :: j < m < |rows| ==> key(rows[m]) != key(rows[j])
    ensures Lookup(Assigned(rows, key, val), key(rows[j])) == Some(val(rows[j]))
    decreases |rows|
  {
    var n := |rows| - 1;
    var last := rows[n];
    UpsertLookup(Assigned(rows[..n], key, val), key(last), val(last), (_: V) => val(last), key(rows[j]));
    if j < n {
      AssignedLookup(rows[..n], key, val, j);
      assert rows[..n][j] == rows[j];
    }
  }

  /** Folding the rows that pass a test, one row further: the row is folded in
      when it passes. */
  lemma GroupByFilterStep<T, K, V>(rows: seq<T>, p: T -> bool, key: T -> K, zero: V, add: (V, T) -> V, i: nat)
    requires i < |rows|
    ensures GroupBy(Filter(rows[..i + 1], p), key, zero, add) ==
            if p(rows[i]) then GroupStep(GroupBy(Filter(rows[..i], p), key, zero, add), key, zero, add, rows[i])
            else GroupBy(Filter(rows[..i], p), key, zero, add)
  {
    FilterPrefixStep(rows, p, i);
    var sel := Filter(rows[..i], p);
    if p(rows[i]) {
      assert (sel + [rows[i]])[..|sel|] == sel;
    } else {
      assert sel + [] == sel;
    }
  }

  /** Assigning from the rows that pass a test, one row further: the row is
      assigned when it passes. */
  lemma AssignedFilterStep<T, K, V>(rows: seq<T>, p: T -> bool, key: T -> K, val: T -> V, i: nat)
    requires i < |rows|
    ensures Assigned(Filter(rows[..i + 1], p), key, val) ==
            if p(rows[i]) then AssignStep(Assigned(Filter(rows[..i], p), key, val), key, val, rows[i])
            else Assigned(Filter(rows[..i], p), key, val)
  {
    FilterPrefixStep(rows, p, i);
    var sel := Filter(rows[..i], p);
    if p(rows[i]) {
      assert (sel + [rows[i]])[..|sel|] == sel;
    } else {
      assert sel + [] == sel;
    }
  }

  /** With distinct keys, looking up an entry's key finds that entry's value. */
  lemma {:induction false} LookupDistinct<K, V>(e: seq<(K, V)>, i: nat)
    requires i < |e| && Distinct(Keys(e))
    ensures Lookup(e, e[i].0) == Some(e[i].1)
    decreases |e|
  {
    if i > 0 {
      assert Keys(e)[0] != Keys(e)[i];
      assert Distinct(Keys(e[1..])) by {
        forall a, b | 0 <= a < b < |e| - 1 ensures Keys(e[1..])[a] != Keys(e[1..])[b] {
          assert Keys(e)[a + 1] != Keys(e)[b + 1];
        }
      }
      LookupDistinct(e[1..], i - 1);
    }
  }

  /** Every value of the dictionary is the value of a row carrying its key. */
  lemma {:induction false} AssignedValue<T, K, V>(rows: seq<T>, key: T -> K, val: T -> V, k: K)
    requires Lookup(Assigned(rows, key, val), k).Some?
    ensures exists j :: 0 <= j < |rows| && key(rows[j]) == k && Lookup(Assigned(rows, key, val), k) == Some(val(rows[j]))
    decreases |rows|
  {
    var n := |rows| - 1;
    var last := rows[n];
    UpsertLookup(Assigned(rows[..n], key, val), key(last), val(last), (_: V) => val(last), k);
    if key(last) != k {
      AssignedValue(rows[..n], key, val, k);
      var j :| 0 <= j < n && key(rows[..n][j]) == k
               && Lookup(Assigned(rows[..n], key, val), k) == Some(val(rows[..n][j]));
      assert rows[..n][j] == rows[j];
    }
  }

  lemma {:induction false} UpsertKeys<K, V>(e: seq<(K, V)>, k: K, zero: V, f: V -> V)
    ensures Keys(Upsert(e, k, zero, f)) == if k in Keys(e) then Keys(e) else Keys(e) + [k]
    decreases |e|
  {
    if e == [] {
      assert Keys(Upsert(e, k, zero, f)) == [k];
    } else if e[0].0 != k {
      var tail := e[1..];
      var rest := Upsert(tail, k, zero, f);
      UpsertKeys(tail, k, zero, f);
      assert Upsert(e, k, zero, f) == [e[0]] + rest;
      assert Keys(e) == [e[0].0] + Keys(tail);
      assert Keys([e[0]] + rest) == [e[0].0] + Keys(rest);
      if k in Keys(tail) {
        assert k in Keys(e);
      } else {
        assert k !in Keys(e);
        assert [e[0].0] + (Keys(tail) + [k]) == Keys(e) + [k];
      }
    } else {
      assert Keys(Upsert(e, k, zero, f)) == Keys(e);
      assert Keys(e)[0] == k;
    }
  }

  lemma {:induction false} UpsertLookup<K, V>(e: seq<(K, V)>, k: K, zero: V, f: V -> V, k': K)
    ensures Lookup(Upsert(e, k, zero, f), k') ==
            if k' == k then Some(f(if Lookup(e, k).Some? then Lookup(e, k).value else zero))
            else Lookup(e, k')
    decreases |e|
  {
    if e != [] && e[0].0 != k {
      UpsertLookup(e[1..], k, zero, f, k');
      assert ([e[0]] + Upsert(e[1..], k, zero, f))[1..] == Upsert(e[1..], k, zero, f);
    } else if e != [] {
      assert ([(k, f(e[0].1))] + e[1..])[1..] == e[1..];
    }
  }

  /** An entry whose weight grows by d on every update makes the total weight grow by d. */
  lemma {:induction false} UpsertSum<K, V>(e: seq<(K, V)>, k: K, zero: V, f: V -> V, proj: V -> int, d: int)
    requires proj(zero) == 0
    requires forall v :: proj(f(v)) == proj(v) + d
    ensures SumBy(Upsert(e, k, zero, f), Weigh(proj)) == SumBy(e, Weigh(proj)) + d
    decreases |e|
  {
    var w := Weigh<K, V>(proj);
    if e == [] {
      assert [(k, f(zero))][..0] == [];
    } else {
      assert e == [e[0]] + e[1..];
      SumByConcat([e[0]], e[1..], w);
      assert [e[0]][..0] == [];
      if e[0].0 == k {
        SumByConcat([(k, f(e[0].1))], e[1..], w);
        assert [(k, f(e[0].1))][..0] == [];
      } else {
        UpsertSum(e[1..], k, zero, f, proj, d);
        SumByConcat([e[0]], Upsert(e[1..], k, zero, f), w);
      }
    }
  }

  /** Every key of the dictionary is distinct, every row's key is present, and
      every key present is the key of some row. */
  lemma {:induction false} GroupByKeys<T, K, V>(rows: seq<T>, key: T -> K, zero: V, add: (V, T) -> V)
    ensures Distinct(Keys(GroupBy(rows, key, zero, add)))
    ensures forall i :: 0 <= i < |rows| ==> key(rows[i]) in Keys(GroupBy(rows, key, zero, add))
    ensures forall k :: k in Keys(GroupBy(rows, key, zero, add)) ==>
              exists i :: 0 <= i < |rows| && key(rows[i]) == k
    decreases |rows|
  {
    if rows != [] {
      var n := |rows| - 1;
      var last := rows[n];
      var g := GroupBy(rows[..n], key, zero, add);
      GroupByKeys(rows[..n], key, zero, add);
      UpsertKeys(g, key(last), zero, v => add(v, last));
      forall k | k in Keys(GroupBy(rows, key, zero, add))
        ensures exists i :: 0 <= i < |rows| && key(rows[i]) == k
      {
        if k in Keys(g) {
          var i :| 0 <= i < n && key(rows[..n][i]) == k;
          assert key(rows[i]) == k;
        } else {
          assert key(rows[n]) == k;
        }
      }
      forall i | 0 <= i < |rows|
        ensures key(rows[i]) in Keys(GroupBy(rows, key, zero, add))
      {
        if i < n {
          assert rows[..n][i] == rows[i];
        }
      }
    }
  }

  /** The value under k is the fold of exactly the rows whose key is k, in order;
      a key no row carries has no entry. */
  lemma {:induction false} GroupByLookup<T, K, V>(rows: seq<T>, key: T -> K, zero: V, add: (V, T) -> V, k: K)
    ensures Lookup(GroupBy(rows, key, zero, add), k) ==
            if Filter(rows, KeyIs(key, k)) == [] then None
            else Some(Fold(Filter(rows, KeyIs(key, k)), zero, add))
    decreases |rows|
  {
    if rows != [] {
      var n := |rows| - 1;
      var last := rows[n];
      var g := GroupBy(rows[..n], key, zero, add);
      var sel := Filter(rows[..n], KeyIs(key, k));
      GroupByLookup(rows[..n], key, zero, add, k);
      UpsertLookup(g, key(last), zero, v => add(v, last), k);
      if key(last) == k {
        assert KeyIs(key, k)(last);
        assert Filter(rows, KeyIs(key, k)) == sel + [last];
        assert (sel + [last])[..|sel|] == sel;
      } else {
        assert !KeyIs(key, k)(last);
        assert Filter(rows, KeyIs(key, k)) == sel;
      }
    }
  }

  /** A projection that grows by w(t) whenever row t is folded in sums the weights. */
  lemma {:induction false} FoldProjection<T, V>(rows: seq<T>, zero: V, add: (V, T) -> V, proj: V -> int, w: T -> int)
    requires forall v, t :: proj(add(v, t)) == proj(v) + w(t)
    ensures proj(Fold(rows, zero, add)) == proj(zero) + SumBy(rows, w)
    decreases |rows|
  {
    if rows != [] {
      FoldProjection(rows[..|rows| - 1], zero, add, proj, w);
    }
  }

  /** Conservation: the entries' weights add up to the weights of all rows
      (group counts add up to the row count, group sums to the total). */
  lemma {:induction false} GroupBySum<T, K, V>(rows: seq<T>, key: T -> K, zero: V, add: (V, T) -> V, proj: V -> int, w: T -> int)
    requires proj(zero) == 0
    requires forall v, t :: proj(add(v, t)) == proj(v) + w(t)
    ensures SumBy(GroupBy(rows, key, zero, add), Weigh(proj)) == SumBy(rows, w)
    decreases |rows|
  {
    if rows != [] {
      var n := |rows| - 1;
      var last := rows[n];
      GroupBySum(rows[..n], key, zero, add, proj, w);
      UpsertSum(GroupBy(rows[..n], key, zero, add), key(last), zero, v => add(v, last), proj, w(last));
    }
  }

  /** Does a row's key belong to the list? */
  function KeyAmong<T, K(==)>(key: T -> K, ks: seq<K>): T -> bool
  {
    t => key(t) in ks
  }

  /** The sizes of the per-key selections, added up over a list of keys. */
  function CountEach<T, K(==)>(rows: seq<T>, key: T -> K, ks: seq<K>): nat
    decreases |ks|
  {
    if ks == [] then 0 else Count(rows, KeyIs(key, ks[0])) + CountEach(rows, key, ks[1..])
  }

  /** Two tests that never both hold count their union. */
  lemma {:induction false} CountDisjointUnion<T>(s: seq<T>, p: T -> bool, q: T -> bool, pq: T -> bool)
    requires forall x :: pq(x) == (p(x) || q(x))
    requires forall x :: !(p(x) && q(x))
    ensures Count(s, pq) == Count(s, p) + Count(s, q)
    decreases |s|
  {
    if s != [] {
      CountDisjointUnion(s[..|s| - 1], p, q, pq);
    }
  }

  /** Selecting by each of distinct keys in turn picks out, in total, exactly
      the rows whose key is one of them: every such row lands in one selection. */
  lemma {:induction false} CountEachPartition<T, K>(rows: seq<T>, key: T -> K, ks: seq<K>)
    requires Distinct(ks)
    ensures CountEach(rows, key, ks) == Count(rows, KeyAmong(key, ks))
    decreases |ks|
  {
    if ks == [] {
      FilterNone(rows, KeyAmong(key, ks));
    } else {
      var rest := ks[1..];
      assert Distinct(rest);
      CountEachPartition(rows, key, rest);
      forall x ensures KeyAmong(key, ks)(x) == (KeyIs(key, ks[0])(x) || KeyAmong(key, rest)(x)) {
        assert ks == [ks[0]] + rest;
      }
      assert forall x :: !(KeyIs(key, ks[0])(x) && KeyAmong(key, rest)(x));
      CountDisjointUnion(rows, KeyIs(key, ks[0]), KeyAmong(key, rest), KeyAmong(key, ks));
    }
  }
}
