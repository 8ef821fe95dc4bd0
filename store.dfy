/** The table operations every server action is built from, over a table held
    as the sequence of its rows in the order the query returns them:
    `.select().eq('id', id)`, `.update(..).eq('id', id)`, `.delete().eq('id', id)`,
    `.insert(..)` and the `limit`/`range` page of a listing. */
module Store {
  import opened Common
  import opened Seqs

  /** The message of the primary-key violation an insert with a taken id gets. */
  const DuplicateKey: string := "duplicate key value violates unique constraint"

  /** The message of the database refusing an empty text in a date column. */
  const InvalidDate: string := "invalid input syntax for type date"

  /** Does a row carry the id? */
  function IdIs<R>(idOf: R -> string, id: string): R -> bool
  {
    r => idOf(r) == id
  }

  predicate HasId<R>(rows: seq<R>, idOf: R -> string, id: string)
  {
    exists i :: 0 <= i < |rows| && idOf(rows[i]) == id
  }

  /** The primary key: no two rows share an id. */
  predicate UniqueIds<R>(rows: seq<R>, idOf: R -> string)
  {
    forall i, j :: 0 <= i < j < |rows| ==> idOf(rows[i]) != idOf(rows[j])
  }

  /** `select('*').eq('id', id)` followed by `data[0]`, or the not-found error
      when no row matches. */
  function SelectById<R>(rows: seq<R>, idOf: R -> string, id: string, notFound: string): (r: Result<R>)
    ensures r.Ok? <==> HasId(rows, idOf, id)
    ensures r.Ok? ==> r.value in rows && idOf(r.value) == id
    ensures r.Err? ==> r.error == NotFound(notFound)
    ensures r.Ok? && UniqueIds(rows, idOf) ==>
              forall i :: 0 <= i < |rows| && idOf(rows[i]) == id ==> rows[i] == r.value
  {
    var matching := Filter(rows, IdIs(idOf, id));
    if matching == [] then
      assert !HasId(rows, idOf, id) by {
        forall i | 0 <= i < |rows| ensures idOf(rows[i]) != id {
          FilterContains(rows, IdIs(idOf, id), rows[i]);
        }
      }
      Err(NotFound(notFound))
    else
      FilterContains(rows, IdIs(idOf, id), matching[0]);
      assert matching[0] in rows && IdIs(idOf, id)(matching[0]);
      Ok(matching[0])
  }

  /** `.update(..).eq('id', id)`: every row with the id rewritten by f, the others as they were. */
  function UpdateWhere<R>(rows: seq<R>, idOf: R -> string, id: string, f: R -> R): (r: seq<R>)
    ensures |r| == |rows|
    ensures forall i :: 0 <= i < |rows| ==> r[i] == if idOf(rows[i]) == id then f(rows[i]) else rows[i]
  {
    seq(|rows|, i requires 0 <= i < |rows| => if idOf(rows[i]) == id then f(rows[i]) else rows[i])
  }

  /** An update that keeps ids keeps the primary key. */
  lemma UpdateWhereKeepsIds<R>(rows: seq<R>, idOf: R -> string, id: string, f: R -> R)
    requires UniqueIds(rows, idOf)
    requires forall r :: idOf(f(r)) == idOf(r)
    ensures UniqueIds(UpdateWhere(rows, idOf, id, f), idOf)
    ensures forall i :: 0 <= i < |rows| ==> idOf(UpdateWhere(rows, idOf, id, f)[i]) == idOf(rows[i])
  {
  }

  /** Under the primary key the updated row is the rewrite of the selected one. */
  lemma UpdateWhereSelect<R>(rows: seq<R>, idOf: R -> string, id: string, f: R -> R, notFound: string)
    requires UniqueIds(rows, idOf)
    requires forall r :: idOf(f(r)) == idOf(r)
    requires HasId(rows, idOf, id)
    ensures SelectById(UpdateWhere(rows, idOf, id, f), idOf, id, notFound)
            == Ok(f(SelectById(rows, idOf, id, notFound).value))
  {
    var i :| 0 <= i < |rows| && idOf(rows[i]) == id;
    var after := UpdateWhere(rows, idOf, id, f);
    UpdateWhereKeepsIds(rows, idOf, id, f);
    assert idOf(after[i]) == id;
    assert after[i] == f(rows[i]);
  }

  /** `.delete().eq('id', id)`: the rows without the id, in order. */
  function DeleteWhere<R>(rows: seq<R>, idOf: R -> string, id: string): (r: seq<R>)
    ensures !HasId(r, idOf, id)
    ensures forall i :: 0 <= i < |r| ==> r[i] in rows
    ensures forall i :: 0 <= i < |rows| && idOf(rows[i]) != id ==> rows[i] in r
  {
    var r := Filter(rows, Not(IdIs(idOf, id)));
    assert !HasId(r, idOf, id) by {
      forall i | 0 <= i < |r| ensures idOf(r[i]) != id {
        assert Not(IdIs(idOf, id))(r[i]);
      }
    }
    assert forall i :: 0 <= i < |r| ==> r[i] in rows by {
      forall i | 0 <= i < |r| ensures r[i] in rows {
        FilterContains(rows, Not(IdIs(idOf, id)), r[i]);
      }
    }
    assert forall i :: 0 <= i < |rows| && idOf(rows[i]) != id ==> rows[i] in r by {
      forall i | 0 <= i < |rows| && idOf(rows[i]) != id ensures rows[i] in r {
        assert Not(IdIs(idOf, id))(rows[i]);
        FilterContains(rows, Not(IdIs(idOf, id)), rows[i]);
      }
    }
    r
  }

  /** Under the primary key a delete by id removes one row when the id is
      present and none otherwise; that number is the count the delete reports. */
  lemma DeleteCount<R>(rows: seq<R>, idOf: R -> string, id: string)
    requires UniqueIds(rows, idOf)
    ensures Count(rows, IdIs(idOf, id)) == (if HasId(rows, idOf, id) then 1 else 0)
    ensures |DeleteWhere(rows, idOf, id)| == |rows| - Count(rows, IdIs(idOf, id))
  {
    FilterSplitCount(rows, IdIs(idOf, id));
    AtMostOneId(rows, idOf, id);
    if HasId(rows, idOf, id) {
      var i :| 0 <= i < |rows| && idOf(rows[i]) == id;
      FilterContains(rows, IdIs(idOf, id), rows[i]);
    } else {
      FilterNone(rows, IdIs(idOf, id));
    }
  }

  /** Under the primary key at most one row carries an id. */
  lemma {:induction false} AtMostOneId<R>(rows: seq<R>, idOf: R -> string, id: string)
    requires UniqueIds(rows, idOf)
    ensures Count(rows, IdIs(idOf, id)) <= 1
    decreases |rows|
  {
    if rows != [] {
      var n := |rows| - 1;
      AtMostOneId(rows[..n], idOf, id);
      if idOf(rows[n]) == id {
        assert !HasId(rows[..n], idOf, id);
        FilterNone(rows[..n], IdIs(idOf, id));
      }
    }
  }

  /** Keeping some rows keeps the primary key. */
  lemma {:induction false} FilterKeepsIds<R>(rows: seq<R>, idOf: R -> string, p: R -> bool)
    requires UniqueIds(rows, idOf)
    ensures UniqueIds(Filter(rows, p), idOf)
    decreases |rows|
  {
    if rows != [] {
      var n := |rows| - 1;
      var front := Filter(rows[..n], p);
      FilterKeepsIds(rows[..n], idOf, p);
      if p(rows[n]) {
        forall k | 0 <= k < |front| ensures idOf(front[k]) != idOf(rows[n]) {
          FilterContains(rows[..n], p, front[k]);
          var j :| 0 <= j < n && rows[..n][j] == front[k];
          assert rows[j] == front[k];
        }
        AppendKeepsIds(front, idOf, rows[n]);
      }
    }
  }

  /** Appending a row with a fresh id keeps the primary key. */
  lemma AppendKeepsIds<R>(rows: seq<R>, idOf: R -> string, x: R)
    requires UniqueIds(rows, idOf)
    requires forall k :: 0 <= k < |rows| ==> idOf(rows[k]) != idOf(x)
    ensures UniqueIds(rows + [x], idOf)
  {
    var s := rows + [x];
    forall i, j | 0 <= i < j < |s| ensures idOf(s[i]) != idOf(s[j]) {
      if j < |rows| {
        assert s[i] == rows[i] && s[j] == rows[j];
      } else {
        assert s[i] == rows[i] && s[j] == x;
      }
    }
  }

  /** `.insert(row)` where the database assigns `row`'s id: the row is appended,
      or the insert fails on a taken id. */
  function Insert<R>(rows: seq<R>, idOf: R -> string, row: R): (r: Result<seq<R>>)
    ensures r.Ok? <==> !HasId(rows, idOf, idOf(row))
    ensures r.Ok? ==> r.value == rows + [row]
    ensures r.Err? ==> r.error == StoreError(DuplicateKey)
    ensures r.Ok? && UniqueIds(rows, idOf) ==> UniqueIds(r.value, idOf)
  {
    if HasId(rows, idOf, idOf(row)) then Err(StoreError(DuplicateKey))
    else
      assert UniqueIds(rows, idOf) ==> UniqueIds(rows + [row], idOf) by {
        if UniqueIds(rows, idOf) {
          AppendKeepsIds(rows, idOf, row);
        }
      }
      Ok(rows + [row])
  }

  /** The number of rows a page holds when the caller gives no limit. */
  const DefaultPageSize: nat := 25

  /** Is an optional count given and non-zero (JavaScript truthiness)? */
  predicate Given(x: Option<nat>)
  {
    x.Some? && x.value != 0
  }

  function Min(a: int, b: int): int
  {
    if a <= b then a else b
  }

  /** The rows of a listing query after `if (limit) query.limit(limit)` and
      `if (offset) query.range(offset, offset + (limit || 25) - 1)`: a zero or
      absent offset or limit is skipped, and `range` replaces the limit. */
  function Page<R>(rows: seq<R>, limit: Option<nat>, offset: Option<nat>): seq<R>
  {
    if Given(offset) then
      var size := if Given(limit) then limit.value else DefaultPageSize;
      rows[Min(offset.value, |rows|)..Min(offset.value + size, |rows|)]
    else if Given(limit) then rows[..Min(limit.value, |rows|)]
    else rows
  }

  /** With an offset the page is the inclusive range offset .. offset + size - 1
      (size the limit, or 25 without one), cut short at the end of the rows; with
      only a limit it is the first rows; with neither it is every row. */
  lemma PageRange<R>(rows: seq<R>, limit: Option<nat>, offset: Option<nat>)
    ensures var r := Page(rows, limit, offset);
            var size := if Given(limit) then limit.value else DefaultPageSize;
            && (Given(offset) ==>
                  |r| == Min(offset.value + size, |rows|) - Min(offset.value, |rows|)
                  && forall k :: 0 <= k < |r| ==> r[k] == rows[offset.value + k])
            && (!Given(offset) && Given(limit) ==>
                  |r| == Min(limit.value, |rows|) && forall k :: 0 <= k < |r| ==> r[k] == rows[k])
            && (!Given(offset) && !Given(limit) ==> |r| == |rows| && forall k :: 0 <= k < |r| ==> r[k] == rows[k])
            && |r| <= |rows| && (Given(offset) || Given(limit) ==> |r| <= size)
  {
  }

  /** Every row of a page of a filtered listing is a row of the table that passes the filter. */
  lemma PageOfFilter<R>(rows: seq<R>, p: R -> bool, limit: Option<nat>, offset: Option<nat>)
    ensures forall k :: 0 <= k < |Page(Filter(rows, p), limit, offset)| ==>
              var x := Page(Filter(rows, p), limit, offset)[k];
              x in rows && p(x)
  {
    var selected := Filter(rows, p);
    var page := Page(selected, limit, offset);
    PageRange(selected, limit, offset);
    forall k | 0 <= k < |page| ensures page[k] in rows && p(page[k]) {
      var j := if Given(offset) then offset.value + k else k;
      assert page[k] == selected[j];
      FilterContains(rows, p, page[k]);
    }
  }

  /** Requesting pages 0, 1, 2, .. of size n (page k at offset k * n) reads the
      listing front to back: the first k pages together are its first k * n rows. */
  lemma {:induction false} PagesTile<R>(rows: seq<R>, n: nat, k: nat)
    requires n > 0
    ensures Pages(rows, n, k) == rows[..Min(k * n, |rows|)]
    decreases k
  {
    if k > 0 {
      PagesTile(rows, n, k - 1);
      var m := (k - 1) * n;
      NextMultiple(k, n);
      var start := Min(m, |rows|);
      var stop := Min(m + n, |rows|);
      assert Page(rows, Some(n), Some(m)) == rows[start..stop];
      assert rows[..start] + rows[start..stop] == rows[..stop];
    }
  }

  lemma NextMultiple(k: nat, n: nat)
    requires k > 0
    ensures (k - 1) * n + n == k * n
  {
  }

  /** The concatenation of the first k pages of size n. */
  function Pages<R>(rows: seq<R>, n: nat, k: nat): seq<R>
    requires n > 0
  {
    if k == 0 then [] else Pages(rows, n, k - 1) + Page(rows, Some(n), Some((k - 1) * n))
  }

  /** A listing: one page of rows and `count`, the size of the whole filtered result. */
  datatype Listing<R> = Listing(data: seq<R>, count: nat)
}
