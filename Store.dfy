/** The hosted tables the services talk to, as in-memory maps from row id to
    row, and the query shapes the services build on them: a filtered
    listing ordered by `created_at` descending, a lookup of one row by id,
    an insert, a replacement of one row and a hard delete. Timestamps are
    clock ticks; a larger tick is a later time, as the ISO-8601 strings the
    services write compare. */
module Store {
  import opened Wrappers

  /** The message PostgREST's PGRST116 error carries: a `.single()` call
      whose query matched no row, or more than one. */
  const NoRowsMessage := "JSON object requested, multiple (or no) rows returned"

  /** A row as a query returns it. */
  datatype Row<D> = Row(id: string, data: D, created_at: nat, updated_at: nat)

  /** What the table keeps under a row's id, its primary key. */
  datatype Stored<D> = Stored(data: D, created_at: nat, updated_at: nat)

  type Table<D> = map<string, Stored<D>>

  /** The row stored under `id`, with its id. */
  function RowAt<D>(t: Table<D>, id: string): (r: Row<D>)
    requires id in t
    ensures r.id == id && r.data == t[id].data
  {
    Row(id, t[id].data, t[id].created_at, t[id].updated_at)
  }

  /** `.order('created_at', { ascending: false })`. */
  predicate NewestFirst<D>(rows: seq<Row<D>>) {
    forall i, j :: 0 <= i < j < |rows| ==> rows[i].created_at >= rows[j].created_at
  }

  predicate DistinctIds<D>(rows: seq<Row<D>>) {
    forall i, j :: 0 <= i < j < |rows| ==> rows[i].id != rows[j].id
  }

  /** `rows` is the answer to `select('*')` with the filter `keep`, ordered
      newest first: each matching row of `t` exactly once, and nothing else. */
  predicate Listing<D(==,!new)>(rows: seq<Row<D>>, t: Table<D>, keep: D -> bool) {
    NewestFirst(rows) && DistinctIds(rows) &&
    (forall r :: r in rows ==> r.id in t && RowAt(t, r.id) == r && keep(r.data)) &&
    (forall k :: k in t && keep(t[k].data) ==> RowAt(t, k) in rows)
  }

  /** Places `r` in a newest-first list before the first row that is not
      newer than it. */
  function InsertNewestFirst<D(==,!new)>(r: Row<D>, rows: seq<Row<D>>): (out: seq<Row<D>>)
    requires NewestFirst(rows)
    ensures NewestFirst(out)
    ensures |out| == |rows| + 1
    ensures forall x :: x in out <==> x == r || x in rows
  {
    if rows == [] || rows[0].created_at <= r.created_at then
      [r] + rows
    else
      var rest := InsertNewestFirst(r, rows[1..]);
      assert rows == [rows[0]] + rows[1..];
      var out := [rows[0]] + rest;
      assert out[1..] == rest;
      assert forall x :: x in rows[1..] ==> x.created_at <= rows[0].created_at;
      assert forall x :: x in rest ==> x.created_at <= rows[0].created_at;
      assert forall j :: 0 < j < |out| ==> out[j] in rest;
      out
  }

  /** Inserting a row whose id is new keeps the ids distinct. */
  lemma {:induction false} InsertKeepsDistinct<D(!new)>(r: Row<D>, rows: seq<Row<D>>)
    requires NewestFirst(rows) && DistinctIds(rows)
    requires forall x :: x in rows ==> x.id != r.id
    ensures DistinctIds(InsertNewestFirst(r, rows))
  {
    if !(rows == [] || rows[0].created_at <= r.created_at) {
      var rest := InsertNewestFirst(r, rows[1..]);
      InsertKeepsDistinct(r, rows[1..]);
      var out := InsertNewestFirst(r, rows);
      assert out == [rows[0]] + rest;
      forall x | x in rest ensures x.id != rows[0].id {
        if x != r {
          var j :| 0 <= j < |rows[1..]| && rows[1..][j] == x;
          assert rows[j + 1] == x;
        }
      }
      forall i, j | 0 <= i < j < |out| ensures out[i].id != out[j].id {
        if i == 0 {
          assert out[j] == rest[j - 1];
        } else {
          assert out[i] == rest[i - 1] && out[j] == rest[j - 1];
        }
      }
    }
  }

  /** Runs a filtered, newest-first `select` by visiting the keys of the
      table one at a time. */
  method Select<D(==,!new)>(t: Table<D>, keep: D -> bool) returns (rows: seq<Row<D>>)
    ensures Listing(rows, t, keep)
  {
    rows := [];
    var todo := t.Keys;
    while todo != {}
      invariant todo <= t.Keys
      invariant NewestFirst(rows) && DistinctIds(rows)
      invariant forall r :: r in rows ==> r.id in t && r.id !in todo && RowAt(t, r.id) == r && keep(r.data)
      invariant forall k :: k in t && k !in todo && keep(t[k].data) ==> RowAt(t, k) in rows
      decreases |todo|
    {
      var k :| k in todo;
      if keep(t[k].data) {
        InsertKeepsDistinct(RowAt(t, k), rows);
        rows := InsertNewestFirst(RowAt(t, k), rows);
      }
      todo := todo - {k};
    }
  }

  /** `.eq('id', id)` plus the filter `keep`, then `.single()`: the row with
      that id when it passes the filter, and otherwise no row (the
      PGRST116 condition, which the services turn into `null`). The primary
      key makes more than one match impossible. */
  function FindRow<D>(t: Table<D>, id: string, keep: D -> bool): (r: Option<Row<D>>)
    ensures r.Some? <==> id in t && keep(t[id].data)
    ensures r.Some? ==> r.value == RowAt(t, id)
  {
    if id in t && keep(t[id].data) then Some(RowAt(t, id)) else None
  }

  /** `.insert({ id, ...data, created_at: now, updated_at: now })` with a
      fresh id: one row is added, stamped twice with the same time, and every
      other row stays as it was. */
  function Insert<D>(t: Table<D>, id: string, data: D, now: nat): (t': Table<D>)
    requires id !in t
    ensures t'.Keys == t.Keys + {id}
    ensures RowAt(t', id) == Row(id, data, now, now)
    ensures forall k :: k in t ==> t'[k] == t[k]
  {
    t[id := Stored(data, now, now)]
  }

  /** `.update({ ...data, updated_at: now }).eq('id', id)` on a row that
      exists: its data becomes `data`, it is re-stamped, it keeps its id and
      creation time, and every other row stays as it was. */
  function Replace<D>(t: Table<D>, id: string, data: D, now: nat): (t': Table<D>)
    requires id in t
    ensures t'.Keys == t.Keys
    ensures t'[id] == Stored(data, t[id].created_at, now)
    ensures forall k :: k in t && k != id ==> t'[k] == t[k]
  {
    t[id := t[id].(data := data, updated_at := now)]
  }

  /** `.delete().eq('id', id)`: the row with that id is gone, if there was
      one, and no other row is touched. */
  function Remove<D>(t: Table<D>, id: string): (t': Table<D>)
    ensures t'.Keys == t.Keys - {id}
    ensures forall k :: k in t' ==> t'[k] == t[k]
  {
    t - {id}
  }

  /** After a delete, the lookup of that id finds nothing, whatever the
      filter. */
  lemma RemoveThenFind<D>(t: Table<D>, id: string, keep: D -> bool)
    ensures FindRow(Remove(t, id), id, keep) == None
  {
  }

  /** A table with one row has exactly one key. */
  lemma OneKey<D>(t: Table<D>, a: string, b: string)
    requires |t| == 1 && a in t && b in t
    ensures a == b
  {
    assert |t.Keys - {a}| == 0;
    assert t.Keys - {a} == {};
  }

  /** The id of the only row of a one-row table: the row that an unfiltered
      `.single()` returns. */
  function TheKey<D>(t: Table<D>): (k: string)
    requires |t| == 1
    ensures k in t
    ensures forall j :: j in t ==> j == k
  {
    assert forall a, b :: a in t && b in t ==> a == b by {
      forall a, b | a in t && b in t ensures a == b {
        OneKey(t, a, b);
      }
    }
    var k :| k in t;
    k
  }
}
