/**
 * A database table keyed by an integer primary key, and the
 * `INSERT ... ON CONFLICT (id) DO UPDATE` statement the synchronizer issues.
 * A table maps each id to its mutable columns `C`; a row is an id with its columns.
 */
module Table {
  import opened Wrappers
  import opened JsonValue

  datatype Row<C> = Row(id: int, cols: C)

  /** The ids a batch of rows mentions. */
  function Ids<C>(rows: seq<Row<C>>): (ks: set<int>)
    ensures forall i :: 0 <= i < |rows| ==> rows[i].id in ks
    ensures forall k :: k in ks ==> exists i :: 0 <= i < |rows| && rows[i].id == k
  {
    if rows == [] then {} else {rows[0].id} + Ids(rows[1..])
  }

  predicate DistinctIds<C>(rows: seq<Row<C>>) {
    forall i, j :: 0 <= i < j < |rows| ==> rows[i].id != rows[j].id
  }

  /**
   * The statement's effect: each row of the batch is inserted, or replaces the
   * stored columns of its id wholesale; a later row for the same id wins.
   */
  function Upsert<C>(table: map<int, C>, rows: seq<Row<C>>): (t: map<int, C>)
    ensures t.Keys == table.Keys + Ids(rows)
    ensures forall k :: k in table && k !in Ids(rows) ==> t[k] == table[k]
    decreases |rows|
  {
    if rows == [] then table else Upsert(table[rows[0].id := rows[0].cols], rows[1..])
  }

  /** Every row of a batch with distinct ids is stored exactly as given. */
  lemma {:induction false} UpsertStoresBatch<C>(table: map<int, C>, rows: seq<Row<C>>)
    requires DistinctIds(rows)
    ensures forall i :: 0 <= i < |rows| ==> Upsert(table, rows)[rows[i].id] == rows[i].cols
    decreases |rows|
  {
    if rows != [] {
      var t1 := table[rows[0].id := rows[0].cols];
      UpsertStoresBatch(t1, rows[1..]);
      assert rows[0].id !in Ids(rows[1..]);
    }
  }

  /** What the batch leaves at one of its ids does not depend on the table it is applied to. */
  lemma {:induction false} UpsertValueIndependent<C>(t1: map<int, C>, t2: map<int, C>, rows: seq<Row<C>>, k: int)
    requires k in Ids(rows)
    ensures Upsert(t1, rows)[k] == Upsert(t2, rows)[k]
    decreases |rows|
  {
    var r := rows[0];
    if k in Ids(rows[1..]) {
      UpsertValueIndependent(t1[r.id := r.cols], t2[r.id := r.cols], rows[1..], k);
    } else {
      assert k == r.id;
    }
  }

  /** Issuing the same statement twice leaves the table as issuing it once. */
  lemma UpsertIdempotent<C>(table: map<int, C>, rows: seq<Row<C>>)
    ensures Upsert(Upsert(table, rows), rows) == Upsert(table, rows)
  {
    var once := Upsert(table, rows);
    var twice := Upsert(once, rows);
    forall k | k in twice.Keys
      ensures twice[k] == once[k]
    {
      if k in Ids(rows) {
        UpsertValueIndependent(once, table, rows, k);
      }
    }
  }

  /**
   * The database's acceptance of a batch: every id must be a JSON integer
   * (a null primary key is refused) and no id may occur twice in one statement.
   * `None` when the statement is refused.
   */
  function Keyed<C>(batch: seq<(Json, C)>): (r: Option<seq<Row<C>>>)
    ensures r.Some? <==> (forall i :: 0 <= i < |batch| ==> batch[i].0.JInt?) && DistinctJsonIds(batch)
    ensures r.Some? ==> |r.value| == |batch| && DistinctIds(r.value)
    ensures r.Some? ==> forall i :: 0 <= i < |batch| ==> r.value[i] == Row(batch[i].0.n, batch[i].1)
  {
    if (forall i :: 0 <= i < |batch| ==> batch[i].0.JInt?) && DistinctJsonIds(batch) then
      Some(seq(|batch|, i requires 0 <= i < |batch| => Row(batch[i].0.n, batch[i].1)))
    else None
  }

  predicate DistinctJsonIds<C>(batch: seq<(Json, C)>) {
    forall i, j :: 0 <= i < j < |batch| ==> batch[i].0 != batch[j].0
  }

  /** The stored rows with the given ids, in the given order. */
  function RowsOf<C>(table: map<int, C>, ids: seq<int>): (rows: seq<Row<C>>)
    requires forall i :: 0 <= i < |ids| ==> ids[i] in table
    ensures |rows| == |ids|
    ensures forall i :: 0 <= i < |ids| ==> rows[i] == Row(ids[i], table[ids[i]])
  {
    seq(|ids|, i requires 0 <= i < |ids| => Row(ids[i], table[ids[i]]))
  }

  predicate StrictlyAscending(ids: seq<int>) {
    forall i, j :: 0 <= i < j < |ids| ==> ids[i] < ids[j]
  }

  lemma NonEmptyHasMember(s: set<int>)
    requires s != {}
    ensures exists x :: x in s
  {
    if forall x :: x !in s {
      assert false;
    }
  }

  lemma {:induction false} MinimumExists(keys: set<int>)
    requires keys != {}
    ensures exists k :: k in keys && forall j :: j in keys ==> k <= j
    decreases |keys|
  {
    NonEmptyHasMember(keys);
    var x :| x in keys;
    var rest := keys - {x};
    if rest == {} {
      forall j | j in keys ensures x <= j {
        assert j !in rest;
      }
      assert x in keys && forall j :: j in keys ==> x <= j;
    } else {
      assert |rest| == |keys| - 1;
      MinimumExists(rest);
      var m :| m in rest && forall j :: j in rest ==> m <= j;
      var k := if x < m then x else m;
      assert k in keys;
      forall j | j in keys ensures k <= j {
        if j != x { assert j in rest; }
      }
      assert k in keys && forall j :: j in keys ==> k <= j;
    }
  }

  /** The keys in ascending order. */
  function Ascending(keys: set<int>): (ids: seq<int>)
    ensures StrictlyAscending(ids)
    ensures forall i :: 0 <= i < |ids| ==> ids[i] in keys
    ensures forall k :: k in keys ==> k in ids
    decreases keys
  {
    if keys == {} then []
    else
      MinimumExists(keys);
      var k :| k in keys && forall j :: j in keys ==> k <= j;
      [k] + Ascending(keys - {k})
  }
}
