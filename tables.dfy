/**
 * Generic relational tables: rows in storage order, each with an integer
 * primary key, and the counter that hands out the next primary key.
 * Every table of the store is a `Table<C>` for its own column record `C`.
 */
module Tables {
  import opened Wrappers

  /** A stored row: its primary key and its other columns. */
  datatype Row<C> = Row(id: int, cols: C)

  /** The rows of one table in storage order and the id the next insert gets. */
  datatype Table<C> = Table(rows: seq<Row<C>>, nextId: int)

  /** Primary keys strictly increase in storage order (so no id occurs twice). */
  predicate Increasing<C>(rows: seq<Row<C>>)
  {
    forall j, k | 0 <= j < k < |rows| :: rows[j].id < rows[k].id
  }

  /** Ids are positive, distinct, in storage order and all below `nextId`. */
  predicate WellFormed<C>(t: Table<C>)
  {
    && 1 <= t.nextId
    && (forall k | 0 <= k < |t.rows| :: 1 <= t.rows[k].id < t.nextId)
    && Increasing(t.rows)
  }

  /** Some row of `rows` has primary key `id`. */
  predicate HasId<C>(rows: seq<Row<C>>, id: int)
  {
    exists k | 0 <= k < |rows| :: rows[k].id == id
  }

  /** A table with no rows whose first id will be 1. */
  function EmptyTable<C>(): (t: Table<C>)
    ensures WellFormed(t) && t.rows == [] && t.nextId == 1
  {
    Table([], 1)
  }

  /** The position of the first row whose primary key is `id`. */
  function IndexOf<C>(rows: seq<Row<C>>, id: int): (r: Option<nat>)
    ensures r.Some? ==> r.value < |rows| && rows[r.value].id == id
    ensures r.Some? ==> forall j | 0 <= j < r.value :: rows[j].id != id
    ensures r.None? <==> !HasId(rows, id)
    decreases |rows|
  {
    if |rows| == 0 then None
    else if rows[0].id == id then Some(0)
    else match IndexOf(rows[1..], id)
      case None => None
      case Some(i) => Some(i + 1)
  }

  /** `query.filter(id == id).first()`: the row with primary key `id`, if stored. */
  function Find<C>(rows: seq<Row<C>>, id: int): (r: Option<Row<C>>)
    ensures r.None? <==> !HasId(rows, id)
    ensures r.Some? ==> r.value in rows && r.value.id == id
    ensures Increasing(rows) ==> forall k | 0 <= k < |rows| && rows[k].id == id :: r == Some(rows[k])
  {
    match IndexOf(rows, id)
    case None => None
    case Some(i) => Some(rows[i])
  }

  /** `query.offset(skip).limit(limit).all()`: at most `limit` rows starting at `skip`. */
  function Page<R>(rows: seq<R>, skip: nat, limit: nat): (page: seq<R>)
    ensures |page| <= limit
    ensures |page| == if skip >= |rows| then 0 else Min(limit, |rows| - skip)
    ensures forall k | 0 <= k < |page| :: page[k] == rows[skip + k]
  {
    if skip >= |rows| then []
    else if limit >= |rows| - skip then rows[skip..]
    else rows[skip..skip + limit]
  }

  function Min(a: int, b: int): int
  {
    if a <= b then a else b
  }

  /** Two consecutive pages together are the page that spans both. */
  lemma PagesAdjoin<R>(rows: seq<R>, skip: nat, a: nat, b: nat)
    ensures Page(rows, skip, a) + Page(rows, skip + a, b) == Page(rows, skip, a + b)
  {
    var p, q, pq := Page(rows, skip, a), Page(rows, skip + a, b), Page(rows, skip, a + b);
    assert |p + q| == |pq|;
    forall k | 0 <= k < |pq| ensures (p + q)[k] == pq[k] {
      if k >= |p| {
        assert q[k - |p|] == rows[skip + a + (k - |p|)];
      }
    }
  }

  /** `db.add(row); db.commit()`: appends a row carrying the next fresh id. */
  function Insert<C>(t: Table<C>, cols: C): (r: Table<C>)
    ensures |r.rows| == |t.rows| + 1 && r.rows[..|t.rows|] == t.rows
    ensures r.rows[|t.rows|] == Row(t.nextId, cols)
    ensures r.nextId == t.nextId + 1
    ensures WellFormed(t) ==> WellFormed(r) && !HasId(t.rows, t.nextId)
  {
    Table(t.rows + [Row(t.nextId, cols)], t.nextId + 1)
  }

  /** `setattr` on the stored row at position `i`: its columns are replaced, its id kept. */
  function SetCols<C>(t: Table<C>, i: nat, cols: C): (r: Table<C>)
    requires i < |t.rows|
    ensures |r.rows| == |t.rows| && r.nextId == t.nextId
    ensures r.rows[i] == Row(t.rows[i].id, cols)
    ensures forall k | 0 <= k < |t.rows| && k != i :: r.rows[k] == t.rows[k]
    ensures WellFormed(t) ==> WellFormed(r)
  {
    Table(t.rows[i := Row(t.rows[i].id, cols)], t.nextId)
  }

  /** `db.delete(row); db.commit()` for the row at position `i`. */
  function RemoveAt<C>(t: Table<C>, i: nat): (r: Table<C>)
    requires i < |t.rows|
    ensures |r.rows| == |t.rows| - 1 && r.nextId == t.nextId
    ensures forall k | 0 <= k < i :: r.rows[k] == t.rows[k]
    ensures forall k | i <= k < |r.rows| :: r.rows[k] == t.rows[k + 1]
    ensures WellFormed(t) ==> WellFormed(r) && !HasId(r.rows, t.rows[i].id)
  {
    Table(t.rows[..i] + t.rows[i + 1..], t.nextId)
  }

  /** `query.filter(...).all()`: the rows whose columns satisfy `keep`, in storage order. */
  function Filter<C>(rows: seq<Row<C>>, keep: C -> bool): (r: seq<Row<C>>)
    ensures |r| <= |rows|
    ensures forall x | x in r :: x in rows && keep(x.cols)
    ensures forall x | x in rows && keep(x.cols) :: x in r
    ensures Increasing(rows) ==> Increasing(r)
    decreases |rows|
  {
    if |rows| == 0 then []
    else
      var rest := Filter(rows[1..], keep);
      assert forall x | x in rest :: x in rows[1..];
      if keep(rows[0].cols) then [rows[0]] + rest else rest
  }

  /** A `unique=True` column: no two rows share a value of `key`. */
  predicate Unique<C>(rows: seq<Row<C>>, key: C -> string)
  {
    forall j, k | 0 <= j < k < |rows| :: key(rows[j].cols) != key(rows[k].cols)
  }

  /** Some row other than the one with primary key `except` holds `value` in column `key`. */
  predicate KeyUsed<C>(rows: seq<Row<C>>, key: C -> string, value: string, except: int)
  {
    exists k | 0 <= k < |rows| :: rows[k].id != except && key(rows[k].cols) == value
  }

  /** An insert whose key value is not yet used keeps the column unique. */
  lemma InsertKeepsUnique<C>(t: Table<C>, key: C -> string, cols: C)
    requires WellFormed(t) && Unique(t.rows, key)
    requires !KeyUsed(t.rows, key, key(cols), t.nextId)
    ensures Unique(Insert(t, cols).rows, key)
  {
    var r := Insert(t, cols).rows;
    forall j, k | 0 <= j < k < |r| ensures key(r[j].cols) != key(r[k].cols) {
      if k == |t.rows| {
        assert r[j] == t.rows[j] && t.rows[j].id != t.nextId;
        assert !(t.rows[j].id != t.nextId && key(t.rows[j].cols) == key(cols));
      } else {
        assert r[j] == t.rows[j] && r[k] == t.rows[k];
      }
    }
  }

  /** Replacing a row's columns keeps the column unique when no other row holds the new value. */
  lemma SetColsKeepsUnique<C>(t: Table<C>, i: nat, key: C -> string, cols: C)
    requires i < |t.rows| && Increasing(t.rows)
    requires Unique(t.rows, key)
    requires !KeyUsed(t.rows, key, key(cols), t.rows[i].id)
    ensures Unique(SetCols(t, i, cols).rows, key)
  {
    var r := SetCols(t, i, cols).rows;
    forall j, k | 0 <= j < k < |r| ensures key(r[j].cols) != key(r[k].cols) {
      if j == i {
        assert r[j].cols == cols && r[k] == t.rows[k] && t.rows[k].id != t.rows[i].id;
        assert !(t.rows[k].id != t.rows[i].id && key(t.rows[k].cols) == key(cols));
      } else if k == i {
        assert r[k].cols == cols && r[j] == t.rows[j] && t.rows[j].id != t.rows[i].id;
        assert !(t.rows[j].id != t.rows[i].id && key(t.rows[j].cols) == key(cols));
      } else {
        assert r[j] == t.rows[j] && r[k] == t.rows[k];
      }
    }
  }

  /** Removing a row keeps every column unique. */
  lemma RemoveKeepsUnique<C>(t: Table<C>, i: nat, key: C -> string)
    requires i < |t.rows|
    requires Unique(t.rows, key)
    ensures Unique(RemoveAt(t, i).rows, key)
  {
    var r := RemoveAt(t, i).rows;
    forall j, k | 0 <= j < k < |r| ensures key(r[j].cols) != key(r[k].cols) {
      var j', k' := if j < i then j else j + 1, if k < i then k else k + 1;
      assert r[j] == t.rows[j'] && r[k] == t.rows[k'];
    }
  }
}
