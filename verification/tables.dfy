/** The local IndexedDB store (Dexie) as in-memory tables: each table keeps its
    records in primary-key order, keys are assigned by auto-increment from 1 and
    never reused. Queries on a secondary index of equal values return records in
    primary-key order, which is the order of `rows`. */
module Tables {
  import opened Base

  datatype Row<T> = Row(id: nat, value: T)

  /** Primary keys are strictly ascending and lie in `[1, next)`. */
  ghost predicate Keyed<T>(rows: seq<Row<T>>, next: nat) {
    && (forall i, j :: 0 <= i < j < |rows| ==> rows[i].id < rows[j].id)
    && (forall i :: 0 <= i < |rows| ==> 1 <= rows[i].id < next)
  }

  function Values<T>(rows: seq<Row<T>>): (vs: seq<T>)
    ensures |vs| == |rows|
    ensures forall i :: 0 <= i < |rows| ==> vs[i] == rows[i].value
  {
    seq(|rows|, i requires 0 <= i < |rows| => rows[i].value)
  }

  /** The rows `bulkAdd(vs)` creates when the counter stands at `next`. */
  function Numbered<T>(next: nat, vs: seq<T>): (rows: seq<Row<T>>)
    ensures |rows| == |vs|
    ensures forall i :: 0 <= i < |vs| ==> rows[i] == Row(next + i, vs[i])
  {
    seq(|vs|, i requires 0 <= i < |vs| => Row(next + i, vs[i]))
  }

  /** The rows left by `where(...).delete()`: those whose value `drop` rejects, in order. */
  function Without<T>(rows: seq<Row<T>>, drop: T -> bool): (r: seq<Row<T>>)
    ensures |r| <= |rows|
  {
    if rows == [] then []
    else if drop(rows[0].value) then Without(rows[1..], drop)
    else [rows[0]] + Without(rows[1..], drop)
  }

  /** The rows left are exactly the old rows `drop` rejects. */
  lemma {:induction false} WithoutMembers<T>(rows: seq<Row<T>>, drop: T -> bool, x: Row<T>)
    ensures x in Without(rows, drop) <==> x in rows && !drop(x.value)
  {
    if rows != [] {
      WithoutMembers(rows[1..], drop, x);
      assert rows == [rows[0]] + rows[1..];
    }
  }

  /** The values selected by `where(...).equals(...).toArray()`, in key order. */
  function Select<T>(rows: seq<Row<T>>, pick: T -> bool): (r: seq<T>)
    ensures |r| <= |rows|
  {
    if rows == [] then []
    else if pick(rows[0].value) then [rows[0].value] + Select(rows[1..], pick)
    else Select(rows[1..], pick)
  }

  /** The values selected are exactly the values of the rows `pick` accepts. */
  lemma {:induction false} SelectMembers<T>(rows: seq<Row<T>>, pick: T -> bool, v: T)
    ensures v in Select(rows, pick) <==> v in Values(rows) && pick(v)
  {
    if rows != [] {
      SelectMembers(rows[1..], pick, v);
      assert Values(rows) == [rows[0].value] + Values(rows[1..]);
    }
  }

  /** The rows after `update(id, changes)`: the record keyed `id`, if any, becomes `f` of itself. */
  function Patched<T>(rows: seq<Row<T>>, id: nat, f: T -> T): (r: seq<Row<T>>)
    ensures |r| == |rows|
    ensures forall i :: 0 <= i < |rows| ==> r[i].id == rows[i].id
    ensures forall i :: 0 <= i < |rows| ==>
      r[i].value == if rows[i].id == id then f(rows[i].value) else rows[i].value
  {
    seq(|rows|, i requires 0 <= i < |rows| =>
      if rows[i].id == id then Row(id, f(rows[i].value)) else rows[i])
  }

  predicate HasKey<T>(rows: seq<Row<T>>, id: nat) {
    exists i :: 0 <= i < |rows| && rows[i].id == id
  }

  /** Deleting keeps the keys ordered and in range. */
  lemma WithoutKeyed<T>(rows: seq<Row<T>>, next: nat, drop: T -> bool)
    requires Keyed(rows, next)
    ensures Keyed(Without(rows, drop), next)
  {
    WithoutAscending(rows, drop);
    var r := Without(rows, drop);
    forall i | 0 <= i < |r| ensures 1 <= r[i].id < next {
      WithoutMembers(rows, drop, r[i]);
      var j :| 0 <= j < |rows| && rows[j] == r[i];
    }
  }

  /** Every key after the first is above it. */
  ghost predicate Ascending<T>(rows: seq<Row<T>>) {
    forall i, j :: 0 <= i < j < |rows| ==> rows[i].id < rows[j].id
  }

  lemma {:induction false} WithoutAscending<T>(rows: seq<Row<T>>, drop: T -> bool)
    requires Ascending(rows)
    ensures Ascending(Without(rows, drop))
  {
    if rows != [] {
      var rest := rows[1..];
      assert Ascending(rest) by {
        forall i, j | 0 <= i < j < |rest| ensures rest[i].id < rest[j].id {
          assert rest[i] == rows[i + 1] && rest[j] == rows[j + 1];
        }
      }
      WithoutAscending(rest, drop);
      if !drop(rows[0].value) {
        assert forall j :: 0 <= j < |rest| ==> rest[j].id > rows[0].id by {
          forall j | 0 <= j < |rest| ensures rest[j].id > rows[0].id {
            assert rest[j] == rows[j + 1];
          }
        }
        WithoutAbove(rest, drop, rows[0].id);
        ConsAscending(rows[0], Without(rest, drop));
      }
    }
  }

  /** Deleting keeps every remaining key above a bound all keys were above. */
  lemma {:induction false} WithoutAbove<T>(rows: seq<Row<T>>, drop: T -> bool, lo: nat)
    requires forall j :: 0 <= j < |rows| ==> rows[j].id > lo
    ensures forall k :: 0 <= k < |Without(rows, drop)| ==> Without(rows, drop)[k].id > lo
  {
    if rows != [] {
      var rest := rows[1..];
      assert forall j :: 0 <= j < |rest| ==> rest[j] == rows[j + 1];
      WithoutAbove(rest, drop, lo);
    }
  }

  lemma ConsAscending<T>(x: Row<T>, tail: seq<Row<T>>)
    requires Ascending(tail) && forall k :: 0 <= k < |tail| ==> tail[k].id > x.id
    ensures Ascending([x] + tail)
  {
    var r := [x] + tail;
    forall i, j | 0 <= i < j < |r| ensures r[i].id < r[j].id {
      assert r[j] == tail[j - 1];
      if i > 0 { assert r[i] == tail[i - 1]; }
    }
  }

  class Table<T> {
    var rows: seq<Row<T>>
    var nextId: nat

    ghost predicate Valid()
      reads this
    {
      nextId >= 1 && Keyed(rows, nextId)
    }

    /** An empty table whose first key will be 1. */
    constructor ()
      ensures Valid() && rows == [] && nextId == 1
    {
      rows := [];
      nextId := 1;
    }

    /** `toArray()`: every record, in key order. */
    function ToArray(): seq<T>
      reads this
    {
      Values(rows)
    }

    /** `add(v)`: one new record under a fresh key, which is returned. */
    method Add(v: T) returns (id: nat)
      requires Valid()
      modifies this
      ensures Valid()
      ensures id == old(nextId) && nextId == id + 1
      ensures rows == old(rows) + [Row(id, v)]
      ensures !HasKey(old(rows), id)
    {
      id := nextId;
      rows := rows + [Row(id, v)];
      nextId := nextId + 1;
    }

    /** `bulkAdd(vs)` (and `bulkPut` of records without a key): one new record per value, in order. */
    method BulkAdd(vs: seq<T>)
      requires Valid()
      modifies this
      ensures Valid()
      ensures rows == old(rows) + Numbered(old(nextId), vs)
      ensures nextId == old(nextId) + |vs|
    {
      var i := 0;
      while i < |vs|
        invariant 0 <= i <= |vs|
        invariant nextId == old(nextId) + i
        invariant rows == old(rows) + Numbered(old(nextId), vs[..i])
        invariant Valid()
      {
        assert Numbered(old(nextId), vs[..i + 1]) == Numbered(old(nextId), vs[..i]) + [Row(nextId, vs[i])];
        rows := rows + [Row(nextId, vs[i])];
        nextId := nextId + 1;
        i := i + 1;
      }
      assert vs[..i] == vs;
    }

    /** `where(...).delete()`: removes exactly the records `drop` accepts. */
    method DeleteWhere(drop: T -> bool)
      requires Valid()
      modifies this
      ensures Valid()
      ensures rows == Without(old(rows), drop) && nextId == old(nextId)
    {
      WithoutKeyed(rows, nextId, drop);
      rows := Without(rows, drop);
    }

    /** `delete(id)`: removes the record keyed `id`, if there is one. */
    method Delete(id: nat)
      requires Valid()
      modifies this
      ensures Valid() && nextId == old(nextId)
      ensures forall x :: x in rows <==> x in old(rows) && x.id != id
    {
      var i := 0;
      var kept: seq<Row<T>> := [];
      while i < |rows|
        invariant 0 <= i <= |rows|
        invariant forall x :: x in kept <==> x in rows[..i] && x.id != id
        invariant Keyed(kept, nextId)
        invariant forall k :: 0 <= k < |kept| ==> forall j :: i <= j < |rows| ==> kept[k].id < rows[j].id
      {
        if rows[i].id != id {
          kept := kept + [rows[i]];
        }
        assert rows[..i + 1] == rows[..i] + [rows[i]];
        i := i + 1;
      }
      assert rows[..i] == rows;
      rows := kept;
    }

    /** `update(id, changes)`: applies `f` to the record keyed `id`; reports whether it existed. */
    method Update(id: nat, f: T -> T) returns (found: bool)
      requires Valid()
      modifies this
      ensures Valid() && nextId == old(nextId)
      ensures rows == Patched(old(rows), id, f)
      ensures found <==> HasKey(old(rows), id)
    {
      found := HasKey(rows, id);
      rows := Patched(rows, id, f);
    }

    /** `toCollection().modify(f)`: every record, one after another, becomes `f` of itself. */
    method ModifyAll(f: T -> T)
      requires Valid()
      modifies this
      ensures Valid() && nextId == old(nextId)
      ensures |rows| == |old(rows)|
      ensures forall i :: 0 <= i < |rows| ==> rows[i] == Row(old(rows)[i].id, f(old(rows)[i].value))
    {
      var i := 0;
      while i < |rows|
        invariant 0 <= i <= |rows| == |old(rows)|
        invariant Valid() && nextId == old(nextId)
        invariant forall k :: 0 <= k < i ==> rows[k] == Row(old(rows)[k].id, f(old(rows)[k].value))
        invariant forall k :: i <= k < |rows| ==> rows[k] == old(rows)[k]
      {
        rows := rows[i := Row(rows[i].id, f(rows[i].value))];
        i := i + 1;
      }
    }

    /** `clear()`: no records remain; the key counter is not reset. */
    method Clear()
      requires Valid()
      modifies this
      ensures Valid() && rows == [] && nextId == old(nextId)
    {
      rows := [];
    }
  }
}
