/** The daily history of portfolio totals: one record per day, updated in place
    when the day already has one; notes on records; reading the history in date
    order; clearing it. */
module History {
  import opened Base
  import opened Tables
  import opened Database

  /** The history table's contents and its key counter. */
  datatype Store = Store(rows: seq<Row<HistoryRecord>>, next: nat)

  /** The position of the record `where('date').equals(day).first()` returns: the
      earliest-keyed record of that day. */
  function FirstOnDay(rows: seq<Row<HistoryRecord>>, day: string): (k: Option<nat>)
    ensures k.Some? ==>
      && k.value < |rows| && rows[k.value].value.date == day
      && forall j :: 0 <= j < k.value ==> rows[j].value.date != day
    ensures k.None? ==> forall j :: 0 <= j < |rows| ==> rows[j].value.date != day
  {
    if rows == [] then None
    else
      var k := FirstOnDay(rows[..|rows| - 1], day);
      if k.Some? then k
      else if rows[|rows| - 1].value.date == day then Some(|rows| - 1)
      else None
  }

  /** The index lookup, scanning records in key order. */
  method FindDay(rows: seq<Row<HistoryRecord>>, day: string) returns (k: Option<nat>)
    ensures k == FirstOnDay(rows, day)
  {
    var i := 0;
    while i < |rows|
      invariant 0 <= i <= |rows|
      invariant forall j :: 0 <= j < i ==> rows[j].value.date != day
    {
      if rows[i].value.date == day {
        return Some(i);
      }
      i := i + 1;
    }
    return None;
  }

  /** The update an existing day's record gets: new total and currency, same date and note. */
  function Restated(total: Number, currency: string): HistoryRecord -> HistoryRecord {
    (r: HistoryRecord) => r.(totalValue := total, currency := currency)
  }

  /** The table after `saveDailySnapshot(total, currency)` on `day`. */
  function Saved(s: Store, day: string, total: Number, currency: string): Store {
    var k := FirstOnDay(s.rows, day);
    if k.Some? then Store(Patched(s.rows, s.rows[k.value].id, Restated(total, currency)), s.next)
    else Store(s.rows + [Row(s.next, HistoryRecord(day, total, currency, None))], s.next + 1)
  }

  /** Saving when the day has a record changes only that record's total and
      currency (its key, date and note stay) and adds nothing; otherwise it adds
      exactly one record for the day, with no note, under a fresh key. */
  lemma SavedCases(s: Store, day: string, total: Number, currency: string)
    requires Keyed(s.rows, s.next)
    ensures var k := FirstOnDay(s.rows, day);
      var after := Saved(s, day, total, currency).rows;
      var next := Saved(s, day, total, currency).next;
      && (k.Some? ==>
            && |after| == |s.rows| && next == s.next
            && (forall i :: 0 <= i < |s.rows| && i != k.value ==> after[i] == s.rows[i])
            && after[k.value] == Row(s.rows[k.value].id,
                 s.rows[k.value].value.(totalValue := total, currency := currency)))
      && (k.None? ==>
            && after == s.rows + [Row(s.next, HistoryRecord(day, total, currency, None))]
            && !HasKey(s.rows, s.next) && next == s.next + 1)
  {
  }

  /** No two records share a date. */
  ghost predicate OnePerDay(rows: seq<Row<HistoryRecord>>) {
    forall i, j :: 0 <= i < j < |rows| ==> rows[i].value.date != rows[j].value.date
  }

  /** A table with at most one record per day keeps that property through a save. */
  lemma SaveKeepsOnePerDay(s: Store, day: string, total: Number, currency: string)
    requires OnePerDay(s.rows)
    ensures OnePerDay(Saved(s, day, total, currency).rows)
  {
    var after := Saved(s, day, total, currency).rows;
    if FirstOnDay(s.rows, day).None? {
      forall i, j | 0 <= i < j < |after| ensures after[i].value.date != after[j].value.date {
        if j == |s.rows| {
          assert after[i] == s.rows[i];
        } else {
          assert after[i] == s.rows[i] && after[j] == s.rows[j];
        }
      }
    }
  }

  /** Two saves on the same day leave what the second save alone would: the
      second total and currency win, and the day keeps a single record. */
  lemma LastSaveWins(s: Store, day: string, total: Number, currency: string, total': Number, currency': string)
    requires Keyed(s.rows, s.next)
    ensures Saved(Saved(s, day, total, currency), day, total', currency') == Saved(s, day, total', currency')
  {
    if FirstOnDay(s.rows, day).Some? {
      SaveExistingTwice(s, day, total, currency, total', currency');
    } else {
      SaveNewTwice(s, day, total, currency, total', currency');
    }
  }

  /** The earliest record of the day is found wherever it is. */
  lemma FirstOnDayIs(rows: seq<Row<HistoryRecord>>, day: string, k: nat)
    requires k < |rows| && rows[k].value.date == day
    requires forall j :: 0 <= j < k ==> rows[j].value.date != day
    ensures FirstOnDay(rows, day) == Some(k)
  {
  }

  lemma SaveExistingTwice(s: Store, day: string, total: Number, currency: string, total': Number, currency': string)
    requires FirstOnDay(s.rows, day).Some?
    ensures Saved(Saved(s, day, total, currency), day, total', currency') == Saved(s, day, total', currency')
  {
    var k := FirstOnDay(s.rows, day).value;
    var id := s.rows[k].id;
    var once := Saved(s, day, total, currency);
    assert once.rows == Patched(s.rows, id, Restated(total, currency));
    assert forall j :: 0 <= j < |s.rows| ==> once.rows[j].value.date == s.rows[j].value.date;
    FirstOnDayIs(once.rows, day, k);
    assert once.rows[k].id == id;
    var twice := Patched(once.rows, id, Restated(total', currency'));
    assert forall j :: 0 <= j < |s.rows| ==> twice[j] == Patched(s.rows, id, Restated(total', currency'))[j];
  }

  lemma SaveNewTwice(s: Store, day: string, total: Number, currency: string, total': Number, currency': string)
    requires Keyed(s.rows, s.next)
    requires FirstOnDay(s.rows, day).None?
    ensures Saved(Saved(s, day, total, currency), day, total', currency') == Saved(s, day, total', currency')
  {
    var n := |s.rows|;
    var once := Saved(s, day, total, currency);
    assert once.rows == s.rows + [Row(s.next, HistoryRecord(day, total, currency, None))];
    assert forall j :: 0 <= j < n ==> once.rows[j] == s.rows[j];
    FirstOnDayIs(once.rows, day, n);
    var twice := Patched(once.rows, s.next, Restated(total', currency'));
    var expected := s.rows + [Row(s.next, HistoryRecord(day, total', currency', None))];
    assert forall j :: 0 <= j < n ==> s.rows[j].id != s.next;
    assert forall j :: 0 <= j <= n ==> twice[j] == expected[j];
  }

  /** `saveDailySnapshot(total, currency)` with today's ISO day passed in as `day`. */
  method SaveDailySnapshot(history: Table<HistoryRecord>, day: string, total: Number, currency: string)
    requires history.Valid()
    modifies history
    ensures history.Valid()
    ensures Store(history.rows, history.nextId) ==
      Saved(Store(old(history.rows), old(history.nextId)), day, total, currency)
  {
    var k := FindDay(history.rows, day);
    if k.Some? {
      var _ := history.Update(history.rows[k.value].id, Restated(total, currency));
    } else {
      var _ := history.Add(HistoryRecord(day, total, currency, None));
    }
  }

  /** `updateNote(id, note)`: only the note of the record keyed `id` changes. */
  method UpdateNote(history: Table<HistoryRecord>, id: nat, note: string)
    requires history.Valid()
    modifies history
    ensures history.Valid() && history.nextId == old(history.nextId)
    ensures |history.rows| == |old(history.rows)|
    ensures forall i :: 0 <= i < |history.rows| ==>
      history.rows[i] == if old(history.rows)[i].id == id
                         then Row(id, old(history.rows)[i].value.(note := Some(note)))
                         else old(history.rows)[i]
  {
    var _ := history.Update(id, (r: HistoryRecord) => r.(note := Some(note)));
  }

  /** `clearHistory()`: the table is left empty. */
  method ClearHistory(history: Table<HistoryRecord>)
    requires history.Valid()
    modifies history
    ensures history.Valid() && history.rows == []
  {
    history.Clear();
  }

  // ------------------------------------------------------------ date order

  /** IndexedDB's order on string keys: character by character, a proper prefix first. */
  predicate LexLe(a: string, b: string)
    decreases |a|
  {
    a == [] || (b != [] && (a[0] < b[0] || (a[0] == b[0] && LexLe(a[1..], b[1..]))))
  }

  lemma {:induction false} LexLeTotal(a: string, b: string)
    ensures LexLe(a, b) || LexLe(b, a)
    decreases |a|
  {
    if a != [] && b != [] && a[0] == b[0] {
      LexLeTotal(a[1..], b[1..]);
    }
  }

  lemma {:induction false} LexLeAntisymmetric(a: string, b: string)
    requires LexLe(a, b) && LexLe(b, a)
    ensures a == b
    decreases |a|
  {
    if a != [] {
      LexLeAntisymmetric(a[1..], b[1..]);
      assert a == [a[0]] + a[1..] && b == [b[0]] + b[1..];
    }
  }

  lemma {:induction false} LexLeTransitive(a: string, b: string, c: string)
    requires LexLe(a, b) && LexLe(b, c)
    ensures LexLe(a, c)
    decreases |a|
  {
    if a != [] && a[0] == b[0] && b[0] == c[0] {
      LexLeTransitive(a[1..], b[1..], c[1..]);
    }
  }

  /** The order of the `date` index: by date, then by key. */
  predicate NotAfter(x: Row<HistoryRecord>, y: Row<HistoryRecord>) {
    if x.value.date == y.value.date then x.id <= y.id else LexLe(x.value.date, y.value.date)
  }

  lemma NotAfterTotal(x: Row<HistoryRecord>, y: Row<HistoryRecord>)
    ensures NotAfter(x, y) || NotAfter(y, x)
  {
    LexLeTotal(x.value.date, y.value.date);
  }

  lemma NotAfterTransitive(x: Row<HistoryRecord>, y: Row<HistoryRecord>, z: Row<HistoryRecord>)
    requires NotAfter(x, y) && NotAfter(y, z)
    ensures NotAfter(x, z)
  {
    var a, b, c := x.value.date, y.value.date, z.value.date;
    if a != b && b != c {
      LexLeTransitive(a, b, c);
      if a == c { LexLeAntisymmetric(a, b); }
    }
  }

  ghost predicate Ordered(rows: seq<Row<HistoryRecord>>) {
    forall i, j :: 0 <= i < j < |rows| ==> NotAfter(rows[i], rows[j])
  }

  function Insert(x: Row<HistoryRecord>, rows: seq<Row<HistoryRecord>>): seq<Row<HistoryRecord>> {
    if rows == [] then [x]
    else if NotAfter(x, rows[0]) then [x] + rows
    else [rows[0]] + Insert(x, rows[1..])
  }

  /** The records `orderBy('date')` walks, in index order. */
  function ByDate(rows: seq<Row<HistoryRecord>>): seq<Row<HistoryRecord>> {
    if rows == [] then [] else Insert(rows[0], ByDate(rows[1..]))
  }

  /** Inserting adds exactly the one record. */
  lemma {:induction false} InsertMultiset(x: Row<HistoryRecord>, rows: seq<Row<HistoryRecord>>)
    ensures multiset(Insert(x, rows)) == multiset(rows) + multiset{x}
  {
    if rows != [] && !NotAfter(x, rows[0]) {
      InsertMultiset(x, rows[1..]);
      assert rows == [rows[0]] + rows[1..];
    }
  }

  /** A record not after any of `rows` nor after `x` is not after any record of the insertion. */
  lemma {:induction false} InsertBelow(y: Row<HistoryRecord>, x: Row<HistoryRecord>, rows: seq<Row<HistoryRecord>>)
    requires NotAfter(y, x) && forall j :: 0 <= j < |rows| ==> NotAfter(y, rows[j])
    ensures forall j :: 0 <= j < |Insert(x, rows)| ==> NotAfter(y, Insert(x, rows)[j])
  {
    if rows != [] && !NotAfter(x, rows[0]) {
      var tail := rows[1..];
      assert forall j :: 0 <= j < |tail| ==> tail[j] == rows[j + 1];
      InsertBelow(y, x, tail);
      var r := Insert(x, rows);
      assert forall j :: 0 < j < |r| ==> r[j] == Insert(x, tail)[j - 1];
    }
  }

  lemma ConsOrdered(y: Row<HistoryRecord>, rows: seq<Row<HistoryRecord>>)
    requires Ordered(rows) && forall j :: 0 <= j < |rows| ==> NotAfter(y, rows[j])
    ensures Ordered([y] + rows)
  {
    var r := [y] + rows;
    forall i, j | 0 <= i < j < |r| ensures NotAfter(r[i], r[j]) {
      assert r[j] == rows[j - 1];
      if i > 0 { assert r[i] == rows[i - 1]; }
    }
  }

  /** Inserting into an ordered sequence keeps it ordered. */
  lemma {:induction false} InsertOrdered(x: Row<HistoryRecord>, rows: seq<Row<HistoryRecord>>)
    requires Ordered(rows)
    ensures Ordered(Insert(x, rows))
  {
    if rows == [] {
    } else if NotAfter(x, rows[0]) {
      forall j | 0 <= j < |rows| ensures NotAfter(x, rows[j]) {
        if j > 0 { NotAfterTransitive(x, rows[0], rows[j]); }
      }
      ConsOrdered(x, rows);
    } else {
      var tail := rows[1..];
      assert forall j :: 0 <= j < |tail| ==> tail[j] == rows[j + 1];
      assert Ordered(tail);
      InsertOrdered(x, tail);
      NotAfterTotal(x, rows[0]);
      InsertBelow(rows[0], x, tail);
      ConsOrdered(rows[0], Insert(x, tail));
    }
  }

  /** `getHistory()` walks every record exactly once, in date order (records of
      the same day in key order). */
  lemma {:induction false} ByDateOrdered(rows: seq<Row<HistoryRecord>>)
    ensures Ordered(ByDate(rows))
    ensures multiset(ByDate(rows)) == multiset(rows)
    ensures forall i, j :: 0 <= i < j < |ByDate(rows)| ==>
      LexLe(ByDate(rows)[i].value.date, ByDate(rows)[j].value.date)
  {
    if rows != [] {
      ByDateOrdered(rows[1..]);
      InsertOrdered(rows[0], ByDate(rows[1..]));
      InsertMultiset(rows[0], ByDate(rows[1..]));
      assert rows == [rows[0]] + rows[1..];
    }
    var r := ByDate(rows);
    forall i, j | 0 <= i < j < |r| ensures LexLe(r[i].value.date, r[j].value.date) {
      assert NotAfter(r[i], r[j]);
      if r[i].value.date == r[j].value.date {
        LexLeReflexive(r[i].value.date);
      }
    }
  }

  lemma {:induction false} LexLeReflexive(a: string)
    ensures LexLe(a, a)
    decreases |a|
  {
    if a != [] { LexLeReflexive(a[1..]); }
  }

  /** `getHistory()`: every stored record, with its key, ascending by date; records
      of the same date come in key order, which is the order of the date index. */
  method GetHistory(history: Table<HistoryRecord>) returns (records: seq<Row<HistoryRecord>>)
    ensures multiset(records) == multiset(history.rows)
    ensures forall i, j :: 0 <= i < j < |records| ==> LexLe(records[i].value.date, records[j].value.date)
    ensures forall i, j :: 0 <= i < j < |records| && records[i].value.date == records[j].value.date ==>
      records[i].id <= records[j].id
  {
    records := ByDate(history.rows);
    ByDateOrdered(history.rows);
  }
}
