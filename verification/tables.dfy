/** INSERT ... ON CONFLICT(key) DO UPDATE, for a table whose rows have columns that only the
    insert sets and columns that every later write merges. */
module Tables {
  import opened Options

  datatype Row<F, C> = Row(fixed: F, columns: C)

  type Table<K, F, C> = map<K, Row<F, C>>

  /** merge(excluded, stored) is the SET clause. */
  function Upsert<K, F, C>(t: Table<K, F, C>, key: K, row: Row<F, C>, merge: (C, C) -> C): Table<K, F, C> {
    if key in t then t[key := Row(t[key].fixed, merge(row.columns, t[key].columns))] else t[key := row]
  }

  function UpsertAll<K, F, C>(t: Table<K, F, C>, rows: seq<(K, Row<F, C>)>, merge: (C, C) -> C): Table<K, F, C> {
    if rows == [] then t
    else
      var last := rows[|rows| - 1];
      Upsert(UpsertAll(t, rows[..|rows| - 1], merge), last.0, last.1, merge)
  }

  lemma {:induction false} UpsertConcat<K, F, C>(
    t: Table<K, F, C>, a: seq<(K, Row<F, C>)>, b: seq<(K, Row<F, C>)>, merge: (C, C) -> C)
    ensures UpsertAll(t, a + b, merge) == UpsertAll(UpsertAll(t, a, merge), b, merge)
  {
    if b == [] {
      assert a + b == a;
    } else {
      assert (a + b)[..|a + b| - 1] == a + b[..|b| - 1];
      UpsertConcat(t, a, b[..|b| - 1], merge);
    }
  }

  /** What the SET clauses of this database have in common. */
  ghost predicate Merges<C(!new)>(merge: (C, C) -> C) {
    && (forall a, b, c :: merge(a, merge(b, c)) == merge(merge(a, b), c))
    && (forall a :: merge(a, a) == a)
  }

  /** All writes to one key put together; None when there is no write. */
  function Total<K(==), F, C>(rows: seq<(K, Row<F, C>)>, key: K, merge: (C, C) -> C): Option<C> {
    if rows == [] then None
    else
      var before, last := Total(rows[..|rows| - 1], key, merge), rows[|rows| - 1];
      if last.0 != key then before
      else if before.None? then Some(last.1.columns)
      else Some(merge(last.1.columns, before.value))
  }

  /** The insert-only columns of the first write to one key. */
  function FirstFixed<K(==), F, C>(rows: seq<(K, Row<F, C>)>, key: K): Option<F> {
    if rows == [] then None
    else
      var before, last := FirstFixed(rows[..|rows| - 1], key), rows[|rows| - 1];
      if before.None? && last.0 == key then Some(last.1.fixed) else before
  }

  /** A row after any number of writes: as inserted, with the writes merged in order. */
  lemma {:induction false} UpsertedRow<K, F, C(!new)>(t: Table<K, F, C>, rows: seq<(K, Row<F, C>)>, merge: (C, C) -> C, key: K)
    requires Merges(merge)
    ensures key in UpsertAll(t, rows, merge) <==> key in t || Total(rows, key, merge).Some?
    ensures Total(rows, key, merge).Some? <==> FirstFixed(rows, key).Some?
    ensures key in UpsertAll(t, rows, merge) ==>
              var row := UpsertAll(t, rows, merge)[key];
              var total := Total(rows, key, merge);
              && row.fixed == (if key in t then t[key].fixed else FirstFixed(rows, key).value)
              && row.columns == if total.None? then t[key].columns
                                else if key in t then merge(total.value, t[key].columns) else total.value
  {
    if rows != [] {
      UpsertedRow(t, rows[..|rows| - 1], merge, key);
    }
  }

  /** The same writes, but for the insert-only columns. */
  ghost predicate SameWrites<K, F, C>(rows: seq<(K, Row<F, C>)>, again: seq<(K, Row<F, C>)>) {
    |again| == |rows| && forall i | 0 <= i < |rows| :: again[i].0 == rows[i].0 && again[i].1.columns == rows[i].1.columns
  }

  /** Making the same writes again changes nothing, whatever was stored before and however often
      a key repeats; the insert-only columns of the second round do not matter. */
  lemma UpsertTwice<K, F, C(!new)>(t: Table<K, F, C>, rows: seq<(K, Row<F, C>)>, again: seq<(K, Row<F, C>)>, merge: (C, C) -> C)
    requires Merges(merge)
    requires SameWrites(rows, again)
    ensures UpsertAll(UpsertAll(t, rows, merge), again, merge) == UpsertAll(t, rows, merge)
  {
    var once := UpsertAll(t, rows, merge);
    var twice := UpsertAll(once, again, merge);
    forall key | key in twice
      ensures key in once && twice[key] == once[key]
    {
      SameRow(t, rows, again, merge, key);
    }
    forall key | key in once
      ensures key in twice
    {
      SameRow(t, rows, again, merge, key);
    }
  }

  lemma SameRow<K, F, C(!new)>(
    t: Table<K, F, C>, rows: seq<(K, Row<F, C>)>, again: seq<(K, Row<F, C>)>, merge: (C, C) -> C, key: K)
    requires Merges(merge)
    requires SameWrites(rows, again)
    ensures var once := UpsertAll(t, rows, merge);
            var twice := UpsertAll(once, again, merge);
            (key in twice <==> key in once) && (key in once ==> twice[key] == once[key])
  {
    UpsertedRow(t, rows, merge, key);
    UpsertedRow(UpsertAll(t, rows, merge), again, merge, key);
    SameTotal(rows, again, merge, key);
  }

  lemma {:induction false} SameTotal<K, F, C>(rows: seq<(K, Row<F, C>)>, again: seq<(K, Row<F, C>)>, merge: (C, C) -> C, key: K)
    requires SameWrites(rows, again)
    ensures Total(again, key, merge) == Total(rows, key, merge)
  {
    if rows != [] {
      SameTotal(rows[..|rows| - 1], again[..|rows| - 1], merge, key);
    }
  }

  /** At most one write per key, in any order, to a table without insert-only columns. */
  function UpsertMap<K, C>(t: map<K, C>, writes: map<K, C>, merge: (C, C) -> C): map<K, C> {
    map key | key in t.Keys + writes.Keys ::
      if key !in writes then t[key] else if key in t then merge(writes[key], t[key]) else writes[key]
  }

  lemma UpsertMapTwice<K, C(!new)>(t: map<K, C>, writes: map<K, C>, merge: (C, C) -> C)
    requires Merges(merge)
    ensures UpsertMap(UpsertMap(t, writes, merge), writes, merge) == UpsertMap(t, writes, merge)
  {
    var once := UpsertMap(t, writes, merge);
    forall key | key in writes && key in t
      ensures merge(writes[key], once[key]) == once[key]
    {
      assert merge(writes[key], merge(writes[key], t[key])) == merge(merge(writes[key], writes[key]), t[key]);
    }
  }
}
