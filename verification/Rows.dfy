/** Reading and deleting rows (postgres/rows.py).

    A table is a finite map from physical row ids (ctid) to row values. `ReadTable` names
    each row by its value and its number among equal rows; `DeleteRows` closes a deletion
    under incoming relationships. */
module Rows {
  import opened Ordering
  import opened Schema
  import opened Reachability

  /** A physical row id: block and offset. */
  datatype Tid = Tid(block: nat, offset: nat)

  predicate TidLeq(a: Tid, b: Tid) {
    a.block < b.block || (a.block == b.block && a.offset <= b.offset)
  }

  type Table = map<Tid, Value>
  type Database = map<TableKey, Table>

  // ---- read_rows ----

  predicate RowLeq(a: (Value, Tid), b: (Value, Tid)) {
    if a.0 == b.0 then TidLeq(a.1, b.1) else TextLeq(a.0, b.0)
  }

  function Values(rows: seq<(Value, Tid)>): (v: seq<Value>)
    ensures |v| == |rows| && forall i :: 0 <= i < |v| ==> v[i] == rows[i].0
  {
    if rows == [] then [] else [rows[0].0] + Values(rows[1..])
  }

  /** How often `v` occurs in a list of values. */
  function Count(values: seq<Value>, v: Value): nat {
    multiset(values)[v]
  }

  /** The logical keys of a list of row values: each value with its number so far. */
  function Numbered(values: seq<Value>): (keys: seq<RowKey>)
    ensures |keys| == |values|
  {
    if values == [] then [] else
      var n := |values| - 1;
      Numbered(values[..n]) + [(values[n], Count(values[..n], values[n]))]
  }

  lemma {:induction false} NumberedAt(values: seq<Value>, i: nat)
    requires i < |values|
    ensures Numbered(values)[i] == (values[i], Count(values[..i], values[i]))
  {
    var n := |values| - 1;
    if i < n {
      NumberedAt(values[..n], i);
      assert values[..n][..i] == values[..i];
    }
  }

  /** The keys are exactly (v, k) with k below the multiplicity of v, so the key set of a
      table is determined by the multiset of its rows and the other way round. */
  lemma {:induction false} NumberedKeys(values: seq<Value>, k: RowKey)
    ensures k in Numbered(values) <==> k.1 < Count(values, k.0)
  {
    if values != [] {
      var n := |values| - 1;
      NumberedKeys(values[..n], k);
      assert values == values[..n] + [values[n]];
      assert multiset(values) == multiset(values[..n]) + multiset{values[n]};
    }
  }

  lemma {:induction false} NumberedDistinct(values: seq<Value>, i: nat, j: nat)
    requires i < j < |values|
    ensures Numbered(values)[i] != Numbered(values)[j]
  {
    NumberedAt(values, i);
    NumberedAt(values, j);
    assert values[..i + 1] == values[..i] + [values[i]];
    assert values[..j] == values[..i + 1] + values[i + 1..j];
  }

  /** Equal states mean equal row multisets: two tables whose rows are listed in value order
      have the same keys, in the same order, exactly when they hold the same rows, counting
      duplicates. */
  lemma StateIsMultiset(a: seq<Value>, b: seq<Value>)
    requires SortedBy(TextLeq, a) && SortedBy(TextLeq, b)
    ensures Numbered(a) == Numbered(b) <==> multiset(a) == multiset(b)
  {
    TextOrder();
    if multiset(a) == multiset(b) { SortedUnique(TextLeq, a, b); }
    if Numbered(a) == Numbered(b) {
      forall v ensures multiset(a)[v] == multiset(b)[v] {
        var c, d := Count(a, v), Count(b, v);
        NumberedKeys(a, (v, c));
        NumberedKeys(b, (v, c));
        NumberedKeys(a, (v, d));
        NumberedKeys(b, (v, d));
      }
    }
  }

  /** A table with fewer copies of each row keeps a subset of the keys: numbering starts
      again at zero, so the surviving keys of a value are the lowest ones. */
  lemma SubmultisetKeys(small: seq<Value>, large: seq<Value>, k: RowKey)
    requires multiset(small) <= multiset(large) && k in Numbered(small)
    ensures k in Numbered(large)
  {
    NumberedKeys(small, k);
    NumberedKeys(large, k);
  }

  /** `rows` holds each row of `t` once. */
  ghost predicate Enumerates(t: Table, rows: seq<(Value, Tid)>) {
    && (forall i :: 0 <= i < |rows| ==> rows[i].1 in t && t[rows[i].1] == rows[i].0)
    && (forall tid :: tid in t ==> exists i :: 0 <= i < |rows| && rows[i].1 == tid)
    && (forall i, j :: 0 <= i < j < |rows| ==> rows[i].1 != rows[j].1)
  }

  /** The reply to `SELECT row_to_json(t)::text, ctid ... ORDER BY` value, ctid. */
  ghost predicate Listing(t: Table, rows: seq<(Value, Tid)>) {
    Enumerates(t, rows) && SortedBy(RowLeq, rows)
  }

  lemma NumberedSnoc(values: seq<Value>, i: nat)
    requires i < |values|
    ensures Numbered(values[..i + 1]) ==
            Numbered(values[..i]) + [(values[i], Count(values[..i], values[i]))]
    ensures (values[i], Count(values[..i], values[i])) !in Numbered(values[..i])
    ensures forall v :: Count(values[..i + 1], v) == Count(values[..i], v) + (if v == values[i] then 1 else 0)
  {
    assert values[..i + 1] == values[..i] + [values[i]];
    assert values[..i + 1][..i] == values[..i];
    NumberedKeys(values[..i], (values[i], Count(values[..i], values[i])));
  }

  ghost predicate Locates(rows: seq<(Value, Tid)>, keys: seq<RowKey>, mapping: map<RowKey, Tid>) {
    && |keys| <= |rows|
    && (forall k :: k in mapping <==> k in keys)
    && (forall i :: 0 <= i < |keys| ==> keys[i] in mapping && mapping[keys[i]] == rows[i].1)
  }

  lemma LocatesNext(rows: seq<(Value, Tid)>, keys: seq<RowKey>, mapping: map<RowKey, Tid>, key: RowKey)
    requires Locates(rows, keys, mapping) && |keys| < |rows| && key !in keys
    ensures Locates(rows, keys + [key], mapping[key := rows[|keys|].1])
  {
    var next := keys + [key];
    forall i | 0 <= i < |keys| ensures next[i] == keys[i] && next[i] != key { assert keys[i] in keys; }
  }

  ghost predicate Tallies(counts: map<Value, nat>, values: seq<Value>) {
    forall v :: (if v in counts then counts[v] else 0) == Count(values, v)
  }

  lemma TalliesNext(counts: map<Value, nat>, values: seq<Value>, v: Value)
    requires Tallies(counts, values)
    ensures Tallies(counts[v := Count(values, v) + 1], values + [v])
  {
    assert multiset(values + [v]) == multiset(values) + multiset{v};
  }

  lemma TalliedCount(counts: map<Value, nat>, values: seq<Value>, v: Value)
    requires Tallies(counts, values)
    ensures (if v in counts then counts[v] else 0) == Count(values, v)
  {
  }

  lemma NoRows(rows: seq<(Value, Tid)>)
    ensures Locates(rows, [], map[]) && Tallies(map[], Values(rows)[..0]) && Numbered(Values(rows)[..0]) == []
  {
  }

  method ReadTable(rows: seq<(Value, Tid)>) returns (keys: seq<RowKey>, mapping: map<RowKey, Tid>)
    ensures keys == Numbered(Values(rows))
    ensures Locates(rows, keys, mapping)
  {
    hide Numbered, Count, Locates, Tallies;
    ghost var values := Values(rows);
    NoRows(rows);
    var counts: map<Value, nat> := map[];
    keys, mapping := [], map[];
    var i := 0;
    while i < |rows|
      invariant 0 <= i <= |rows| == |values| && |keys| == i
      invariant keys == Numbered(values[..i])
      invariant Locates(rows, keys, mapping)
      invariant Tallies(counts, values[..i])
    {
      var value := rows[i].0;
      assert values[i] == value;
      NumberedSnoc(values, i);
      var n := if value in counts then counts[value] else 0;
      TalliedCount(counts, values[..i], value);
      var key := (value, n);
      LocatesNext(rows, keys, mapping, key);
      TalliesNext(counts, values[..i], value);
      assert values[..i + 1] == values[..i] + [value];
      counts := counts[value := n + 1];
      mapping := mapping[key := rows[i].1];
      keys := keys + [key];
      i := i + 1;
    }
    assert values[..|rows|] == values;
  }

  // ---- a table as a multiset of rows ----

  ghost function AnyOf(s: set<Tid>): Tid
    requires s != {}
    ensures AnyOf(s) in s
  {
    var tid :| tid in s;
    tid
  }

  ghost function Bag(t: Table): multiset<Value>
    decreases t.Keys
  {
    if t.Keys == {} then multiset{} else
      var tid := AnyOf(t.Keys);
      Bag(t - {tid}) + multiset{t[tid]}
  }

  lemma {:induction false} BagRemove(t: Table, tid: Tid)
    requires tid in t
    ensures Bag(t) == Bag(t - {tid}) + multiset{t[tid]}
    decreases t.Keys
  {
    var x := AnyOf(t.Keys);
    if x != tid {
      var both := t - {x, tid};
      assert t - {x} - {tid} == both && t - {tid} - {x} == both;
      BagRemove(t - {x}, tid);
      BagRemove(t - {tid}, x);
    }
  }

  lemma {:induction false} EnumerationBag(t: Table, rows: seq<(Value, Tid)>)
    requires Enumerates(t, rows)
    ensures multiset(Values(rows)) == Bag(t)
    decreases |rows|
  {
    if rows == [] {
      assert t.Keys == {};
    } else {
      hide Enumerates;
      EnumeratesTail(t, rows);
      EnumerationBag(t - {rows[0].1}, rows[1..]);
      BagRemove(t, rows[0].1);
      assert Values(rows) == [rows[0].0] + Values(rows[1..]);
    }
  }

  lemma EnumeratesTail(t: Table, rows: seq<(Value, Tid)>)
    requires Enumerates(t, rows) && rows != []
    ensures rows[0].1 in t && t[rows[0].1] == rows[0].0
    ensures Enumerates(t - {rows[0].1}, rows[1..])
  {
    var tid, rest := rows[0].1, rows[1..];
    forall x | x in t - {tid} ensures exists i :: 0 <= i < |rest| && rest[i].1 == x {
      var i :| 0 <= i < |rows| && rows[i].1 == x;
      assert rest[i - 1].1 == x;
    }
  }

  lemma {:induction false} ListingSorted(t: Table, rows: seq<(Value, Tid)>)
    requires Listing(t, rows)
    ensures SortedBy(TextLeq, Values(rows))
  {
    var v := Values(rows);
    TextOrder();
    forall i, j | 0 <= i < j < |v| ensures TextLeq(v[i], v[j]) {
      assert RowLeq(rows[i], rows[j]);
    }
  }

  /** `read_rows` gives two tables the same keys exactly when they hold the same rows,
      counting duplicates, whatever their physical layout. */
  lemma SameKeysSameRows(a: Table, b: Table, ra: seq<(Value, Tid)>, rb: seq<(Value, Tid)>)
    requires Listing(a, ra) && Listing(b, rb)
    ensures Numbered(Values(ra)) == Numbered(Values(rb)) <==> Bag(a) == Bag(b)
  {
    ListingSorted(a, ra);
    ListingSorted(b, rb);
    EnumerationBag(a, ra);
    EnumerationBag(b, rb);
    StateIsMultiset(Values(ra), Values(rb));
  }

  // ---- keys and row ids ----

  /** `keys` and `mapping` name the rows of `t`: one key per row, carrying the row's value. */
  ghost predicate Named(t: Table, keys: seq<RowKey>, mapping: map<RowKey, Tid>) {
    && (forall i, j :: 0 <= i < j < |keys| ==> keys[i] != keys[j])
    && (forall k :: k in mapping <==> k in keys)
    && (forall k :: k in mapping ==> mapping[k] in t && t[mapping[k]] == k.0)
    && (forall k, l :: k in mapping && l in mapping && mapping[k] == mapping[l] ==> k == l)
    && (forall x :: x in t ==> exists k :: k in mapping && mapping[k] == x)
  }

  /** What `read_rows` returns names the rows of the table. */
  lemma ReadNames(t: Table, rows: seq<(Value, Tid)>, keys: seq<RowKey>, mapping: map<RowKey, Tid>)
    requires Listing(t, rows) && keys == Numbered(Values(rows)) && Locates(rows, keys, mapping)
    ensures Named(t, keys, mapping)
  {
    forall i | 0 <= i < |rows| ensures keys[i].0 == rows[i].0 { NumberedAt(Values(rows), i); }
    forall i, j | 0 <= i < j < |keys| ensures keys[i] != keys[j] { NumberedDistinct(Values(rows), i, j); }
    DistinctKeysName(t, rows, keys, mapping);
  }

  lemma DistinctKeysName(t: Table, rows: seq<(Value, Tid)>, keys: seq<RowKey>, mapping: map<RowKey, Tid>)
    requires Enumerates(t, rows) && Locates(rows, keys, mapping) && |keys| == |rows|
    requires forall i :: 0 <= i < |rows| ==> keys[i].0 == rows[i].0
    requires forall i, j :: 0 <= i < j < |keys| ==> keys[i] != keys[j]
    ensures Named(t, keys, mapping)
  {
    forall k | k in mapping ensures mapping[k] in t && t[mapping[k]] == k.0 {
      var i := Position(rows, keys, mapping, k);
    }
    forall k, l | k in mapping && l in mapping && mapping[k] == mapping[l] ensures k == l {
      var i, j := Position(rows, keys, mapping, k), Position(rows, keys, mapping, l);
    }
    forall x | x in t ensures exists k :: k in mapping && mapping[k] == x {
      var i :| 0 <= i < |rows| && rows[i].1 == x;
      assert mapping[keys[i]] == x;
    }
  }

  ghost function Position(rows: seq<(Value, Tid)>, keys: seq<RowKey>, mapping: map<RowKey, Tid>, k: RowKey): (i: nat)
    requires Locates(rows, keys, mapping) && k in mapping
    ensures i < |keys| && keys[i] == k && mapping[k] == rows[i].1
  {
    var i: nat :| i < |keys| && keys[i] == k;
    i
  }
}
