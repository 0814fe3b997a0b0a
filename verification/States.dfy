/** The logical state of a database, as `read_rows` returns it (postgres/rows.py). */
module States {
  import opened Wrappers
  import opened Ordering
  import opened Schema
  import opened Rows
  import opened Tracking
  import opened Cluster

  ghost predicate Lists(values: seq<Value>, rows: multiset<Value>) {
    multiset(values) == rows
  }

  /** The rows of a table in value order. */
  ghost function Ordered(rows: multiset<Value>): (values: seq<Value>)
    ensures multiset(values) == rows && SortedBy(TextLeq, values)
  {
    Listable(rows);
    var values :| multiset(values) == rows && SortedBy(TextLeq, values);
    values
  }

  lemma {:induction false} SomeListing(rows: multiset<Value>)
    ensures exists values :: Lists(values, rows)
    decreases |rows|
  {
    if rows == multiset{} {
      assert Lists([], rows);
    } else {
      var v :| v in rows;
      SomeListing(rows - multiset{v});
      var values :| Lists(values, rows - multiset{v});
      assert Lists(values + [v], rows);
    }
  }

  lemma Listable(rows: multiset<Value>)
    ensures exists values :: multiset(values) == rows && SortedBy(TextLeq, values)
  {
    SomeListing(rows);
    var values :| Lists(values, rows);
    TextOrder();
    assert multiset(Sort(TextLeq, values)) == rows && SortedBy(TextLeq, Sort(TextLeq, values));
  }

  ghost function Keys(rows: multiset<Value>): seq<RowKey> {
    Numbered(Ordered(rows))
  }

  /** Different rows, different keys. */
  lemma KeysDetermineRows(a: multiset<Value>, b: multiset<Value>)
    ensures Keys(a) == Keys(b) <==> a == b
  {
    StateIsMultiset(Ordered(a), Ordered(b));
  }

  ghost function StateOf(tables: set<TableKey>, data: Content): (state: State)
    requires tables <= data.rows.Keys
    ensures state.Keys == tables
  {
    map t | t in tables :: Keys(data.rows[t])
  }

  /** Equal states are equal row multisets in every table. */
  lemma StateDeterminesRows(tables: set<TableKey>, a: Content, b: Content)
    requires tables <= a.rows.Keys && tables <= b.rows.Keys
    ensures StateOf(tables, a) == StateOf(tables, b) <==> forall t :: t in tables ==> a.rows[t] == b.rows[t]
  {
    forall t | t in tables ensures Keys(a.rows[t]) == Keys(b.rows[t]) <==> a.rows[t] == b.rows[t] {
      KeysDetermineRows(a.rows[t], b.rows[t]);
    }
    if StateOf(tables, a) == StateOf(tables, b) {
      forall t | t in tables ensures a.rows[t] == b.rows[t] {
        assert StateOf(tables, a)[t] == StateOf(tables, b)[t];
      }
    }
  }

  /** As many keys as rows. */
  lemma StateLength(tables: set<TableKey>, data: Content, t: TableKey)
    requires tables <= data.rows.Keys && t in tables
    ensures |StateOf(tables, data)[t]| == |data.rows[t]|
  {
    var values := Ordered(data.rows[t]);
    assert |multiset(values)| == |values|;
  }

  /** `sum(map(len, state.values()))` */
  function Size(state: State): nat {
    SizeOver(SortedKeys(state.Keys), state)
  }

  function SizeOver(keys: seq<TableKey>, state: State): nat
    requires forall k :: k in keys ==> k in state
  {
    if keys == [] then 0 else |state[keys[0]]| + SizeOver(keys[1..], state)
  }

  /** Every order of the rows of a table, sorted by value, is the ordered one. */
  method ListRows(rows: multiset<Value>) returns (values: seq<Value>)
    ensures values == Ordered(rows)
  {
    var rest: multiset<Value>, unsorted: seq<Value> := rows, [];
    while rest != multiset{}
      invariant multiset(unsorted) + rest == rows
      decreases |rest|
    {
      var v :| v in rest;
      unsorted := unsorted + [v];
      rest := rest - multiset{v};
    }
    TextOrder();
    values := Sort(TextLeq, unsorted);
    SortedUnique(TextLeq, values, Ordered(rows));
  }

  /** `read_rows`: the keys of every table of the schema. The row ids the rows come with do
      not matter for the keys. */
  method ReadRows(tables: set<TableKey>, data: Content) returns (r: Result<State>)
    ensures if tables <= data.rows.Keys then r == Returned(StateOf(tables, data)) else r == Raised(Psycopg(SqlState))
  {
    hide Keys;
    if !(tables <= data.rows.Keys) {
      return Raised(Psycopg(SqlState));
    }
    var names := Listed(tables);
    var state: State := map[];
    for i := 0 to |names|
      invariant forall t :: t in state <==> t in names[..i]
      invariant forall t :: t in state ==> t in tables && state[t] == Keys(data.rows[t])
    {
      var keys := ReadOne(data.rows[names[i]]);
      state := state[names[i] := keys];
    }
    assert names[..|names|] == names;
    assert state.Keys == tables;
    assert state == StateOf(tables, data);
    r := Returned(state);
  }

  method ReadOne(values: multiset<Value>) returns (keys: seq<RowKey>)
    ensures keys == Keys(values)
  {
    var ordered := ListRows(values);
    var rows := seq(|ordered|, j requires 0 <= j < |ordered| => (ordered[j], Tid(0, j)));
    ValuesBack(ordered, rows);
    var mapping;
    keys, mapping := ReadTable(rows);
  }

  lemma ValuesBack(values: seq<Value>, rows: seq<(Value, Tid)>)
    requires |rows| == |values| && forall j :: 0 <= j < |rows| ==> rows[j].0 == values[j]
    ensures Values(rows) == values
  {
  }

  lemma {:induction false} SizeOverSnoc(keys: seq<TableKey>, k: TableKey, state: State)
    requires k in state && forall j :: j in keys ==> j in state
    ensures SizeOver(keys + [k], state) == SizeOver(keys, state) + |state[k]|
    decreases |keys|
  {
    if keys == [] {
      assert [] + [k] == [k] && [k][1..] == [];
    } else {
      assert (keys + [k])[1..] == keys[1..] + [k];
      SizeOverSnoc(keys[1..], k, state);
    }
  }
}
