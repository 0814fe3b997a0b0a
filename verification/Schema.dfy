/** Tables, relationships and logical row keys shared by the reducer's modules. */
module Schema {
  import opened Ordering

  /** A row as `row_to_json(t)::text` shows it. */
  type Value = Text

  /** A logical row: its value and its number among the equal rows of its table. */
  type RowKey = (Value, nat)

  type State = map<TableKey, seq<RowKey>>

  /** A foreign key or virtual relationship. `joins(p, c)` is its join condition: row `c` of
      the child table refers to row `p` of the parent table. `free(c)` holds for a child row
      that need not refer to any parent (a NULL key). */
  datatype ForeignKey = ForeignKey(child: TableKey, parent: TableKey,
                                   joins: (Value, Value) -> bool, free: Value -> bool)

  datatype Schema = Schema(tables: set<TableKey>, foreignKeys: seq<ForeignKey>)
  {
    /** Introspection only returns relationships between listed tables. */
    ghost predicate Valid() {
      forall fk :: fk in foreignKeys ==> fk.child in tables && fk.parent in tables
    }
  }

  /** The logical content of a database: the rows of each table, counting duplicates, and
      everything else a dump carries. */
  datatype Content = Content(rows: map<TableKey, multiset<Value>>, rest: int)
}
