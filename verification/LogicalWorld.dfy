/** The world without triggers: deletion is the closure over the logical rows, and the digest of a
    dump tells contents apart. What the backends and the engine assume of a world holds of it. */
module LogicalWorld {
  import opened Wrappers
  import opened Ordering
  import opened Schema
  import opened Reachability
  import opened Rows
  import opened States
  import opened Verdicts
  import opened Steps
  import D = Deletion
  import F = Fingerprint
  import O = Oracle
  import B = Backends
  import E = Engine

  // ---- deletion ----

  /** The logical rows that go with `rows`: everything that refers to them, over and over. */
  ghost function GoneWith(schema: Schema, state: State, table: TableKey, rows: seq<RowKey>): set<D.KeyNode>
    requires forall fk :: fk in schema.foreignKeys ==> fk.child in state && fk.parent in state
  {
    ReachableFrom(D.KeyEdges(state, schema.foreignKeys), set k | k in rows :: (table, k))
  }

  ghost function Here(state: seq<RowKey>, table: TableKey, gone: set<D.KeyNode>): set<RowKey> {
    set k | k in state && (table, k) in gone
  }

  /** The content without them. */
  ghost function Pruned(schema: Schema, c: Content, table: TableKey, rows: seq<RowKey>): Content
    requires schema.Valid() && schema.tables <= c.rows.Keys
  {
    var state := StateOf(schema.tables, c);
    var gone := GoneWith(schema, state, table, rows);
    Content(map t | t in c.rows ::
              if t in schema.tables then multiset(D.Kept(state[t], Here(state[t], t, gone))) else c.rows[t],
            c.rest)
  }

  ghost function Deleted(schema: Schema, c: Content, table: TableKey, rows: seq<RowKey>): Deletion {
    Left(if schema.Valid() && schema.tables <= c.rows.Keys then Pruned(schema, c, table, rows) else c)
  }

  /** The world of a run on this schema: no triggers, dumps hashed line by line. */
  ghost function Logical(schema: Schema, dump: Content -> seq<byte>, cfg: Config,
                         behaviour: (nat, Content) -> Evidence): World
  {
    World(schema.tables, (i, c, t, k) => Deleted(schema, c, t, k), c => F.Hashed(dump(c)), cfg, behaviour)
  }

  /** Whatever the physical layout: what `delete_rows` leaves is the content without the rows the
      closure over the logical rows holds. */
  lemma PrunedIsDeletion(db: Database, schema: Schema, c: Content, locations: map<TableKey, map<RowKey, Tid>>,
                         table: TableKey, rows: seq<RowKey>, marked: map<TableKey, set<Tid>>, t: TableKey)
    requires D.Fits(db, schema) && schema.tables <= c.rows.Keys && table in schema.tables && t in schema.tables
    requires D.Located(db, StateOf(schema.tables, c), locations)
    requires marked.Keys == schema.tables && forall u :: u in marked ==> marked[u] <= db[u].Keys
    requires forall k :: k in rows ==> k in StateOf(schema.tables, c)[table]
    requires LeastClosed(D.Incoming(db, schema.foreignKeys),
                         set k | k in rows && k in locations[table] :: (table, locations[table][k]), D.Marks(marked))
    ensures Bag(D.Without(db, marked)[t]) == Pruned(schema, c, table, rows).rows[t]
  {
    var state := StateOf(schema.tables, c);
    var edges, seed := D.KeyEdges(state, schema.foreignKeys), set k | k in rows :: (table, k);
    D.MarkedKeys(db, state, locations, schema, table, rows, D.Marks(marked));
    ReachableIsLeast(edges, seed);
    var gone := Image(D.Naming(db, state, locations), D.Marks(marked));
    LeastClosedUnique(edges, seed, gone, ReachableFrom(edges, seed));
    D.RemainingIn(db, state, locations, marked, t, gone);
    hide LeastClosed, D.Naming, D.Located, D.Fits, D.Kept;
  }

  // ---- what the reducer assumes of a world ----

  lemma {:induction false} KeptIsShort(keys: seq<RowKey>, gone: set<RowKey>)
    ensures |D.Kept(keys, gone)| <= |keys|
  {
    if keys != [] { KeptIsShort(keys[1..], gone); }
  }

  /** No table grows. */
  lemma LogicalShrinks(schema: Schema, dump: Content -> seq<byte>, cfg: Config, behaviour: (nat, Content) -> Evidence)
    ensures Shrinking(Logical(schema, dump, cfg, behaviour))
  {
    hide GoneWith, StateOf;
    var w := Logical(schema, dump, cfg, behaviour);
    forall i, c, t, k, u | ShrinkCase(w, i, c, t, k, u) ensures |w.deletion(i, c, t, k).data.rows[u]| <= |c.rows[u]| {
      if schema.Valid() {
        var state := StateOf(schema.tables, c);
        KeptIsShort(state[u], Here(state[u], u, GoneWith(schema, state, t, k)));
        StateLength(schema.tables, c, u);
        assert w.deletion(i, c, t, k) == Left(Pruned(schema, c, t, k));
      }
    }
  }

  /** Where the oracle decides every execution, nothing stops a run from inside. */
  lemma LogicalIsRobust(schema: Schema, dump: Content -> seq<byte>, cfg: Config, behaviour: (nat, Content) -> Evidence)
    requires forall c: Content :: schema.tables <= c.rows.Keys ==> O.Decisive(cfg, behaviour, c)
    ensures Robust(Logical(schema, dump, cfg, behaviour))
  {
    hide GoneWith, StateOf, O.Decisive, D.Kept;
    var w := Logical(schema, dump, cfg, behaviour);
    forall i, c: Content, t, k | w.tables <= c.rows.Keys ensures DeletesWell(w, i, c, t, k) {
      assert w.deletion(i, c, t, k) == Deleted(schema, c, t, k);
    }
  }

  /** Different contents have dumps that differ in more than the order of rows inside COPY blocks,
      and every COPY block of a dump is terminated. */
  ghost predicate Distinguishes(dump: Content -> seq<byte>) {
    && (forall a :: F.Terminated(F.Lines(dump(a))))
    && (forall a, b :: F.Agree(F.Lines(dump(a)), F.Lines(dump(b))) ==> a == b)
  }

  /** With dumps that tell contents apart and an oracle that answers alike, it is deterministic. */
  lemma LogicalIsDeterministic(schema: Schema, dump: Content -> seq<byte>, cfg: Config,
                               behaviour: (nat, Content) -> Evidence)
    requires Distinguishes(dump) && forall c :: O.Steady(behaviour, c)
    ensures Deterministic(Logical(schema, dump, cfg, behaviour))
  {
    hide O.Steady, Deleted, F.Hashed, F.Terminated, F.Agree, F.Lines;
    var w := Logical(schema, dump, cfg, behaviour);
    forall a, b | w.digest(a) == w.digest(b) ensures a == b {
      F.FingerprintExact(dump(a), dump(b));
    }
  }

  // ---- what the reduction leaves ----

  lemma {:induction false} SizeOverLess(keys: seq<TableKey>, s: State, t: State, u: TableKey)
    requires forall k :: k in keys ==> k in s && k in t && |s[k]| <= |t[k]|
    ensures SizeOver(keys, s) <= SizeOver(keys, t)
    ensures u in keys && |s[u]| < |t[u]| ==> SizeOver(keys, s) < SizeOver(keys, t)
  {
    if keys != [] {
      assert u in keys ==> u == keys[0] || u in keys[1..];
      SizeOverLess(keys[1..], s, t, u);
    }
  }

  lemma {:induction false} KeptIsShorter(keys: seq<RowKey>, gone: set<RowKey>, k: RowKey)
    requires k in keys && k in gone
    ensures |D.Kept(keys, gone)| < |keys|
  {
    if keys[0] == k {
      KeptIsShort(keys[1..], gone);
    } else {
      KeptIsShorter(keys[1..], gone, k);
    }
  }

  /** A row that is there goes when it is asked to. */
  lemma PrunedIsSmaller(schema: Schema, c: Content, table: TableKey, k: RowKey)
    requires schema.Valid() && schema.tables <= c.rows.Keys && table in schema.tables
    requires k in StateOf(schema.tables, c)[table]
    ensures Size(StateOf(schema.tables, Pruned(schema, c, table, [k]))) < Size(StateOf(schema.tables, c))
  {
    var state, left := StateOf(schema.tables, c), Pruned(schema, c, table, [k]);
    var edges, seed := D.KeyEdges(state, schema.foreignKeys), set x | x in [k] :: (table, x);
    assert k in [k] && (table, k) in seed;
    ReachableIsLeast(edges, seed);
    assert (table, k) in GoneWith(schema, state, table, [k]);
    hide GoneWith, StateOf, D.KeyEdges, LeastClosed, ReachableFrom;
    KeptIsShorter(state[table], Here(state[table], table, GoneWith(schema, state, table, [k])), k);
    forall u | u in schema.tables ensures |StateOf(schema.tables, left)[u]| <= |state[u]| {
      KeptIsShort(state[u], Here(state[u], u, GoneWith(schema, state, table, [k])));
      StateLength(schema.tables, left, u);
    }
    StateLength(schema.tables, left, table);
    SizeOverLess(SortedKeys(schema.tables), StateOf(schema.tables, left), state, table);
  }

  /** The oracle does not see the failure once `k` is gone with everything that refers to it. */
  ghost predicate Needed(schema: Schema, cfg: Config, behaviour: (nat, Content) -> Evidence, a: Abstract,
                         table: TableKey, k: RowKey)
    requires schema.Valid() && schema.tables <= a.data.rows.Keys
  {
    ShowsOtherwise(cfg, a.expected, behaviour(0, Pruned(schema, a.data, table, [k])))
  }

  /** A row's removal is a refused step if and only if the failure needs the row. */
  lemma RefusedIffNeeded(schema: Schema, dump: Content -> seq<byte>, cfg: Config,
                         behaviour: (nat, Content) -> Evidence, a: Abstract, table: TableKey, k: RowKey)
    requires schema.Valid() && schema.tables <= a.data.rows.Keys && table in schema.tables
    requires k in StateOf(schema.tables, a.data)[table]
    ensures Step(Logical(schema, dump, cfg, behaviour), a, table, [k]) == Some((false, a))
            <==> Needed(schema, cfg, behaviour, a, table, k)
  {
    hide Reproduced, Classify, Pruned, Size, StateOf, Locked, ShowsSame, ShowsOtherwise, ShowsTimeout,
         ShowsNothing;
    ReproducedIff(cfg, a.expected, behaviour(0, Pruned(schema, a.data, table, [k])));
    PrunedIsSmaller(schema, a.data, table, k);
    PrunedTables(schema, a.data, table, [k]);
    var w := Logical(schema, dump, cfg, behaviour);
    assert w.deletion(0, a.data, table, [k]) == Left(Pruned(schema, a.data, table, [k]));
  }

  lemma PrunedTables(schema: Schema, c: Content, table: TableKey, rows: seq<RowKey>)
    requires schema.Valid() && schema.tables <= c.rows.Keys
    ensures Pruned(schema, c, table, rows).rows.Keys == c.rows.Keys && Pruned(schema, c, table, rows).rest == c.rest
    ensures forall t :: t in c.rows && t !in schema.tables ==> Pruned(schema, c, table, rows).rows[t] == c.rows[t]
  {
    hide GoneWith, StateOf;
  }

  /** An undisturbed reduction without triggers: from what `reduce` promises of the glances before
      and after it and of its result, the failure needs every remaining row, and for N rows
      there were at most 3N(N + 1) attempts. */
  lemma EveryRowIsNeeded(g: B.Glance, h: B.Glance, state: State, schema: Schema, dump: Content -> seq<byte>,
                         cfg: Config, behaviour: (nat, Content) -> Evidence)
    requires schema.Valid() && Distinguishes(dump) && forall c :: O.Steady(behaviour, c)
    requires h.world == Logical(schema, dump, cfg, behaviour) && h.undisturbed && |g.log| <= |h.log|
    requires h.Exact() ==> E.OneMinimal(h.world, h.store, state)
    requires Reads(h.world.tables, h.store.data, state)
    requires Shrinking(h.world) ==> |E.Since(g, h)| <= 3 * Size(g.state) * (Size(g.state) + 1)
    ensures |E.Since(g, h)| <= 3 * Size(g.state) * (Size(g.state) + 1)
    ensures forall t, k :: t in state && k in state[t] ==> Needed(schema, cfg, behaviour, h.store, t, k)
  {
    hide Deterministic, Shrinking, Distinguishes, O.Steady, Logical, Needed, StateOf, Size, Step;
    LogicalIsDeterministic(schema, dump, cfg, behaviour);
    LogicalShrinks(schema, dump, cfg, behaviour);
    LogicalTables(schema, dump, cfg, behaviour);
    forall t, k | t in state && k in state[t] ensures Needed(schema, cfg, behaviour, h.store, t, k) {
      RefusedIffNeeded(schema, dump, cfg, behaviour, h.store, t, k);
    }
  }

  lemma LogicalTables(schema: Schema, dump: Content -> seq<byte>, cfg: Config, behaviour: (nat, Content) -> Evidence)
    ensures Logical(schema, dump, cfg, behaviour).tables == schema.tables
  {
  }

  /** What `delete_rows` leaves of a content, in any physical layout, is the pruned content. */
  lemma DeletedIsPruned(db: Database, schema: Schema, c: Content, locations: map<TableKey, map<RowKey, Tid>>,
                        table: TableKey, rows: seq<RowKey>, marked: map<TableKey, set<Tid>>, left: Content)
    requires D.Fits(db, schema) && schema.tables <= c.rows.Keys && table in schema.tables
    requires D.Located(db, StateOf(schema.tables, c), locations)
    requires marked.Keys == schema.tables && forall u :: u in marked ==> marked[u] <= db[u].Keys
    requires forall k :: k in rows ==> k in StateOf(schema.tables, c)[table]
    requires LeastClosed(D.Incoming(db, schema.foreignKeys),
                         set k | k in rows && k in locations[table] :: (table, locations[table][k]), D.Marks(marked))
    requires Leaves(db, schema, c, marked, left)
    ensures left == Pruned(schema, c, table, rows)
  {
    hide LeastClosed, D.Located, D.Incoming, D.Marks, D.Without, Bag, Pruned, StateOf;
    PrunedTables(schema, c, table, rows);
    forall t | t in schema.tables ensures left.rows[t] == Pruned(schema, c, table, rows).rows[t] {
      PrunedIsDeletion(db, schema, c, locations, table, rows, marked, t);
    }
    assert left.rows == Pruned(schema, c, table, rows).rows;
  }

  /** `left` is `c` without the marked rows. */
  ghost predicate Leaves(db: Database, schema: Schema, c: Content, marked: map<TableKey, set<Tid>>, left: Content)
    requires D.Fits(db, schema)
  {
    && left.rest == c.rest && left.rows.Keys == c.rows.Keys
    && forall t :: t in c.rows ==>
         left.rows[t] == if t in schema.tables && t in marked then Bag(D.Without(db, marked)[t]) else c.rows[t]
  }
}
