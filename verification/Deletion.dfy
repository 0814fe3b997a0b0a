/** Deleting rows with everything that refers to them (postgres/rows.py, `delete_rows`). */
module Deletion {
  import opened Ordering
  import opened Schema
  import opened Reachability
  import opened Rows

  // ---- delete_rows ----

  type Node = (TableKey, Tid)

  ghost predicate Fits(db: Database, schema: Schema) {
    schema.Valid() && db.Keys == schema.tables
  }

  /** Parent row -> child row, for every relationship whose join condition holds. */
  ghost function Incoming(db: Database, fks: seq<ForeignKey>): set<(Node, Node)>
    requires forall fk :: fk in fks ==> fk.child in db && fk.parent in db
  {
    set fk, p, c | fk in fks && p in db[fk.parent] && c in db[fk.child]
                   && fk.joins(db[fk.parent][p], db[fk.child][c])
      :: ((fk.parent, p), (fk.child, c))
  }

  ghost function Marks(marked: map<TableKey, set<Tid>>): set<Node> {
    set t, x | t in marked && x in marked[t] :: (t, x)
  }

  function Without(db: Database, marked: map<TableKey, set<Tid>>): Database {
    map t | t in db :: if t in marked then db[t] - marked[t] else db[t]
  }

  /** Every row of the database as a node; marking never leaves it. */
  ghost function AllNodes(db: Database): set<Node> {
    set t, x | t in db && x in db[t] :: (t, x)
  }

  /** The marked set so far: inside the database, above the seed, below every closed set. */
  ghost predicate Marking(db: Database, fks: seq<ForeignKey>, seed: set<Node>,
                          marked: map<TableKey, set<Tid>>)
    requires forall fk :: fk in fks ==> fk.child in db && fk.parent in db
  {
    && marked.Keys == db.Keys
    && (forall t :: t in marked ==> marked[t] <= db[t].Keys)
    && seed <= Marks(marked)
    && (forall d: set<Node> :: seed <= d && Closed(Incoming(db, fks), d) ==> Marks(marked) <= d)
  }

  /** One join query: the child rows that refer to a marked parent row. */
  function Found(db: Database, fk: ForeignKey, parents: set<Tid>): (found: set<Tid>)
    requires fk.child in db && fk.parent in db && parents <= db[fk.parent].Keys
    ensures forall c :: c in found <==>
      c in db[fk.child] && exists p :: p in parents && fk.joins(db[fk.parent][p], db[fk.child][c])
  {
    set c | c in db[fk.child] && exists p :: p in parents && fk.joins(db[fk.parent][p], db[fk.child][c])
  }

  /** No unmarked child row refers to a marked row through the first `n` relationships. */
  ghost predicate Settled(db: Database, fks: seq<ForeignKey>, marked: map<TableKey, set<Tid>>, n: nat)
    requires n <= |fks| && forall fk :: fk in fks ==> fk.child in db && fk.parent in db
    requires marked.Keys == db.Keys && forall t :: t in marked ==> marked[t] <= db[t].Keys
  {
    forall i :: 0 <= i < n ==> Found(db, fks[i], marked[fks[i].parent]) <= marked[fks[i].child]
  }

  lemma SettledIsClosed(db: Database, fks: seq<ForeignKey>, marked: map<TableKey, set<Tid>>)
    requires forall fk :: fk in fks ==> fk.child in db && fk.parent in db
    requires marked.Keys == db.Keys && forall t :: t in marked ==> marked[t] <= db[t].Keys
    requires Settled(db, fks, marked, |fks|)
    ensures Closed(Incoming(db, fks), Marks(marked))
  {
    forall e | e in Incoming(db, fks) && e.0 in Marks(marked) ensures e.1 in Marks(marked) {
      var fk, p, c :| fk in fks && p in db[fk.parent] && c in db[fk.child]
        && fk.joins(db[fk.parent][p], db[fk.child][c]) && e == ((fk.parent, p), (fk.child, c));
      var i :| 0 <= i < |fks| && fks[i] == fk;
      assert p in marked[fk.parent];
      assert c in Found(db, fks[i], marked[fks[i].parent]);
    }
  }

  lemma FoundKeepsMarking(db: Database, fks: seq<ForeignKey>, seed: set<Node>,
                          marked: map<TableKey, set<Tid>>, fk: ForeignKey)
    requires forall k :: k in fks ==> k.child in db && k.parent in db
    requires Marking(db, fks, seed, marked) && fk in fks
    ensures Marking(db, fks, seed,
                    marked[fk.child := marked[fk.child] + Found(db, fk, marked[fk.parent])])
  {
    var found := Found(db, fk, marked[fk.parent]);
    var next := marked[fk.child := marked[fk.child] + found];
    forall n | n in Marks(marked) ensures n in Marks(next) { assert n.1 in next[n.0]; }
    forall d: set<Node> | seed <= d && Closed(Incoming(db, fks), d) ensures Marks(next) <= d {
      forall c | c in found ensures (fk.child, c) in d {
        var p :| p in marked[fk.parent] && fk.joins(db[fk.parent][p], db[fk.child][c]);
        assert (fk.parent, p) in Marks(marked);
        var e := ((fk.parent, p), (fk.child, c));
        assert e in Incoming(db, fks) && e.0 in d;
      }
    }
  }

  /** Where one pass over the relationships stands after the first `n` of them. */
  ghost predicate Pass(db: Database, fks: seq<ForeignKey>, seed: set<Node>,
                       entry: map<TableKey, set<Tid>>, marked: map<TableKey, set<Tid>>,
                       changed: bool, n: nat)
    requires n <= |fks| && forall fk :: fk in fks ==> fk.child in db && fk.parent in db
  {
    && Marking(db, fks, seed, marked)
    && Marks(entry) <= Marks(marked)
    && (changed ==> Marks(entry) < Marks(marked))
    && (!changed ==> marked == entry && Settled(db, fks, marked, n))
  }

  lemma PassNext(db: Database, fks: seq<ForeignKey>, seed: set<Node>,
                 entry: map<TableKey, set<Tid>>, marked: map<TableKey, set<Tid>>,
                 changed: bool, n: nat)
    requires n < |fks| && forall fk :: fk in fks ==> fk.child in db && fk.parent in db
    requires Pass(db, fks, seed, entry, marked, changed, n)
    ensures var fk := fks[n];
            var next := marked[fk.child] + Found(db, fk, marked[fk.parent]);
            Pass(db, fks, seed, entry, marked[fk.child := next], changed || next != marked[fk.child], n + 1)
  {
    var fk := fks[n];
    var next := marked[fk.child] + Found(db, fk, marked[fk.parent]);
    FoundKeepsMarking(db, fks, seed, marked, fk);
    if next != marked[fk.child] {
      MarksGrow(marked, fk.child, next);
    } else {
      assert marked[fk.child := next] == marked;
    }
  }

  /** One pass over the relationships. */
  method OnePass(db: Database, schema: Schema, entry: map<TableKey, set<Tid>>, ghost start: set<Node>)
    returns (marked: map<TableKey, set<Tid>>, changed: bool)
    requires Fits(db, schema) && Marking(db, schema.foreignKeys, start, entry)
    ensures Pass(db, schema.foreignKeys, start, entry, marked, changed, |schema.foreignKeys|)
  {
    var fks := schema.foreignKeys;
    marked, changed := entry, false;
    for i := 0 to |fks|
      invariant Pass(db, fks, start, entry, marked, changed, i)
    {
      var fk := fks[i];
      PassNext(db, fks, start, entry, marked, changed, i);
      if marked[fk.parent] == {} {
        NothingFound(db, fk, marked);
        continue;
      }
      var before := |marked[fk.child]|;
      SameSize(marked[fk.child], Found(db, fk, marked[fk.parent]));
      marked := marked[fk.child := marked[fk.child] + Found(db, fk, marked[fk.parent])];
      changed := changed || |marked[fk.child]| != before;
    }
  }

  lemma NothingFound(db: Database, fk: ForeignKey, marked: map<TableKey, set<Tid>>)
    requires fk.child in db && fk.parent in db && fk.child in marked && fk.parent in marked
    requires marked[fk.parent] == {}
    ensures marked[fk.child] + Found(db, fk, marked[fk.parent]) == marked[fk.child]
    ensures marked[fk.child := marked[fk.child] + Found(db, fk, marked[fk.parent])] == marked
  {
    assert Found(db, fk, {}) == {};
  }

  /** The fixed-point loop of `delete_rows`. Unmarked rows decrease, so it ends. */
  method Closure(db: Database, schema: Schema, table: TableKey, seed: set<Tid>)
    returns (marked: map<TableKey, set<Tid>>)
    requires Fits(db, schema) && table in db && seed <= db[table].Keys
    ensures marked.Keys == db.Keys && forall t :: t in marked ==> marked[t] <= db[t].Keys
    ensures LeastClosed(Incoming(db, schema.foreignKeys), set x | x in seed :: (table, x), Marks(marked))
  {
    ghost var fks := schema.foreignKeys;
    ghost var start := set x | x in seed :: (table, x);
    marked := map t | t in schema.tables :: if t == table then seed else {};
    var changed := true;
    assert Marks(marked) == start;
    while changed
      invariant Marking(db, fks, start, marked)
      invariant !changed ==> Settled(db, fks, marked, |fks|)
      decreases AllNodes(db) - Marks(marked), changed
    {
      ghost var entry := marked;
      marked, changed := OnePass(db, schema, marked, start);
      MarksInside(db, marked);
    }
    SettledIsClosed(db, fks, marked);
  }

  lemma MarksInside(db: Database, marked: map<TableKey, set<Tid>>)
    requires marked.Keys == db.Keys && forall t :: t in marked ==> marked[t] <= db[t].Keys
    ensures Marks(marked) <= AllNodes(db)
  {
  }

  /** Comparing sizes before and after `update` tells whether the set changed. */
  lemma SameSize(s: set<Tid>, more: set<Tid>)
    ensures |s + more| == |s| <==> s + more == s
  {
    assert s + more == s + (more - s);
    assert |s + (more - s)| == |s| + |more - s|;
  }

  lemma MarksGrow(marked: map<TableKey, set<Tid>>, t: TableKey, more: set<Tid>)
    requires t in marked && marked[t] < more
    ensures Marks(marked) < Marks(marked[t := more])
  {
    var next := marked[t := more];
    forall n | n in Marks(marked) ensures n in Marks(next) { assert n.1 in next[n.0]; }
    assert !(more <= marked[t]);
    var x :| x in more && x !in marked[t];
    assert (t, x) in Marks(next) && (t, x) !in Marks(marked);
  }

  /** What the server does with the one DELETE command: it may refuse it, or a trigger may
      refuse it, or it may leave any database behind (triggers can write). */
  datatype Reply = Applied(after: Database) | IntegrityViolation | RaiseException

  /** A server without triggers: what the command applies is the deletion of the rows it names. */
  ghost predicate Untriggered(db: Database, server: map<TableKey, set<Tid>> -> Reply) {
    forall m :: server(m).Applied? ==> server(m).after == Without(db, m)
  }

  datatype DeleteResult =
    | NothingMarked
    | Deleted(marked: map<TableKey, set<Tid>>, after: Database)
    | Constraint(marked: map<TableKey, set<Tid>>)
    | Rejected(marked: map<TableKey, set<Tid>>)
    | MissingKey

  /** Row `c` refers to row `p` by one of the relationships. */
  ghost predicate Refers(db: Database, fks: seq<ForeignKey>, p: Node, c: Node) {
    p.0 in db && c.0 in db && p.1 in db[p.0] && c.1 in db[c.0]
    && exists fk :: fk in fks && fk.parent == p.0 && fk.child == c.0 && fk.joins(db[p.0][p.1], db[c.0][c.1])
  }

  /** Rows of which each refers to the one before it. */
  ghost predicate References(db: Database, fks: seq<ForeignKey>, rows: seq<Node>) {
    rows != [] && forall i :: 0 < i < |rows| ==> Refers(db, fks, rows[i - 1], rows[i])
  }

  /** The row is one of those asked for, or refers to one of them directly or through others. */
  ghost predicate Goes(db: Database, fks: seq<ForeignKey>, asked: set<Node>, x: Node) {
    exists chain :: References(db, fks, chain) && chain[0] in asked && chain[|chain| - 1] == x
  }

  /** The least closed set holds the rows asked for and what refers to them, and nothing else. */
  lemma MarkedIff(db: Database, schema: Schema, asked: set<Node>, marked: set<Node>, x: Node)
    requires Fits(db, schema) && LeastClosed(Incoming(db, schema.foreignKeys), asked, marked)
    ensures x in marked <==> Goes(db, schema.foreignKeys, asked, x)
  {
    var edges := Incoming(db, schema.foreignKeys);
    LeastClosedIsReachable(edges, asked, marked, x);
    hide LeastClosed;
    forall p: Node, c: Node ensures (p, c) in edges <==> Refers(db, schema.foreignKeys, p, c) {
      IncomingRefers(db, schema, p, c);
    }
    hide Incoming, Refers;
    if a, p :| a in asked && IsPath(edges, p) && p[0] == a && p[|p| - 1] == x {
      assert References(db, schema.foreignKeys, p);
    }
    if chain :| References(db, schema.foreignKeys, chain) && chain[0] in asked && chain[|chain| - 1] == x {
      assert IsPath(edges, chain);
      assert Reaches(edges, chain[0], x);
    }
  }

  lemma IncomingRefers(db: Database, schema: Schema, p: Node, c: Node)
    requires Fits(db, schema)
    ensures (p, c) in Incoming(db, schema.foreignKeys) <==> Refers(db, schema.foreignKeys, p, c)
  {
  }

  lemma MarkedRows(db: Database, schema: Schema, asked: set<Node>, marked: map<TableKey, set<Tid>>)
    requires Fits(db, schema) && LeastClosed(Incoming(db, schema.foreignKeys), asked, Marks(marked))
    ensures forall t, x :: t in marked ==> (x in marked[t] <==> Goes(db, schema.foreignKeys, asked, (t, x)))
  {
    hide LeastClosed, Goes, Incoming;
    forall t, x | t in marked ensures x in marked[t] <==> Goes(db, schema.foreignKeys, asked, (t, x)) {
      MarkedIff(db, schema, asked, Marks(marked), (t, x));
      assert x in marked[t] <==> (t, x) in Marks(marked);
    }
  }

  /** Something is marked exactly if something was asked for. */
  lemma MarkedIfAsked(db: Database, schema: Schema, asked: set<Node>, marked: map<TableKey, set<Tid>>)
    requires Fits(db, schema) && LeastClosed(Incoming(db, schema.foreignKeys), asked, Marks(marked))
    ensures (forall t :: t in marked ==> marked[t] == {}) <==> asked == {}
    ensures Closed(Incoming(db, schema.foreignKeys), Marks(marked))
  {
    if asked == {} {
      assert Closed(Incoming(db, schema.foreignKeys), {});
      assert forall t, x :: t in marked && x in marked[t] ==> (t, x) in Marks(marked);
    } else {
      var x :| x in asked;
      assert x in Marks(marked);
    }
  }

  method DeleteRows(db: Database, schema: Schema, locations: map<TableKey, map<RowKey, Tid>>,
                    table: TableKey, rows: seq<RowKey>,
                    server: map<TableKey, set<Tid>> -> Reply)
    returns (r: DeleteResult)
    requires Fits(db, schema)
    requires locations.Keys == schema.tables && table in schema.tables
    requires forall t, k :: t in locations && k in locations[t] ==> locations[t][k] in db[t]
    ensures r.MissingKey? <==> exists k :: k in rows && k !in locations[table]
    ensures r.NothingMarked? <==> rows == []
    ensures r.Deleted? || r.Constraint? || r.Rejected? ==>
      && (forall k :: k in rows ==> k in locations[table])
      && (forall t, x :: t in r.marked ==>
           (x in r.marked[t] <==> Goes(db, schema.foreignKeys,
                                       set k | k in rows && k in locations[table] :: (table, locations[table][k]),
                                       (t, x))))
      && LeastClosed(Incoming(db, schema.foreignKeys),
                     set k | k in rows && k in locations[table] :: (table, locations[table][k]),
                     Marks(r.marked))
      && r.marked.Keys == schema.tables
      && (forall t :: t in r.marked ==> r.marked[t] <= db[t].Keys)
    ensures r.Deleted? ==> server(r.marked) == Applied(r.after)
    ensures r.Deleted? && Untriggered(db, server) ==>
      && r.after == Without(db, r.marked)
      && (Satisfied(db, schema.foreignKeys) ==> Satisfied(r.after, schema.foreignKeys))
    ensures r.Constraint? ==> server(r.marked) == IntegrityViolation
    ensures r.Rejected? ==> server(r.marked) == RaiseException
  {
    hide LeastClosed, Goes, Incoming, Satisfied, Without, Marks;
    if exists k :: k in rows && k !in locations[table] {
      return MissingKey;
    }
    var seed := set k | k in rows && k in locations[table] :: locations[table][k];
    var marked := Closure(db, schema, table, seed);
    ghost var start := set k | k in rows && k in locations[table] :: (table, locations[table][k]);
    assert start == set x | x in seed :: (table, x) by {
      forall k | k in rows && k in locations[table] ensures locations[table][k] in seed {}
    }
    assert rows != [] ==> (table, locations[table][rows[0]]) in start;
    MarkedIfAsked(db, schema, start, marked);
    if forall t :: t in marked ==> marked[t] == {} {
      return NothingMarked;
    }
    MarkedRows(db, schema, start, marked);
    if Satisfied(db, schema.foreignKeys) {
      ClosedDeletionKeepsReferences(db, schema, marked);
    }
    match server(marked)
    case Applied(after) => return Deleted(marked, after);
    case IntegrityViolation => return Constraint(marked);
    case RaiseException => return Rejected(marked);
  }

  // ---- what the closure guarantees ----

  /** Every child row is free of the relationship or refers to some parent row. */
  ghost predicate Satisfied(db: Database, fks: seq<ForeignKey>)
    requires forall fk :: fk in fks ==> fk.child in db && fk.parent in db
  {
    forall fk, c :: fk in fks && c in db[fk.child] ==>
      || fk.free(db[fk.child][c])
      || exists p :: p in db[fk.parent] && fk.joins(db[fk.parent][p], db[fk.child][c])
  }

  /** Deleting a closed set of rows keeps every relationship satisfied. */
  lemma ClosedDeletionKeepsReferences(db: Database, schema: Schema, marked: map<TableKey, set<Tid>>)
    requires Fits(db, schema) && Satisfied(db, schema.foreignKeys)
    requires marked.Keys == schema.tables
    requires Closed(Incoming(db, schema.foreignKeys), Marks(marked))
    ensures Satisfied(Without(db, marked), schema.foreignKeys)
  {
    var fks, after := schema.foreignKeys, Without(db, marked);
    forall fk, c | fk in fks && c in after[fk.child] && !fk.free(after[fk.child][c])
      ensures exists p :: p in after[fk.parent] && fk.joins(after[fk.parent][p], after[fk.child][c])
    {
      var p :| p in db[fk.parent] && fk.joins(db[fk.parent][p], db[fk.child][c]);
      var e := ((fk.parent, p), (fk.child, c));
      assert e in Incoming(db, fks);
      assert e.1 !in Marks(marked);
      assert e.0 !in Marks(marked);
      assert p in after[fk.parent];
    }
  }

  /** Deleting two groups of rows together marks what deleting each alone marks. */
  lemma MarkingDistributes(db: Database, schema: Schema, s: set<Node>, t: set<Node>,
                           cs: set<Node>, ct: set<Node>, both: set<Node>)
    requires Fits(db, schema)
    requires LeastClosed(Incoming(db, schema.foreignKeys), s, cs)
    requires LeastClosed(Incoming(db, schema.foreignKeys), t, ct)
    requires LeastClosed(Incoming(db, schema.foreignKeys), s + t, both)
    ensures both == cs + ct
  {
    LeastClosedUnion(Incoming(db, schema.foreignKeys), s, t, cs, ct);
  }

  // ---- deletion depends on the rows, not on their physical layout ----

  /** `read_rows` of a whole database: for each table its keys and where they are. */
  ghost predicate Located(db: Database, state: State, locations: map<TableKey, map<RowKey, Tid>>) {
    && db.Keys == state.Keys == locations.Keys
    && forall t :: t in db ==> Named(db[t], state[t], locations[t])
  }

  type KeyNode = (TableKey, RowKey)

  /** The relationships between logical rows: they depend on the state alone. */
  ghost function KeyEdges(state: State, fks: seq<ForeignKey>): set<(KeyNode, KeyNode)>
    requires forall fk :: fk in fks ==> fk.child in state && fk.parent in state
  {
    set fk, p, c | fk in fks && p in state[fk.parent] && c in state[fk.child] && fk.joins(p.0, c.0)
      :: ((fk.parent, p), (fk.child, c))
  }

  ghost function KeyOf(t: Table, keys: seq<RowKey>, mapping: map<RowKey, Tid>, tid: Tid): (k: RowKey)
    requires Named(t, keys, mapping) && tid in t
    ensures k in mapping && mapping[k] == tid
  {
    var k :| k in mapping && mapping[k] == tid;
    k
  }

  /** Row id -> logical key. */
  ghost function Naming(db: Database, state: State, locations: map<TableKey, map<RowKey, Tid>>): (f: map<Node, KeyNode>)
    requires Located(db, state, locations)
    ensures f.Keys == AllNodes(db)
    ensures forall n :: n in f ==>
      f[n].0 == n.0 && f[n].1 in locations[n.0] && locations[n.0][f[n].1] == n.1
  {
    map n | n in AllNodes(db) :: (n.0, KeyOf(db[n.0], state[n.0], locations[n.0], n.1))
  }

  lemma NameAt(db: Database, state: State, locations: map<TableKey, map<RowKey, Tid>>, t: TableKey, k: RowKey)
    requires Located(db, state, locations) && t in db && k in state[t]
    ensures k in locations[t] && (t, locations[t][k]) in AllNodes(db)
    ensures Naming(db, state, locations)[(t, locations[t][k])] == (t, k)
  {
    assert Named(db[t], state[t], locations[t]);
    var n: Node := (t, locations[t][k]);
    assert n in AllNodes(db);
    assert Naming(db, state, locations)[n].1 == k;
  }

  /** The marked rows, named by key, are the least closed set over the logical rows. */
  lemma MarkedKeys(db: Database, state: State, locations: map<TableKey, map<RowKey, Tid>>,
                   schema: Schema, table: TableKey, keys: seq<RowKey>, marked: set<Node>)
    requires Fits(db, schema) && Located(db, state, locations) && table in db
    requires forall k :: k in keys ==> k in state[table]
    requires LeastClosed(Incoming(db, schema.foreignKeys),
                         set k | k in keys && k in locations[table] :: (table, locations[table][k]), marked)
    ensures LeastClosed(KeyEdges(state, schema.foreignKeys), set k | k in keys :: (table, k),
                        Image(Naming(db, state, locations), marked))
  {
    var fks, f := schema.foreignKeys, Naming(db, state, locations);
    var seed := set k | k in keys && k in locations[table] :: (table, locations[table][k]);
    EdgesRenamed(db, state, locations, schema);
    SeedRenamed(db, state, locations, table, keys);
    forall k | k in keys ensures (table, locations[table][k]) in f {
      NameAt(db, state, locations, table, k);
    }
    LeastClosedImage(f, Incoming(db, fks), KeyEdges(state, fks), seed, marked);
  }

  lemma SeedRenamed(db: Database, state: State, locations: map<TableKey, map<RowKey, Tid>>,
                    table: TableKey, keys: seq<RowKey>)
    requires Located(db, state, locations) && table in db
    requires forall k :: k in keys ==> k in state[table]
    ensures Image(Naming(db, state, locations),
                  set k | k in keys && k in locations[table] :: (table, locations[table][k]))
            == set k | k in keys :: (table, k)
  {
    var f := Naming(db, state, locations);
    var seed := set k | k in keys && k in locations[table] :: (table, locations[table][k]);
    forall k | k in keys ensures (table, k) in Image(f, seed) {
      NameAt(db, state, locations, table, k);
      assert (table, locations[table][k]) in seed;
    }
    forall m | m in Image(f, seed) ensures m in (set k | k in keys :: (table, k)) {
      SeedNamed(db, state, locations, table, keys, m);
    }
  }

  lemma SeedNamed(db: Database, state: State, locations: map<TableKey, map<RowKey, Tid>>,
                  table: TableKey, keys: seq<RowKey>, m: KeyNode)
    requires Located(db, state, locations) && table in db
    requires forall k :: k in keys ==> k in state[table]
    requires m in Image(Naming(db, state, locations),
                        set k | k in keys && k in locations[table] :: (table, locations[table][k]))
    ensures m.0 == table && m.1 in keys
  {
    var f := Naming(db, state, locations);
    var seed := set k | k in keys && k in locations[table] :: (table, locations[table][k]);
    var n :| n in seed && n in f && f[n] == m;
    var k :| k in keys && k in locations[table] && n == (table, locations[table][k]);
    NameAt(db, state, locations, table, k);
  }

  /** Renaming rows to keys is one to one and turns the physical edges into the logical ones. */
  lemma EdgesRenamed(db: Database, state: State, locations: map<TableKey, map<RowKey, Tid>>, schema: Schema)
    requires Fits(db, schema) && Located(db, state, locations)
    ensures var f, edges := Naming(db, state, locations), Incoming(db, schema.foreignKeys);
            && (forall e :: e in edges ==> e.0 in f && e.1 in f)
            && (forall e :: e in KeyEdges(state, schema.foreignKeys) <==>
                 exists a, b :: (a, b) in edges && e == (f[a], f[b]))
  {
    var fks, f := schema.foreignKeys, Naming(db, state, locations);
    var edges := Incoming(db, fks);
    forall a, b | (a, b) in edges ensures a in f && b in f && (f[a], f[b]) in KeyEdges(state, fks) {
      EdgeNamed(db, state, locations, schema, a, b);
    }
    forall e | e in edges ensures e.0 in f && e.1 in f { assert e == (e.0, e.1); }
    forall e | e in KeyEdges(state, fks) ensures exists a, b :: (a, b) in edges && e == (f[a], f[b]) {
      EdgeLocated(db, state, locations, schema, e);
    }
  }

  lemma EdgeNamed(db: Database, state: State, locations: map<TableKey, map<RowKey, Tid>>,
                  schema: Schema, a: Node, b: Node)
    requires Fits(db, schema) && Located(db, state, locations) && (a, b) in Incoming(db, schema.foreignKeys)
    ensures var f := Naming(db, state, locations);
            a in f && b in f && (f[a], f[b]) in KeyEdges(state, schema.foreignKeys)
  {
    var fks, f := schema.foreignKeys, Naming(db, state, locations);
    var fk, p, c :| fk in fks && p in db[fk.parent] && c in db[fk.child]
      && fk.joins(db[fk.parent][p], db[fk.child][c]) && (a, b) == ((fk.parent, p), (fk.child, c));
    assert a in AllNodes(db) && b in AllNodes(db);
    assert Named(db[fk.parent], state[fk.parent], locations[fk.parent]);
    assert Named(db[fk.child], state[fk.child], locations[fk.child]);
    var pk, ck := f[a].1, f[b].1;
    assert pk in state[fk.parent] && ck in state[fk.child] && fk.joins(pk.0, ck.0);
  }

  lemma EdgeLocated(db: Database, state: State, locations: map<TableKey, map<RowKey, Tid>>,
                    schema: Schema, e: (KeyNode, KeyNode))
    requires Fits(db, schema) && Located(db, state, locations) && e in KeyEdges(state, schema.foreignKeys)
    ensures var f := Naming(db, state, locations);
            exists a, b :: (a, b) in Incoming(db, schema.foreignKeys) && a in f && b in f && e == (f[a], f[b])
  {
    var fks, f := schema.foreignKeys, Naming(db, state, locations);
    var fk, p, c :| fk in fks && p in state[fk.parent] && c in state[fk.child] && fk.joins(p.0, c.0)
      && e == ((fk.parent, p), (fk.child, c));
    NameAt(db, state, locations, fk.parent, p);
    NameAt(db, state, locations, fk.child, c);
    assert Named(db[fk.parent], state[fk.parent], locations[fk.parent]);
    assert Named(db[fk.child], state[fk.child], locations[fk.child]);
    var a: Node, b: Node := (fk.parent, locations[fk.parent][p]), (fk.child, locations[fk.child][c]);
    assert (a, b) in Incoming(db, fks);
  }

  /** The values of the keys outside `gone`. */
  ghost function Kept(keys: seq<RowKey>, gone: set<RowKey>): seq<Value> {
    if keys == [] then [] else (if keys[0] in gone then [] else [keys[0].0]) + Kept(keys[1..], gone)
  }

  lemma NamedTail(t: Table, keys: seq<RowKey>, mapping: map<RowKey, Tid>)
    requires Named(t, keys, mapping) && keys != []
    ensures Named(t - {mapping[keys[0]]}, keys[1..], mapping - {keys[0]})
  {
    var rest := keys[1..];
    forall k ensures k in mapping - {keys[0]} <==> k in rest {
      if k in rest { var i :| 0 <= i < |rest| && rest[i] == k; assert keys[i + 1] == k; }
      if k in keys && k != keys[0] { var i :| 0 <= i < |keys| && keys[i] == k; assert rest[i - 1] == k; }
    }
  }

  lemma {:induction false} RemainingRows(t: Table, keys: seq<RowKey>, mapping: map<RowKey, Tid>,
                                         x: set<Tid>, gone: set<RowKey>)
    requires Named(t, keys, mapping)
    requires forall k :: k in mapping ==> (k in gone <==> mapping[k] in x)
    ensures multiset(Kept(keys, gone)) == Bag(t - x)
    decreases |keys|
  {
    if keys == [] {
      assert t.Keys == {} && (t - x).Keys == {};
    } else {
      var tid := mapping[keys[0]];
      NamedTail(t, keys, mapping);
      RemainingRows(t - {tid}, keys[1..], mapping - {keys[0]}, x, gone);
      BagDrop(t, x, tid);
      KeptStep(keys, gone);
    }
  }

  lemma KeptStep(keys: seq<RowKey>, gone: set<RowKey>)
    requires keys != []
    ensures multiset(Kept(keys, gone)) ==
            (if keys[0] in gone then multiset{} else multiset{keys[0].0}) + multiset(Kept(keys[1..], gone))
  {
  }

  lemma BagDrop(t: Table, x: set<Tid>, tid: Tid)
    requires tid in t
    ensures Bag(t - x) == Bag(t - {tid} - x) + if tid in x then multiset{} else multiset{t[tid]}
  {
    if tid in x {
      assert t - {tid} - x == t - x;
    } else {
      BagRemove(t - x, tid);
      assert t - {tid} - x == t - x - {tid};
    }
  }

  /** Deleting rows adds none: without triggers no table grows. */
  lemma {:induction false} DeletionNeverGrows(t: Table, x: set<Tid>)
    ensures Bag(t - x) <= Bag(t) && |Bag(t - x)| <= |Bag(t)|
    decreases t.Keys
  {
    if tid :| tid in t && tid in x {
      DeletionNeverGrows(t - {tid}, x);
      BagDrop(t, x, tid);
      BagRemove(t, tid);
    } else {
      assert t - x == t;
    }
  }

  lemma RemainingIn(db: Database, state: State, locations: map<TableKey, map<RowKey, Tid>>,
                    marked: map<TableKey, set<Tid>>, t: TableKey, gone: set<KeyNode>)
    requires Located(db, state, locations) && marked.Keys == db.Keys && t in db
    requires forall u :: u in marked ==> marked[u] <= db[u].Keys
    requires gone == Image(Naming(db, state, locations), Marks(marked))
    ensures Bag(Without(db, marked)[t]) ==
            multiset(Kept(state[t], set k | k in state[t] && (t, k) in gone))
  {
    var f := Naming(db, state, locations);
    var here := set k | k in state[t] && (t, k) in gone;
    assert Named(db[t], state[t], locations[t]);
    forall k | k in locations[t] ensures k in here <==> locations[t][k] in marked[t] {
      NameAt(db, state, locations, t, k);
      var n: Node := (t, locations[t][k]);
      assert f[n] == (t, k);
      if n in Marks(marked) {
        assert (t, k) in Image(f, Marks(marked));
      }
      if (t, k) in gone {
        var m :| m in Marks(marked) && m in f && f[m] == (t, k);
        assert m == n;
      }
    }
    RemainingRows(db[t], state[t], locations[t], marked[t], here);
  }

  /** Without triggers, deletion is a function of the state: two databases with equal states,
      in any physical layout, stay equal after deleting the same keys. */
  lemma DeletionIsLogical(a: Database, b: Database, state: State, schema: Schema,
                          la: map<TableKey, map<RowKey, Tid>>, lb: map<TableKey, map<RowKey, Tid>>,
                          table: TableKey, keys: seq<RowKey>,
                          ma: map<TableKey, set<Tid>>, mb: map<TableKey, set<Tid>>, t: TableKey)
    requires Fits(a, schema) && Fits(b, schema) && Located(a, state, la) && Located(b, state, lb)
    requires table in schema.tables && t in schema.tables
    requires ma.Keys == mb.Keys == schema.tables
    requires forall u :: u in schema.tables ==> ma[u] <= a[u].Keys && mb[u] <= b[u].Keys
    requires forall k :: k in keys ==> k in state[table]
    requires LeastClosed(Incoming(a, schema.foreignKeys),
                         set k | k in keys && k in la[table] :: (table, la[table][k]), Marks(ma))
    requires LeastClosed(Incoming(b, schema.foreignKeys),
                         set k | k in keys && k in lb[table] :: (table, lb[table][k]), Marks(mb))
    ensures Bag(Without(a, ma)[t]) == Bag(Without(b, mb)[t])
  {
    MarkedKeys(a, state, la, schema, table, keys, Marks(ma));
    MarkedKeys(b, state, lb, schema, table, keys, Marks(mb));
    var gone := Image(Naming(a, state, la), Marks(ma));
    LeastClosedUnique(KeyEdges(state, schema.foreignKeys), set k | k in keys :: (table, k),
                      gone, Image(Naming(b, state, lb), Marks(mb)));
    RemainingIn(a, state, la, ma, t, gone);
    RemainingIn(b, state, lb, mb, t, gone);
  }
}
