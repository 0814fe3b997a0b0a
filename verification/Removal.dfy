/** Which archive entries go when tables go, and the list that leaves them out
    (postgres/schema_reduction.py, `removal_ids` and `selected_list`). */
module Removal {
  import opened Ordering
  import opened Reachability
  import opened TocFields

  /** A catalog object: the catalog it is in and its oid. */
  type ObjectId = (int, int)

  datatype Kind = Table | Comment | Sequence | SequenceSet | SequenceOwnedBy | OtherKind

  datatype SchemaObject = SchemaObject(dumpId: int, catalogOid: int, objectOid: int,
                                       kind: Kind, identity: Bytes)

  /** The catalog queries: the two catalog oids, the foreign keys with the table each one
      points at, and the automatic and internal dependencies (dependent, referenced). */
  datatype Catalog = Catalog(classOid: int, constraintOid: int,
                             foreignKeys: set<(int, int)>, depends: seq<(ObjectId, ObjectId)>)

  /** Table -> (oid, row count). */
  type Tables = map<TableKey, (int, int)>

  const TABLE: Bytes := [84, 65, 66, 76, 69]
  const COLUMN: Bytes := [67, 79, 76, 85, 77, 78]
  const DOT: Bytes := [46]

  function Oids(tables: Tables, removed: set<TableKey>): set<int> {
    set k | k in removed && k in tables :: tables[k].0
  }

  /** The tables and the foreign keys that point at them. */
  function Seed(cat: Catalog, oids: set<int>): set<ObjectId> {
    (set oid | oid in oids :: (cat.classOid, oid)) +
    (set fk | fk in cat.foreignKeys && fk.1 in oids :: (cat.constraintOid, fk.0))
  }

  /** Referenced -> dependent. */
  ghost function DependentEdges(cat: Catalog): set<(ObjectId, ObjectId)> {
    set d | d in cat.depends :: (d.1, d.0)
  }

  /** Entries whose catalog object is removed. */
  predicate Hit(cat: Catalog, o: SchemaObject, removed: set<ObjectId>) {
    || (o.catalogOid, o.objectOid) in removed
    || (o.catalogOid == 0 && (cat.classOid, o.objectOid) in removed)
  }

  function Names(objects: seq<SchemaObject>, oids: set<int>): set<(Bytes, Bytes)> {
    set o | o in objects && o.kind.Table? && o.objectOid in oids && |Fields(o.identity)| >= 2
      :: (Fields(o.identity)[0], Fields(o.identity)[1])
  }

  /** A comment on the table `name` or on one of its columns. */
  predicate CommentsOn(o: SchemaObject, name: (Bytes, Bytes)) {
    var fields := Fields(o.identity);
    && o.kind.Comment? && |fields| >= 3 && (fields[1] == TABLE || fields[1] == COLUMN)
    && fields[0] == name.0 && (fields[2] == name.1 || name.1 + DOT <= fields[2])
  }

  predicate SequenceDetail(o: SchemaObject) {
    o.kind.SequenceSet? || o.kind.SequenceOwnedBy?
  }

  function Hits(cat: Catalog, objects: seq<SchemaObject>, removed: set<ObjectId>): set<int> {
    set o | o in objects && Hit(cat, o, removed) :: o.dumpId
  }

  function CommentHits(objects: seq<SchemaObject>, names: set<(Bytes, Bytes)>): set<int> {
    set o | o in objects && (exists n :: n in names && CommentsOn(o, n)) :: o.dumpId
  }

  ghost function WithComments(cat: Catalog, objects: seq<SchemaObject>, oids: set<int>): set<int> {
    Hits(cat, objects, ReachableFrom(DependentEdges(cat), Seed(cat, oids))) +
    CommentHits(objects, Names(objects, oids))
  }

  function RemovedSequences(objects: seq<SchemaObject>, excluded: set<int>): set<Bytes> {
    set o | o in objects && o.kind.Sequence? && o.dumpId in excluded :: o.identity
  }

  function WithSequences(objects: seq<SchemaObject>, excluded: set<int>): set<int> {
    excluded +
    set o | o in objects && SequenceDetail(o) && o.identity in RemovedSequences(objects, excluded) :: o.dumpId
  }

  /** The archive entries that go with the tables `removed`. */
  ghost function RemovalIds(cat: Catalog, objects: seq<SchemaObject>, removed: set<TableKey>,
                            tables: Tables): set<int> {
    WithSequences(objects, WithComments(cat, objects, Oids(tables, removed)))
  }

  // ---- which entries those are ----

  /** Each object of the path depends, automatically or internally, on the one before. */
  ghost predicate DependsAlong(cat: Catalog, path: seq<ObjectId>) {
    path != [] && forall i :: 0 < i < |path| ==> (path[i], path[i - 1]) in cat.depends
  }

  /** A removed table, or a foreign key that points at one. */
  ghost predicate Root(cat: Catalog, removed: set<TableKey>, tables: Tables, x: ObjectId) {
    exists k :: k in removed && k in tables &&
      (x == (cat.classOid, tables[k].0) || (x.0 == cat.constraintOid && (x.1, tables[k].0) in cat.foreignKeys))
  }

  /** Such an object, or one that depends on it over any number of steps. */
  ghost predicate Goes(cat: Catalog, removed: set<TableKey>, tables: Tables, x: ObjectId) {
    exists path :: DependsAlong(cat, path) && Root(cat, removed, tables, path[0]) && path[|path| - 1] == x
  }

  /** The entry is of such an object; without a catalog it is in pg_class. */
  ghost predicate OfGone(cat: Catalog, removed: set<TableKey>, tables: Tables, o: SchemaObject) {
    || Goes(cat, removed, tables, (o.catalogOid, o.objectOid))
    || (o.catalogOid == 0 && Goes(cat, removed, tables, (cat.classOid, o.objectOid)))
  }

  /** The entry `t` is of a removed table and names it by its first two fields. */
  ghost predicate NamesRemoved(removed: set<TableKey>, tables: Tables, t: SchemaObject, fields: seq<Bytes>) {
    && t.kind == Table && fields == Fields(t.identity) && |fields| >= 2
    && exists k :: k in removed && k in tables && tables[k].0 == t.objectOid
  }

  /** The entry is a comment: schema, "TABLE" or "COLUMN", and the name of a removed table, or
      that name, a dot and a column. */
  ghost predicate CommentOnRemoved(objects: seq<SchemaObject>, removed: set<TableKey>, tables: Tables,
                                   o: SchemaObject) {
    var f := Fields(o.identity);
    && o.kind == Comment && |f| >= 3 && (f[1] == [84, 65, 66, 76, 69] || f[1] == [67, 79, 76, 85, 77, 78])
    && exists t, name :: t in objects && NamesRemoved(removed, tables, t, name)
         && f[0] == name[0] && (f[2] == name[1] || name[1] + [46] <= f[2])
  }

  ghost predicate Direct(cat: Catalog, objects: seq<SchemaObject>, removed: set<TableKey>, tables: Tables,
                         o: SchemaObject)
  {
    OfGone(cat, removed, tables, o) || CommentOnRemoved(objects, removed, tables, o)
  }

  /** The entry is the value or the owner of a sequence that goes. */
  ghost predicate OfGoneSequence(cat: Catalog, objects: seq<SchemaObject>, removed: set<TableKey>, tables: Tables,
                                 o: SchemaObject)
  {
    && (o.kind == SequenceSet || o.kind == SequenceOwnedBy)
    && exists q, d :: q in objects && d in objects && q.kind == Sequence && q.identity == o.identity
         && q.dumpId == d.dumpId && Direct(cat, objects, removed, tables, d)
  }

  /** An entry goes if it is of an object that goes, comments on a removed table, or belongs
      to a sequence that goes; and only then. */
  ghost predicate Removable(cat: Catalog, objects: seq<SchemaObject>, removed: set<TableKey>, tables: Tables, id: int) {
    exists o :: o in objects && o.dumpId == id &&
      (Direct(cat, objects, removed, tables, o) || OfGoneSequence(cat, objects, removed, tables, o))
  }

  lemma SeedIsRoots(cat: Catalog, removed: set<TableKey>, tables: Tables, x: ObjectId)
    ensures x in Seed(cat, Oids(tables, removed)) <==> Root(cat, removed, tables, x)
  {
    var oids := Oids(tables, removed);
    var own := set oid | oid in oids :: (cat.classOid, oid);
    if Root(cat, removed, tables, x) && x !in own {
      var k :| k in removed && k in tables &&
        (x == (cat.classOid, tables[k].0) || (x.0 == cat.constraintOid && (x.1, tables[k].0) in cat.foreignKeys));
      var oid := tables[k].0;
      assert oid in oids && (cat.classOid, oid) in own;
      var fk := (x.1, oid);
      assert fk in cat.foreignKeys && fk.1 in oids && x == (cat.constraintOid, fk.0);
    }
    if x in Seed(cat, oids) && x !in own {
      var fk :| fk in cat.foreignKeys && fk.1 in oids && x == (cat.constraintOid, fk.0);
      var k :| k in removed && k in tables && tables[k].0 == fk.1;
      assert (x.1, tables[k].0) == fk;
    }
  }

  lemma PathIsDependence(cat: Catalog, path: seq<ObjectId>)
    ensures IsPath(DependentEdges(cat), path) <==> DependsAlong(cat, path)
  {
    forall i | 0 < i < |path|
      ensures (path[i - 1], path[i]) in DependentEdges(cat) <==> (path[i], path[i - 1]) in cat.depends
    {
      var e := (path[i - 1], path[i]);
      if e in DependentEdges(cat) {
        var d :| d in cat.depends && e == (d.1, d.0);
        assert d == (d.0, d.1);
      }
      if (path[i], path[i - 1]) in cat.depends {
        var d := (path[i], path[i - 1]);
        assert e == (d.1, d.0);
      }
    }
  }

  lemma ClosureIsGoes(cat: Catalog, removed: set<TableKey>, tables: Tables, x: ObjectId)
    ensures x in ReachableFrom(DependentEdges(cat), Seed(cat, Oids(tables, removed))) <==> Goes(cat, removed, tables, x)
  {
    var edges, seed := DependentEdges(cat), Seed(cat, Oids(tables, removed));
    ReachableIsLeast(edges, seed);
    LeastClosedIsReachable(edges, seed, ReachableFrom(edges, seed), x);
    if Goes(cat, removed, tables, x) {
      var path :| DependsAlong(cat, path) && Root(cat, removed, tables, path[0]) && path[|path| - 1] == x;
      PathIsDependence(cat, path);
      SeedIsRoots(cat, removed, tables, path[0]);
      assert Reaches(edges, path[0], x);
    }
    if a :| a in seed && Reaches(edges, a, x) {
      var path :| IsPath(edges, path) && path[0] == a && path[|path| - 1] == x;
      PathIsDependence(cat, path);
      SeedIsRoots(cat, removed, tables, a);
    }
  }

  lemma HitsAre(cat: Catalog, objects: seq<SchemaObject>, removed: set<TableKey>, tables: Tables, id: int)
    ensures id in Hits(cat, objects, ReachableFrom(DependentEdges(cat), Seed(cat, Oids(tables, removed))))
            <==> exists o :: o in objects && o.dumpId == id && OfGone(cat, removed, tables, o)
  {
    forall x
      ensures x in ReachableFrom(DependentEdges(cat), Seed(cat, Oids(tables, removed)))
              <==> Goes(cat, removed, tables, x)
    {
      ClosureIsGoes(cat, removed, tables, x);
    }
    hide ReachableFrom, Seed, Oids, Goes, DependentEdges;
  }

  lemma CommentHitsAre(objects: seq<SchemaObject>, removed: set<TableKey>, tables: Tables, id: int)
    ensures id in CommentHits(objects, Names(objects, Oids(tables, removed)))
            <==> exists o :: o in objects && o.dumpId == id && CommentOnRemoved(objects, removed, tables, o)
  {
    forall o | o in objects
      ensures (exists n :: n in Names(objects, Oids(tables, removed)) && CommentsOn(o, n))
              <==> CommentOnRemoved(objects, removed, tables, o)
    {
      CommentIs(objects, removed, tables, o);
    }
    hide Names, CommentsOn, CommentOnRemoved;
  }

  lemma CommentIs(objects: seq<SchemaObject>, removed: set<TableKey>, tables: Tables, o: SchemaObject)
    ensures (exists n :: n in Names(objects, Oids(tables, removed)) && CommentsOn(o, n))
            <==> CommentOnRemoved(objects, removed, tables, o)
  {
    if n :| n in Names(objects, Oids(tables, removed)) && CommentsOn(o, n) {
      var t :| t in objects && t.kind.Table? && t.objectOid in Oids(tables, removed) && |Fields(t.identity)| >= 2
        && n == (Fields(t.identity)[0], Fields(t.identity)[1]);
      assert NamesRemoved(removed, tables, t, Fields(t.identity));
    }
    if CommentOnRemoved(objects, removed, tables, o) {
      var f := Fields(o.identity);
      var t, name :| t in objects && NamesRemoved(removed, tables, t, name)
        && f[0] == name[0] && (f[2] == name[1] || name[1] + [46] <= f[2]);
      assert t.objectOid in Oids(tables, removed);
      var n := (name[0], name[1]);
      assert n in Names(objects, Oids(tables, removed)) && CommentsOn(o, n);
    }
  }

  /** The removal ids are exactly those of the entries that go. */
  lemma RemovalExact(cat: Catalog, objects: seq<SchemaObject>, removed: set<TableKey>, tables: Tables, id: int)
    ensures id in RemovalIds(cat, objects, removed, tables) <==> Removable(cat, objects, removed, tables, id)
  {
    var direct := WithComments(cat, objects, Oids(tables, removed));
    forall x
      ensures x in direct <==> exists o :: o in objects && o.dumpId == x && Direct(cat, objects, removed, tables, o)
    {
      HitsAre(cat, objects, removed, tables, x);
      CommentHitsAre(objects, removed, tables, x);
    }
    hide OfGone, CommentOnRemoved, WithComments, Oids;
    SequencesAre(cat, objects, removed, tables, direct, id);
  }

  lemma AllRemovalExact(cat: Catalog, objects: seq<SchemaObject>, removed: set<TableKey>, tables: Tables)
    ensures forall id :: id in RemovalIds(cat, objects, removed, tables) <==>
      Removable(cat, objects, removed, tables, id)
  {
    hide RemovalIds, Removable;
    forall id
      ensures id in RemovalIds(cat, objects, removed, tables) <==> Removable(cat, objects, removed, tables, id)
    {
      RemovalExact(cat, objects, removed, tables, id);
    }
  }

  lemma SequencesAre(cat: Catalog, objects: seq<SchemaObject>, removed: set<TableKey>, tables: Tables,
                     direct: set<int>, id: int)
    requires forall x :: x in direct <==>
      exists o :: o in objects && o.dumpId == x && Direct(cat, objects, removed, tables, o)
    ensures id in WithSequences(objects, direct) <==> Removable(cat, objects, removed, tables, id)
  {
    hide Direct;
    forall o: SchemaObject ensures o.kind.SequenceSet? || o.kind.SequenceOwnedBy? ==>
      (o.identity in RemovedSequences(objects, direct) <==> OfGoneSequence(cat, objects, removed, tables, o))
    {
      if o.identity in RemovedSequences(objects, direct) {
        var q :| q in objects && q.kind.Sequence? && q.dumpId in direct && q.identity == o.identity;
        var d :| d in objects && d.dumpId == q.dumpId && Direct(cat, objects, removed, tables, d);
      }
    }
  }

  // ---- removing tables together is removing each ----

  lemma SeedUnion(cat: Catalog, s: set<int>, t: set<int>)
    ensures Seed(cat, s + t) == Seed(cat, s) + Seed(cat, t)
  {
    forall x | x in Seed(cat, s + t) ensures x in Seed(cat, s) + Seed(cat, t) {
      if x in (set oid | oid in s + t :: (cat.classOid, oid)) {
        var oid :| oid in s + t && x == (cat.classOid, oid);
      } else {
        var fk :| fk in cat.foreignKeys && fk.1 in s + t && x == (cat.constraintOid, fk.0);
      }
    }
  }

  lemma HitsUnion(cat: Catalog, objects: seq<SchemaObject>, s: set<ObjectId>, t: set<ObjectId>)
    ensures Hits(cat, objects, s + t) == Hits(cat, objects, s) + Hits(cat, objects, t)
  {
  }

  lemma CommentHitsUnion(objects: seq<SchemaObject>, s: set<(Bytes, Bytes)>, t: set<(Bytes, Bytes)>)
    ensures CommentHits(objects, s + t) == CommentHits(objects, s) + CommentHits(objects, t)
  {
  }

  lemma WithCommentsUnion(cat: Catalog, objects: seq<SchemaObject>, s: set<int>, t: set<int>)
    ensures WithComments(cat, objects, s + t) == WithComments(cat, objects, s) + WithComments(cat, objects, t)
  {
    var edges := DependentEdges(cat);
    SeedUnion(cat, s, t);
    ReachableUnion(edges, Seed(cat, s), Seed(cat, t));
    HitsUnion(cat, objects, ReachableFrom(edges, Seed(cat, s)), ReachableFrom(edges, Seed(cat, t)));
    assert Names(objects, s + t) == Names(objects, s) + Names(objects, t);
    CommentHitsUnion(objects, Names(objects, s), Names(objects, t));
  }

  lemma WithSequencesUnion(objects: seq<SchemaObject>, s: set<int>, t: set<int>)
    ensures WithSequences(objects, s + t) == WithSequences(objects, s) + WithSequences(objects, t)
  {
    assert RemovedSequences(objects, s + t) == RemovedSequences(objects, s) + RemovedSequences(objects, t);
  }

  /** Removing two sets of tables removes exactly what removing each removes: through the
      dependency closure, the comments and the owned sequences. */
  lemma RemovalUnion(cat: Catalog, objects: seq<SchemaObject>, a: set<TableKey>, b: set<TableKey>, tables: Tables)
    ensures RemovalIds(cat, objects, a + b, tables) ==
            RemovalIds(cat, objects, a, tables) + RemovalIds(cat, objects, b, tables)
  {
    assert Oids(tables, a + b) == Oids(tables, a) + Oids(tables, b);
    WithCommentsUnion(cat, objects, Oids(tables, a), Oids(tables, b));
    WithSequencesUnion(objects, WithComments(cat, objects, Oids(tables, a)),
                       WithComments(cat, objects, Oids(tables, b)));
  }

  lemma RemovalOfNothing(cat: Catalog, objects: seq<SchemaObject>, tables: Tables)
    ensures RemovalIds(cat, objects, {}, tables) == {}
  {
    assert Seed(cat, {}) == {} && Oids(tables, {}) == {};
    assert ReachableFrom(DependentEdges(cat), {}) == {};
    assert Names(objects, {}) == {} && WithComments(cat, objects, {}) == {};
  }

  // ---- the imperative computation ----

  /** Where the worklist stands: what is removed is reachable, and closed but for what pends. */
  ghost predicate Working(edges: set<(ObjectId, ObjectId)>, start: set<ObjectId>, removed: set<ObjectId>,
                          pending: seq<ObjectId>) {
    && start <= removed <= start + Ends(edges)
    && (forall x :: x in pending ==> x in removed)
    && (forall d: set<ObjectId> :: start <= d && Closed(edges, d) ==> removed <= d)
  }

  /** The worklist loop. */
  method CloseDependents(cat: Catalog, seed: seq<ObjectId>) returns (removed: set<ObjectId>)
    ensures removed == ReachableFrom(DependentEdges(cat), set x | x in seed)
  {
    ghost var edges := DependentEdges(cat);
    ghost var start := set x | x in seed;
    removed := set x | x in seed;
    var pending := seed;
    while pending != []
      invariant Working(edges, start, removed, pending)
      invariant forall e :: e in edges && e.0 in removed ==> e.1 in removed || e.0 in pending
      decreases start + Ends(edges) - removed, |pending|
    {
      ghost var before, entry := removed, pending;
      assert pending == [pending[0]] + pending[1..];
      removed, pending := AddDependents(cat, pending[0], removed, pending[1..], start);
      forall e | e in edges && e.0 in removed ensures e.1 in removed || e.0 in pending {
        if e.0 in before && e.0 in entry { assert e.0 == entry[0] || e.0 in entry[1..]; }
      }
    }
    ReachableIsLeast(edges, start);
    LeastClosedUnique(edges, start, removed, ReachableFrom(edges, start));
  }

  /** `for dependent in dependents.get(current, ())` */
  method AddDependents(cat: Catalog, current: ObjectId, before: set<ObjectId>, rest: seq<ObjectId>,
                       ghost start: set<ObjectId>)
    returns (removed: set<ObjectId>, pending: seq<ObjectId>)
    requires Working(DependentEdges(cat), start, before, rest) && current in before
    ensures Working(DependentEdges(cat), start, removed, pending) && before <= removed
    ensures removed == before ==> pending == rest
    ensures forall x :: x in rest ==> x in pending
    ensures forall x :: x in removed && x !in before ==> x in pending
    ensures forall e :: e in DependentEdges(cat) && e.0 == current ==> e.1 in removed
  {
    ghost var edges := DependentEdges(cat);
    removed, pending := before, rest;
    for i := 0 to |cat.depends|
      invariant Working(edges, start, removed, pending) && before <= removed
      invariant removed == before ==> pending == rest
      invariant forall x :: x in rest ==> x in pending
      invariant forall x :: x in removed && x !in before ==> x in pending
      invariant forall j :: 0 <= j < i && cat.depends[j].1 == current ==> cat.depends[j].0 in removed
    {
      var dependent := cat.depends[i].0;
      if cat.depends[i].1 == current && dependent !in removed {
        var e := (cat.depends[i].1, dependent);
        assert e in edges && e.0 in removed;
        removed := removed + {dependent};
        pending := pending + [dependent];
      }
    }
    forall e | e in edges && e.0 == current ensures e.1 in removed {
      var d :| d in cat.depends && e == (d.1, d.0);
    }
  }

  /** `removal_ids` */
  method ComputeRemovalIds(cat: Catalog, objects: seq<SchemaObject>, removedTables: set<TableKey>, tables: Tables)
    returns (excluded: set<int>)
    requires removedTables <= tables.Keys
    ensures excluded == RemovalIds(cat, objects, removedTables, tables)
    ensures forall id :: id in excluded <==> Removable(cat, objects, removedTables, tables, id)
  {
    hide Removable, ReachableFrom, Names, DependentEdges, Hits, CommentHits, WithSequences;
    AllRemovalExact(cat, objects, removedTables, tables);
    var oids := Oids(tables, removedTables);
    var seed := Seed(cat, oids);
    var start := Listed(seed);
    var removed := CloseDependents(cat, start);
    assert (set x | x in start) == seed;
    excluded := Hits(cat, objects, removed);
    excluded := excluded + CommentHits(objects, Names(objects, oids));
    excluded := WithSequences(objects, excluded);
  }

  function UnionOf(idsByTable: map<TableKey, set<int>>, group: set<TableKey>): set<int> {
    set k, x | k in group && k in idsByTable && x in idsByTable[k] :: x
  }

  lemma UnionOfAdd(idsByTable: map<TableKey, set<int>>, group: set<TableKey>, k: TableKey)
    requires k in idsByTable
    ensures UnionOf(idsByTable, group + {k}) == UnionOf(idsByTable, group) + idsByTable[k]
  {
    forall x ensures x in UnionOf(idsByTable, group + {k}) <==> x in UnionOf(idsByTable, group) + idsByTable[k] {
      if x in UnionOf(idsByTable, group + {k}) {
        var j :| j in group + {k} && j in idsByTable && x in idsByTable[j];
        assert j == k || j in group;
      }
      if x in UnionOf(idsByTable, group) {
        var j :| j in group && j in idsByTable && x in idsByTable[j];
        assert j in group + {k};
      }
      if x in idsByTable[k] { assert k in group + {k}; }
    }
  }

  /** `set().union(*(ids_by_table[key] for key in removed_tables))` */
  method JoinIds(idsByTable: map<TableKey, set<int>>, group: set<TableKey>) returns (excluded: set<int>)
    requires group <= idsByTable.Keys
    ensures excluded == UnionOf(idsByTable, group)
  {
    excluded := {};
    var rest := group;
    while rest != {}
      invariant rest <= group
      invariant excluded == UnionOf(idsByTable, group - rest)
    {
      var k :| k in rest;
      assert (group - rest) + {k} == group - (rest - {k});
      UnionOfAdd(idsByTable, group - rest, k);
      excluded := excluded + idsByTable[k];
      rest := rest - {k};
    }
    assert group - {} == group;
  }

  ghost predicate UnionHomomorphism(f: set<TableKey> -> set<int>) {
    f({}) == {} && forall a, b :: f(a + b) == f(a) + f(b)
  }

  lemma {:induction false} HomomorphismFromSingletons(f: set<TableKey> -> set<int>,
                                                      idsByTable: map<TableKey, set<int>>, group: set<TableKey>)
    requires UnionHomomorphism(f) && group <= idsByTable.Keys
    requires forall k :: k in idsByTable ==> idsByTable[k] == f({k})
    ensures UnionOf(idsByTable, group) == f(group)
    decreases group
  {
    if group != {} {
      var k :| k in group;
      var rest := group - {k};
      HomomorphismFromSingletons(f, idsByTable, rest);
      UnionOfAdd(idsByTable, rest, k);
      assert rest + {k} == group;
      assert f(rest + {k}) == f(rest) + f({k});
    }
  }

  /** The joined per-table results are the removal of the whole group, so a closure computed
      once per table serves every group. */
  lemma JoinedIsRemoval(idsByTable: map<TableKey, set<int>>, group: set<TableKey>,
                        cat: Catalog, objects: seq<SchemaObject>, tables: Tables)
    requires group <= idsByTable.Keys
    requires forall k :: k in idsByTable ==> idsByTable[k] == RemovalIds(cat, objects, {k}, tables)
    ensures UnionOf(idsByTable, group) == RemovalIds(cat, objects, group, tables)
  {
    var f := (s: set<TableKey>) => RemovalIds(cat, objects, s, tables);
    assert UnionHomomorphism(f) by {
      RemovalOfNothing(cat, objects, tables);
      forall a, b ensures f(a + b) == f(a) + f(b) { RemovalUnion(cat, objects, a, b, tables); }
    }
    HomomorphismFromSingletons(f, idsByTable, group);
  }

  // ---- the list file ----

  const SEMICOLON: byte := 59

  predicate Digit(c: byte) {
    48 <= c <= 57
  }

  /** Leading digits of a line. */
  function DigitRun(line: Bytes): (n: nat)
    ensures n <= |line|
  {
    if line != [] && Digit(line[0]) then 1 + DigitRun(line[1..]) else 0
  }

  function Number(digits: Bytes): nat
    requires forall i :: 0 <= i < |digits| ==> Digit(digits[i])
  {
    if digits == [] then 0
    else
      assert Digit(digits[|digits| - 1]);
      10 * Number(digits[..|digits| - 1]) + (digits[|digits| - 1] as int - 48)
  }

  lemma DigitRunDigits(line: Bytes)
    ensures forall i :: 0 <= i < DigitRun(line) ==> Digit(line[i])
  {
  }

  /** What follows one number and the text `after` it, if the line starts that way. */
  function AfterNumber(line: Bytes, after: Bytes): (rest: Bytes)
    ensures |rest| <= |line|
  {
    var n := DigitRun(line);
    if n > 0 && after <= line[n..] then line[n + |after|..] else []
  }

  /** `(\d+); (\d+) (\d+) (.+)`: an entry of the listing. */
  predicate IsEntry(line: Bytes) {
    AfterNumber(AfterNumber(AfterNumber(line, [SEMICOLON, SPACE]), [SPACE]), [SPACE]) != []
  }

  function EntryId(line: Bytes): nat
    requires IsEntry(line)
  {
    DigitRunDigits(line);
    Number(line[..DigitRun(line)])
  }

  // ---- what an entry of the listing looks like ----

  ghost predicate Digits(text: Bytes) {
    text != [] && forall i :: 0 <= i < |text| ==> 48 <= text[i] <= 57
  }

  /** Three numbers, a semicolon after the first, and something more. */
  ghost predicate EntryText(line: Bytes, id: Bytes, catalogOid: Bytes, objectOid: Bytes, detail: Bytes) {
    && Digits(id) && Digits(catalogOid) && Digits(objectOid) && detail != []
    && line == id + [59, 32] + catalogOid + [32] + objectOid + [32] + detail
  }

  /** The decimal digits of a number. */
  function Decimal(n: nat): (text: Bytes)
    ensures text != [] && forall i :: 0 <= i < |text| ==> Digit(text[i])
  {
    if n < 10 then [48 + n] else Decimal(n / 10) + [48 + n % 10]
  }

  /** Reading a number undoes writing it; zeros before it do not count. */
  lemma {:induction false} NumberOfDecimal(n: nat)
    ensures Number(Decimal(n)) == n
  {
    if n >= 10 {
      NumberOfDecimal(n / 10);
      assert Decimal(n)[..|Decimal(n)| - 1] == Decimal(n / 10);
    } else {
      assert Decimal(n)[..0] == [];
    }
  }

  lemma {:induction false} LeadingZero(text: Bytes)
    requires forall i :: 0 <= i < |text| ==> Digit(text[i])
    ensures Number([48] + text) == Number(text)
  {
    if text == [] {
      assert [48] + text == [48] && [48][..0] == [];
      assert Number([48]) == 10 * Number([]);
    } else {
      var n := |text| - 1;
      LeadingZero(text[..n]);
      assert ([48] + text)[..n + 1] == [48] + text[..n];
    }
  }

  lemma {:induction false} RunIs(text: Bytes, rest: Bytes)
    requires Digits(text) && (rest == [] || !Digit(rest[0]))
    ensures DigitRun(text + rest) == |text|
  {
    if |text| == 1 {
      assert (text + rest)[1..] == rest;
    } else {
      assert (text + rest)[1..] == text[1..] + rest;
      RunIs(text[1..], rest);
    }
  }

  lemma AfterText(text: Bytes, after: Bytes, rest: Bytes)
    requires Digits(text) && after != [] && !Digit(after[0])
    ensures AfterNumber(text + (after + rest), after) == rest && DigitRun(text + (after + rest)) == |text|
  {
    RunIs(text, after + rest);
    assert (text + (after + rest))[|text|..] == after + rest;
  }

  lemma TextBefore(line: Bytes, after: Bytes) returns (text: Bytes)
    requires AfterNumber(line, after) != []
    ensures Digits(text) && line == text + (after + AfterNumber(line, after)) && text == line[..DigitRun(line)]
  {
    var n := DigitRun(line);
    text := line[..n];
    DigitRunDigits(line);
    assert line == text + line[n..] && line[n..] == after + line[n..][|after|..];
    assert line[n..][|after|..] == line[n + |after|..];
  }

  lemma EntryHasText(line: Bytes) returns (a: Bytes, b: Bytes, c: Bytes, d: Bytes)
    requires IsEntry(line)
    ensures EntryText(line, a, b, c, d)
  {
    var rest := AfterNumber(line, [SEMICOLON, SPACE]);
    var last := AfterNumber(rest, [SPACE]);
    AfterNothing([SPACE]);
    a := TextBefore(line, [SEMICOLON, SPACE]);
    b := TextBefore(rest, [SPACE]);
    c := TextBefore(last, [SPACE]);
    d := AfterNumber(last, [SPACE]);
    hide AfterNumber, DigitRun;
    assert line == a + ([59, 32] + (b + ([32] + (c + ([32] + d)))));
    Regrouped(a, b, c, d);
  }

  lemma Regrouped(a: Bytes, b: Bytes, c: Bytes, d: Bytes)
    ensures a + ([59, 32] + (b + ([32] + (c + ([32] + d))))) == a + [59, 32] + b + [32] + c + [32] + d
  {
  }

  lemma AfterNothing(after: Bytes)
    ensures AfterNumber([], after) == []
  {
  }

  lemma EntryIdIs(line: Bytes, a: Bytes, b: Bytes, c: Bytes, d: Bytes)
    requires EntryText(line, a, b, c, d)
    ensures IsEntry(line) && EntryId(line) == Number(a)
  {
    var last := c + ([SPACE] + d);
    var rest := b + ([SPACE] + last);
    Regrouped(a, b, c, d);
    AfterText(a, [SEMICOLON, SPACE], rest);
    AfterText(b, [SPACE], last);
    AfterText(c, [SPACE], d);
    assert line[..|a|] == a;
  }

  /** The line is an entry whose id, in decimal, is among the excluded ones. */
  ghost predicate Excluded(line: Bytes, excluded: set<int>) {
    exists n: nat, zeros, b, c, d :: n in excluded && Zeros(zeros) && EntryText(line, zeros + Decimal(n), b, c, d)
  }

  ghost predicate Zeros(text: Bytes) {
    forall i :: 0 <= i < |text| ==> text[i] == 48
  }

  predicate Selected(line: Bytes, excluded: set<int>) {
    IsEntry(line) && EntryId(line) in excluded
  }

  /** Every number is written as zeros and its decimal digits. */
  lemma {:induction false} DecimalForm(text: Bytes) returns (zeros: Bytes)
    requires Digits(text)
    ensures Zeros(zeros) && text == zeros + Decimal(Number(text))
  {
    var n := |text| - 1;
    var high := Number(text[..n]);
    DecimalLast(high, text[n] as int - 48);
    assert Number(text) == 10 * high + (text[n] as int - 48);
    hide Number, Decimal;
    assert text == text[..n] + [text[n]];
    if n == 0 {
      zeros := [];
    } else {
      zeros := DecimalForm(text[..n]);
      if high == 0 {
        DecimalZero();
        zeros := text[..n];
      }
    }
  }

  lemma DecimalLast(high: nat, last: nat)
    requires last < 10
    ensures Decimal(10 * high + last) == (if high == 0 then [] else Decimal(high)) + [48 + last]
  {
    assert (10 * high + last) / 10 == high && (10 * high + last) % 10 == last;
  }

  lemma DecimalZero()
    ensures Decimal(0) == [48] && Number([]) == 0
  {
  }

  lemma {:induction false} NumberOfZeros(zeros: Bytes, text: Bytes)
    requires Zeros(zeros) && forall i :: 0 <= i < |text| ==> Digit(text[i])
    ensures Number(zeros + text) == Number(text)
  {
    if zeros == [] {
      assert zeros + text == text;
    } else {
      NumberOfZeros(zeros[1..], text);
      LeadingZero(zeros[1..] + text);
      assert zeros + text == [48] + (zeros[1..] + text);
    }
  }

  /** The lines commented out are the entries whose id, in decimal, is excluded. */
  lemma SelectedIff(line: Bytes, excluded: set<int>)
    ensures Selected(line, excluded) <==> Excluded(line, excluded)
  {
    if Selected(line, excluded) {
      var a, b, c, d := EntryHasText(line);
      EntryIdIs(line, a, b, c, d);
      var zeros := DecimalForm(a);
      assert EntryText(line, zeros + Decimal(Number(a)), b, c, d);
    }
    if Excluded(line, excluded) {
      var n: nat, zeros, b, c, d :|
        n in excluded && Zeros(zeros) && EntryText(line, zeros + Decimal(n), b, c, d);
      EntryIdIs(line, zeros + Decimal(n), b, c, d);
      NumberOfZeros(zeros, Decimal(n));
      NumberOfDecimal(n);
    }
  }

  /** What pg_restore will restore: the entries of a list, in order, without commented lines. */
  function Entries(lines: seq<Bytes>): seq<(nat, Bytes)> {
    if lines == [] then []
    else (if IsEntry(lines[0]) then [(EntryId(lines[0]), lines[0])] else []) + Entries(lines[1..])
  }

  function Kept(entries: seq<(nat, Bytes)>, excluded: set<int>): seq<(nat, Bytes)> {
    if entries == [] then []
    else (if entries[0].0 in excluded then [] else [entries[0]]) + Kept(entries[1..], excluded)
  }

  /** Every line, commented out if it is an excluded entry. */
  function SelectedLines(toc: seq<Bytes>, excluded: set<int>): (lines: seq<Bytes>)
    ensures |lines| == |toc|
  {
    seq(|toc|, i requires 0 <= i < |toc| => if Selected(toc[i], excluded) then [SEMICOLON] + toc[i] else toc[i])
  }

  lemma SelectedAt(toc: seq<Bytes>, excluded: set<int>, i: nat)
    requires i < |toc|
    ensures SelectedLines(toc, excluded)[i] == if Selected(toc[i], excluded) then [SEMICOLON] + toc[i] else toc[i]
  {
    hide Selected;
  }

  lemma SelectedAre(toc: seq<Bytes>, excluded: set<int>)
    ensures forall i :: 0 <= i < |toc| ==>
      SelectedLines(toc, excluded)[i] == if Excluded(toc[i], excluded) then [59] + toc[i] else toc[i]
  {
    hide Selected, Excluded;
    forall i | 0 <= i < |toc|
      ensures SelectedLines(toc, excluded)[i] == if Excluded(toc[i], excluded) then [59] + toc[i] else toc[i]
    {
      SelectedIff(toc[i], excluded);
    }
  }

  /** `selected_list`: comment out the excluded entries. */
  method SelectedList(toc: seq<Bytes>, excluded: set<int>) returns (lines: seq<Bytes>)
    ensures lines == SelectedLines(toc, excluded) && |lines| == |toc|
    ensures forall i :: 0 <= i < |toc| ==> lines[i] == if Excluded(toc[i], excluded) then [59] + toc[i] else toc[i]
    ensures Entries(lines) == Kept(Entries(toc), excluded)
  {
    hide Selected, SelectedLines, Entries, Kept, Excluded;
    SelectedAre(toc, excluded);
    lines := [];
    for i := 0 to |toc|
      invariant lines == SelectedLines(toc, excluded)[..i]
    {
      SelectedAt(toc, excluded, i);
      lines := lines + [if Selected(toc[i], excluded) then [SEMICOLON] + toc[i] else toc[i]];
    }
    SelectionKeepsRest(toc, excluded);
  }

  lemma CommentIsNoEntry(line: Bytes)
    ensures !IsEntry([SEMICOLON] + line)
  {
    var commented := [SEMICOLON] + line;
    assert DigitRun(commented) == 0;
    assert AfterNumber(commented, [SEMICOLON, SPACE]) == [];
    assert AfterNumber([], [SPACE]) == [];
  }

  lemma SelectedCons(toc: seq<Bytes>, excluded: set<int>)
    requires toc != []
    ensures var lines := SelectedLines(toc, excluded);
            && lines[1..] == SelectedLines(toc[1..], excluded)
            && lines[0] == if Selected(toc[0], excluded) then [SEMICOLON] + toc[0] else toc[0]
  {
    hide Selected;
  }

  /** Exactly the excluded entries disappear; the others stay, in order. */
  lemma {:induction false} SelectionKeepsRest(toc: seq<Bytes>, excluded: set<int>)
    ensures Entries(SelectedLines(toc, excluded)) == Kept(Entries(toc), excluded)
  {
    hide IsEntry, SelectedLines, EntryId;
    if toc != [] {
      CommentIsNoEntry(toc[0]);
      SelectedCons(toc, excluded);
      SelectionKeepsRest(toc[1..], excluded);
      var rest := Entries(toc[1..]);
      if IsEntry(toc[0]) {
        var e := (EntryId(toc[0]), toc[0]);
        assert Entries(toc) == [e] + rest && ([e] + rest)[1..] == rest;
      } else {
        assert Entries(toc) == rest;
      }
    }
  }
}
