/** Table dependency graph and its strongly connected components (graph/dependencies.py). */
module Components {
  import opened Ordering
  import opened Reachability
  import S = Schema

  /** The edges child -> parent of a list of relationships. */
  ghost function DependencyEdges(fks: seq<S.ForeignKey>): set<(TableKey, TableKey)> {
    set fk | fk in fks :: (fk.child, fk.parent)
  }

  /** `a` and `b` depend on each other, directly or through other tables. */
  ghost predicate Mutual(edges: set<(TableKey, TableKey)>, a: TableKey, b: TableKey) {
    Reaches(edges, a, b) && Reaches(edges, b, a)
  }

  /** An edge leads from the table with a foreign key to the table it refers to. */
  lemma EdgeMeans(fks: seq<S.ForeignKey>, a: TableKey, b: TableKey)
    ensures (a, b) in DependencyEdges(fks) <==> exists fk :: fk in fks && fk.child == a && fk.parent == b
  {
  }

  method Dependencies(schema: S.Schema) returns (graph: map<TableKey, set<TableKey>>)
    requires schema.Valid()
    ensures graph.Keys == schema.tables
    ensures forall a :: a in graph ==> graph[a] <= schema.tables
    ensures forall a, b :: a in graph ==>
      (b in graph[a] <==> exists fk :: fk in schema.foreignKeys && fk.child == a && fk.parent == b)
  {
    graph := map t | t in schema.tables :: {};
    var fks := schema.foreignKeys;
    for i := 0 to |fks|
      invariant graph.Keys == schema.tables
      invariant forall a :: a in graph ==> graph[a] <= schema.tables
      invariant forall a, b :: a in graph ==>
        (b in graph[a] <==> (a, b) in DependencyEdges(fks[..i]))
    {
      var fk := fks[i];
      assert fks[..i + 1] == fks[..i] + [fk];
      assert DependencyEdges(fks[..i + 1]) == DependencyEdges(fks[..i]) + {(fk.child, fk.parent)};
      graph := graph[fk.child := graph[fk.child] + {fk.parent}];
    }
    assert fks[..|fks|] == fks;
    forall a, b | a in graph
      ensures b in graph[a] <==> exists fk :: fk in fks && fk.child == a && fk.parent == b
    {
      EdgeMeans(fks, a, b);
    }
  }

  /** The worklist search: everything reachable from `node`, the node included. */
  method Search(graph: map<TableKey, set<TableKey>>, node: TableKey) returns (seen: set<TableKey>)
    requires node in graph
    requires forall a :: a in graph ==> graph[a] <= graph.Keys
    ensures seen <= graph.Keys
    ensures LeastClosed(set a, b | a in graph && b in graph[a] :: (a, b), {node}, seen)
  {
    ghost var edges := set a, b | a in graph && b in graph[a] :: (a, b);
    seen := {};
    var pending := [node];
    while pending != []
      invariant seen <= graph.Keys && forall x :: x in pending ==> x in graph
      invariant node in seen || node in pending
      invariant forall e :: e in edges && e.0 in seen ==> e.1 in seen || e.1 in pending
      invariant forall d: set<TableKey> :: node in d && Closed(edges, d) ==>
        seen <= d && forall x :: x in pending ==> x in d
      decreases graph.Keys - seen, |pending|
    {
      var current := pending[|pending| - 1];
      ghost var before := pending;
      pending := pending[..|pending| - 1];
      assert before == pending + [current];
      if current !in seen {
        var found := Listed(graph[current] - seen);
        forall d: set<TableKey> | node in d && Closed(edges, d)
          ensures current in d && forall x :: x in found ==> x in d
        {
          forall x | x in found ensures x in d { assert (current, x) in edges; }
        }
        seen := seen + {current};
        pending := pending + found;
      }
    }
    assert Closed(edges, seen);
  }

  /** `group` is the mutual-dependency class of each of its tables, listed in order. */
  ghost predicate IsClass(edges: set<(TableKey, TableKey)>, tables: set<TableKey>, group: seq<TableKey>) {
    && group != []
    && (forall a :: a in group ==> forall b :: b in group <==> b in tables && Mutual(edges, a, b))
    && (forall j, k :: 0 <= j < k < |group| ==> KeyLeq(group[j], group[k]) && group[j] != group[k])
  }

  /** `groups` are classes that cover every table outside `rest` once, ordered by least table. */
  ghost predicate Partitions(edges: set<(TableKey, TableKey)>, tables: set<TableKey>,
                             rest: set<TableKey>, groups: seq<seq<TableKey>>) {
    && (forall i :: 0 <= i < |groups| ==> IsClass(edges, tables, groups[i]))
    && (forall t :: t in tables && t !in rest ==> exists i :: 0 <= i < |groups| && t in groups[i])
    && (forall i, t :: 0 <= i < |groups| && t in groups[i] ==> t in tables && t !in rest)
    && (forall i, j :: 0 <= i < j < |groups| ==>
         KeyLeq(groups[i][0], groups[j][0]) && groups[i][0] != groups[j][0])
    && (forall i, t :: 0 <= i < |groups| && t in rest ==> KeyLeq(groups[i][0], t))
  }

  /** `components` partitions the tables into mutual-dependency classes, each listed in
      order, the classes ordered by their least table. */
  method Components(schema: S.Schema) returns (result: seq<seq<TableKey>>)
    requires schema.Valid()
    ensures Partitions(DependencyEdges(schema.foreignKeys), schema.tables, {}, result)
  {
    hide Partitions, IsClass, Reaches, LeastClosed, KeyLeq;
    ghost var edges := DependencyEdges(schema.foreignKeys);
    var graph := Dependencies(schema);
    forall a, b { EdgeMeans(schema.foreignKeys, a, b); }
    assert (set a, b | a in graph && b in graph[a] :: (a, b)) == edges by {
      forall e | e in edges ensures e in (set a, b | a in graph && b in graph[a] :: (a, b)) {
        var fk :| fk in schema.foreignKeys && e == (fk.child, fk.parent);
        assert e.0 in graph && e.1 in graph[e.0];
      }
    }
    var reach: map<TableKey, set<TableKey>> := map[];
    var nodes := Listed(graph.Keys);
    for i := 0 to |nodes|
      invariant forall j :: 0 <= j < i ==> nodes[j] in reach
      invariant forall a :: a in reach ==>
        a in graph && forall b :: b in reach[a] <==> Reaches(edges, a, b)
    {
      var seen := Search(graph, nodes[i]);
      forall b ensures b in seen <==> Reaches(edges, nodes[i], b) {
        LeastClosedIsReachable(edges, {nodes[i]}, seen, b);
      }
      reach := reach[nodes[i] := seen];
    }
    assert forall t :: t in graph ==> t in nodes;
    var remaining := graph.Keys;
    result := [];
    NothingCovered(edges, graph.Keys);
    while remaining != {}
      invariant remaining <= graph.Keys
      invariant Partitions(edges, graph.Keys, remaining, result)
      decreases remaining
    {
      var node := Least(remaining);
      var group := SortedKeys(set other | other in remaining && other in reach[node] && node in reach[other]);
      ReachesRefl(edges, node);
      assert node in group;
      GroupIsClass(edges, graph.Keys, remaining, result, node, group);
      AddClass(edges, graph.Keys, remaining, result, node, group);
      result := result + [group];
      remaining := remaining - (set t | t in group);
    }
  }

  lemma NothingCovered(edges: set<(TableKey, TableKey)>, tables: set<TableKey>)
    ensures Partitions(edges, tables, tables, [])
  {
  }

  lemma NotCovered(edges: set<(TableKey, TableKey)>, tables: set<TableKey>, rest: set<TableKey>,
                   groups: seq<seq<TableKey>>, node: TableKey, b: TableKey)
    requires node in rest && node in tables && Partitions(edges, tables, rest, groups) && Mutual(edges, b, node)
    ensures forall i :: 0 <= i < |groups| ==> b !in groups[i]
  {
    forall i | 0 <= i < |groups| ensures b !in groups[i] {
      assert IsClass(edges, tables, groups[i]) && node !in groups[i];
    }
  }

  /** What is left of the mutual class of the least remaining table is the whole class. */
  lemma GroupIsClass(edges: set<(TableKey, TableKey)>, tables: set<TableKey>,
                     rest: set<TableKey>, groups: seq<seq<TableKey>>, node: TableKey,
                     group: seq<TableKey>)
    requires node in rest && rest <= tables && Partitions(edges, tables, rest, groups)
    requires forall t :: t in group <==> t in rest && Mutual(edges, node, t)
    requires forall j, k :: 0 <= j < k < |group| ==> KeyLeq(group[j], group[k]) && group[j] != group[k]
    ensures IsClass(edges, tables, group)
  {
    ReachesRefl(edges, node);
    assert node in group;
    forall a, b | a in group ensures b in group <==> b in tables && Mutual(edges, a, b) {
      if b in group {
        ReachesTransitive(edges, a, node, b);
        ReachesTransitive(edges, b, node, a);
      }
      if b in tables && Mutual(edges, a, b) {
        ReachesTransitive(edges, node, a, b);
        ReachesTransitive(edges, b, a, node);
        NotCovered(edges, tables, rest, groups, node, b);
      }
    }
  }

  lemma AddClass(edges: set<(TableKey, TableKey)>, tables: set<TableKey>,
                 rest: set<TableKey>, groups: seq<seq<TableKey>>, node: TableKey,
                 group: seq<TableKey>)
    requires node in rest && rest <= tables && Partitions(edges, tables, rest, groups)
    requires forall t :: t in rest ==> KeyLeq(node, t)
    requires IsClass(edges, tables, group) && node in group
    requires forall t :: t in group ==> t in rest
    ensures Partitions(edges, tables, rest - (set t | t in group), groups + [group])
  {
    var more := groups + [group];
    assert group[0] == node by {
      var j :| 0 <= j < |group| && group[j] == node;
      TextLeqTotal(group[0].schema, node.schema);
      TextLeqTotal(group[0].name, node.name);
      assert group[0] in rest;
    }
    forall t | t in tables && t !in rest - (set t | t in group)
      ensures exists i :: 0 <= i < |more| && t in more[i]
    {
      if t in group {
        assert t in more[|groups|];
      } else {
        var i :| 0 <= i < |groups| && t in groups[i];
        assert t in more[i];
      }
    }
    forall i | 0 <= i < |groups| ensures groups[i][0] != node {
      assert groups[i][0] in groups[i];
    }
  }

  /** What a caller reads off the result: each table is in exactly one group, and two tables
      share a group exactly when each reaches the other. */
  lemma PartitionMeaning(edges: set<(TableKey, TableKey)>, tables: set<TableKey>,
                         groups: seq<seq<TableKey>>, a: TableKey, b: TableKey)
    requires Partitions(edges, tables, {}, groups) && a in tables && b in tables
    ensures exists i :: 0 <= i < |groups| && a in groups[i]
    ensures forall i, j :: 0 <= i < |groups| && 0 <= j < |groups| && a in groups[i] && a in groups[j] ==> i == j
    ensures (exists i :: 0 <= i < |groups| && a in groups[i] && b in groups[i]) <==> Mutual(edges, a, b)
  {
    forall i, j | 0 <= i < j < |groups| ensures !(a in groups[i] && a in groups[j]) {
      SharedTableSameLead(edges, tables, groups[i], groups[j], a);
    }
    if Mutual(edges, a, b) {
      var i :| 0 <= i < |groups| && a in groups[i];
      assert IsClass(edges, tables, groups[i]) && b in groups[i];
    }
  }

  lemma SharedTableSameLead(edges: set<(TableKey, TableKey)>, tables: set<TableKey>,
                            g: seq<TableKey>, h: seq<TableKey>, a: TableKey)
    requires IsClass(edges, tables, g) && IsClass(edges, tables, h)
    ensures a in g && a in h ==> g[0] == h[0]
  {
    if a in g && a in h {
      assert g[0] in g && h[0] in h;
      assert g[0] in h && h[0] in g;
      TextLeqTotal(g[0].schema, h[0].schema);
      TextLeqTotal(g[0].name, h[0].name);
    }
  }
}
