/** Closure of a set under a finite edge relation, by least closed sets and by paths. */
module Reachability {

  ghost predicate Closed<N>(edges: set<(N, N)>, s: set<N>) {
    forall e :: e in edges && e.0 in s ==> e.1 in s
  }

  /** `c` is the least set that contains `seed` and is closed under `edges`. */
  ghost predicate LeastClosed<N(!new)>(edges: set<(N, N)>, seed: set<N>, c: set<N>) {
    && seed <= c
    && Closed(edges, c)
    && (forall d: set<N> :: seed <= d && Closed(edges, d) ==> c <= d)
  }

  lemma LeastClosedUnique<N(!new)>(edges: set<(N, N)>, seed: set<N>, c: set<N>, d: set<N>)
    requires LeastClosed(edges, seed, c) && LeastClosed(edges, seed, d)
    ensures c == d
  {
  }

  /** Closing a union is the union of the closures. */
  lemma LeastClosedUnion<N(!new)>(edges: set<(N, N)>, s: set<N>, t: set<N>, cs: set<N>, ct: set<N>)
    requires LeastClosed(edges, s, cs) && LeastClosed(edges, t, ct)
    ensures LeastClosed(edges, s + t, cs + ct)
  {
    forall d: set<N> | s + t <= d && Closed(edges, d) ensures cs + ct <= d {
      assert s <= d && t <= d;
    }
  }

  // ---- paths ----

  ghost predicate IsPath<N>(edges: set<(N, N)>, p: seq<N>) {
    p != [] && forall i :: 0 < i < |p| ==> (p[i - 1], p[i]) in edges
  }

  /** `b` can be reached from `a` in zero or more steps. */
  ghost predicate Reaches<N(!new)>(edges: set<(N, N)>, a: N, b: N) {
    exists p :: IsPath(edges, p) && p[0] == a && p[|p| - 1] == b
  }

  lemma ReachesRefl<N(!new)>(edges: set<(N, N)>, a: N)
    ensures Reaches(edges, a, a)
  {
    assert IsPath(edges, [a]);
  }

  lemma ReachesStep<N(!new)>(edges: set<(N, N)>, a: N, b: N, c: N)
    requires Reaches(edges, a, b) && (b, c) in edges
    ensures Reaches(edges, a, c)
  {
    var p :| IsPath(edges, p) && p[0] == a && p[|p| - 1] == b;
    assert IsPath(edges, p + [c]);
  }

  lemma {:induction false} PathStaysInClosed<N(!new)>(edges: set<(N, N)>, s: set<N>, p: seq<N>)
    requires Closed(edges, s) && IsPath(edges, p) && p[0] in s
    ensures p[|p| - 1] in s
  {
    if |p| > 1 {
      var q := p[..|p| - 1];
      PathStaysInClosed(edges, s, q);
      assert (p[|p| - 2], p[|p| - 1]) in edges;
    }
  }

  lemma ReachesTransitive<N(!new)>(edges: set<(N, N)>, a: N, b: N, c: N)
    requires Reaches(edges, a, b) && Reaches(edges, b, c)
    ensures Reaches(edges, a, c)
  {
    var p :| IsPath(edges, p) && p[0] == a && p[|p| - 1] == b;
    var q :| IsPath(edges, q) && q[0] == b && q[|q| - 1] == c;
    var r := p + q[1..];
    forall i | 0 < i < |r| ensures (r[i - 1], r[i]) in edges {
      if i >= |p| {
        assert r[i] == q[i - |p| + 1];
        assert r[i - 1] == q[i - |p|];
      }
    }
    assert IsPath(edges, r);
  }

  /** A least closed set holds exactly what its seed reaches. */
  lemma LeastClosedIsReachable<N(!new)>(edges: set<(N, N)>, seed: set<N>, c: set<N>, b: N)
    requires LeastClosed(edges, seed, c)
    ensures b in c <==> exists a :: a in seed && Reaches(edges, a, b)
  {
    if a :| a in seed && Reaches(edges, a, b) {
      var p :| IsPath(edges, p) && p[0] == a && p[|p| - 1] == b;
      PathStaysInClosed(edges, c, p);
    }
    var d := set x | x in c && exists a :: a in seed && Reaches(edges, a, x);
    forall x | x in seed ensures x in d { ReachesRefl(edges, x); }
    forall e | e in edges && e.0 in d ensures e.1 in d {
      var a :| a in seed && Reaches(edges, a, e.0);
      ReachesStep(edges, a, e.0, e.1);
    }
    assert Closed(edges, d);
  }

  ghost function Ends<N>(edges: set<(N, N)>): set<N> {
    set e | e in edges :: e.1
  }

  /** Everything reachable from `seed`. */
  ghost function ReachableFrom<N(!new)>(edges: set<(N, N)>, seed: set<N>): set<N> {
    set b | b in seed + Ends(edges) && exists a :: a in seed && Reaches(edges, a, b)
  }

  /** What paths reach is the least closed set. */
  lemma ReachableIsLeast<N(!new)>(edges: set<(N, N)>, seed: set<N>)
    ensures LeastClosed(edges, seed, ReachableFrom(edges, seed))
  {
    var c := ReachableFrom(edges, seed);
    forall x | x in seed ensures x in c { ReachesRefl(edges, x); }
    forall e | e in edges && e.0 in c ensures e.1 in c {
      var a :| a in seed && Reaches(edges, a, e.0);
      ReachesStep(edges, a, e.0, e.1);
    }
    forall d: set<N> | seed <= d && Closed(edges, d) ensures c <= d {
      forall b | b in c ensures b in d {
        var a :| a in seed && Reaches(edges, a, b);
        var p :| IsPath(edges, p) && p[0] == a && p[|p| - 1] == b;
        PathStaysInClosed(edges, d, p);
      }
    }
  }

  lemma ReachableUnion<N(!new)>(edges: set<(N, N)>, s: set<N>, t: set<N>)
    ensures ReachableFrom(edges, s + t) == ReachableFrom(edges, s) + ReachableFrom(edges, t)
  {
    ReachableIsLeast(edges, s);
    ReachableIsLeast(edges, t);
    ReachableIsLeast(edges, s + t);
    var rs, rt := ReachableFrom(edges, s), ReachableFrom(edges, t);
    LeastClosedUnion(edges, s, t, rs, rt);
    LeastClosedUnique(edges, s + t, ReachableFrom(edges, s + t), rs + rt);
  }

  // ---- renaming nodes ----

  function Image<N, M>(f: map<N, M>, s: set<N>): set<M> {
    set x | x in s && x in f :: f[x]
  }

  /** Least closed sets are preserved by a one-to-one renaming of the nodes. */
  lemma LeastClosedImage<N(!new), M(!new)>(f: map<N, M>, edges: set<(N, N)>, renamed: set<(M, M)>,
                                           seed: set<N>, c: set<N>)
    requires forall a, b :: a in f && b in f && f[a] == f[b] ==> a == b
    requires forall e :: e in edges ==> e.0 in f && e.1 in f
    requires forall e :: e in renamed <==> exists a, b :: (a, b) in edges && e == (f[a], f[b])
    requires seed <= f.Keys && LeastClosed(edges, seed, c)
    ensures LeastClosed(renamed, Image(f, seed), Image(f, c))
  {
    forall e | e in renamed && e.0 in Image(f, c) ensures e.1 in Image(f, c) {
      var a, b :| (a, b) in edges && e == (f[a], f[b]);
      assert (a, b).0 in f && (a, b).1 in f;
      var x :| x in c && x in f && f[x] == e.0;
      assert x == a;
      assert (a, b).1 in c;
    }
    forall d: set<M> | Image(f, seed) <= d && Closed(renamed, d) ensures Image(f, c) <= d {
      var pre := set x | x in f && f[x] in d;
      forall e | e in edges && e.0 in pre ensures e.1 in pre {
        assert e == (e.0, e.1);
        assert (f[e.0], f[e.1]) in renamed;
        assert (f[e.0], f[e.1]).1 in d;
      }
      forall x | x in seed ensures x in pre { assert f[x] in Image(f, seed); }
      assert Closed(edges, pre);
      assert c <= pre;
    }
  }
}
