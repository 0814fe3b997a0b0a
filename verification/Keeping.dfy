/** What work on clones leaves alone: every database recorded before it stays recorded and
    keeps its content, whatever is created, written and dropped meanwhile. */
module Keeping {
  import opened Wrappers
  import opened Schema
  import opened Server
  import opened Cancellation
  import opened Cluster
  import opened Cleanup
  import opened Tracking

  /** The database recorded under `n` still holds in `t` what it held in `s`. */
  ghost predicate HoldsOn(owned: map<Name, OwnedDatabase>, s: ServerState, t: ServerState, n: Name) {
    n in owned && owned[n].oid in s.mine && owned[n].oid in s.content ==>
      owned[n].oid in t.content && t.content[owned[n].oid] == s.content[owned[n].oid]
  }

  ghost predicate Shows(s: ServerState, db: OwnedDatabase, data: Content) {
    db.oid in s.content && s.content[db.oid] == data
  }

  ghost predicate Keeps(v: View, w: View) {
    && Moves(v.s, w.s, Some(StoreClient)) && SameSection(v.control, w.control)
    && v.frozen <= w.frozen && v.s.mine <= w.s.mine
    && (forall n :: n in v.owned ==> n in w.owned && w.owned[n] == v.owned[n])
    && (forall n :: n in v.owned ==> HoldsOn(v.owned, v.s, w.s, n))
  }

  /** A client of database `n` wrote into it. */
  ghost predicate WritesOnly(v: View, w: View, n: Name) {
    && Moves(v.s, w.s, Some(StoreClient)) && SameSection(v.control, w.control)
    && w == v.(s := w.s, control := w.control) && v.s.mine <= w.s.mine
    && (forall m :: m in v.owned && m != n ==> HoldsOn(v.owned, v.s, w.s, m))
  }

  lemma KeepsRefl(v: View)
    ensures Keeps(v, v)
  {
    MovesRefl(v.s, Some(StoreClient));
  }

  lemma KeepsTransitive(v: View, w: View, x: View)
    requires Keeps(v, w) && Keeps(w, x) && Consistent(w.s)
    ensures Keeps(v, x)
  {
    MovesTransitive(v.s, w.s, x.s, Some(StoreClient));
    hide Moves, Consistent;
    forall n | n in v.owned ensures HoldsOn(v.owned, v.s, x.s, n) {
      assert HoldsOn(v.owned, v.s, w.s, n) && HoldsOn(w.owned, w.s, x.s, n);
    }
  }

  lemma CreatingKeeps(v: View, w: View, n: Name)
    requires CreatesOnly(StoreClient, v, w, n)
    ensures Keeps(v, w)
  {
    assert v.s.mine <= w.s.mine;
    hide Moves;
  }

  lemma WaitingKeeps(v: View, w: View)
    requires WaitsOnly(v, w)
    ensures Keeps(v, w)
  {
    MovesAlone(v.s, w.s, Some(StoreClient));
    assert v.s.mine <= w.s.mine;
    hide Moves;
  }

  lemma FreezingKeeps(v: View, w: View)
    requires WaitsOnly(v, w.(frozen := v.frozen)) && v.frozen <= w.frozen
    ensures Keeps(v, w)
  {
    hide Moves, WaitsOnly;
    WaitingKeeps(v, w.(frozen := v.frozen));
  }

  /** Writing into or dropping a database that was not recorded at the start. */
  lemma WritingKeeps(v: View, w: View, x: View, n: Name)
    requires Keeps(v, w) && WritesOnly(w, x, n) && n !in v.owned && Consistent(w.s)
    ensures Keeps(v, x)
  {
    MovesTransitive(v.s, w.s, x.s, Some(StoreClient));
    hide Moves, Consistent;
    forall m | m in v.owned ensures HoldsOn(v.owned, v.s, x.s, m) {
      assert HoldsOn(v.owned, v.s, w.s, m) && HoldsOn(w.owned, w.s, x.s, m);
    }
  }

  lemma DroppingKeeps(v: View, w: View, x: View, db: OwnedDatabase)
    requires Keeps(v, w) && DropsAtMost(StoreClient, w, x, db) && db.name !in v.owned && Consistent(w.s)
    ensures Keeps(v, x)
  {
    MovesTransitive(v.s, w.s, x.s, Some(StoreClient));
    assert w.s.mine <= x.s.mine;
    hide Moves, Consistent, DropsOnly;
    forall m | m in v.owned ensures HoldsOn(v.owned, v.s, x.s, m) {
      assert HoldsOn(v.owned, v.s, w.s, m);
    }
  }

  /** What a write by name does, seen by name. */
  lemma WrittenElsewhere(c: Client, v: View, w: View, n: Name)
    requires Tracked(c, v.owned, v.unproven, v.s) && Consistent(v.s)
    requires w == v.(s := w.s) && w.s.mine == v.s.mine
    requires forall o :: o in v.s.content ==>
      && o in w.s.content
      && ((n in v.s.catalog && o == v.s.catalog[n].oid) || w.s.content[o] == v.s.content[o])
    ensures forall m :: m in v.owned && m != n ==> HoldsOn(v.owned, v.s, w.s, m)
  {
    forall m | m in v.owned && m != n ensures HoldsOn(v.owned, v.s, w.s, m) {
      assert Recorded(c, v.owned[m], m, v.s);
    }
  }

  /** Writing into a database keeps tracking. */
  lemma WriteTracked(c: Client, owned: map<Name, OwnedDatabase>, unproven: set<Name>, s: ServerState,
                     t: ServerState, n: Name)
    requires Tracked(c, owned, unproven, s) && IssuedBy(c, s, n)
    requires t.issuedTo == s.issuedTo && t.catalog == s.catalog && t.mine == s.mine && t.home == s.home
    requires t.squatted == s.squatted && t.running == s.running && s.recorded <= t.recorded && t.listed == s.listed
    ensures Tracked(c, owned, unproven, t) && IssuedBy(c, t, n)
  {
  }

  lemma WaitThenWrite(v: View, w: View, x: View, n: Name)
    requires WaitsOnly(v, w) && WritesOnly(w, x, n) && Consistent(w.s)
    ensures WritesOnly(v, x, n)
  {
    MovesAlone(v.s, w.s, Some(StoreClient));
    MovesTransitive(v.s, w.s, x.s, Some(StoreClient));
    assert v.s.mine <= w.s.mine;
    hide Moves, Consistent;
    forall m | m in v.owned && m != n ensures HoldsOn(v.owned, v.s, x.s, m) {
      assert HoldsOn(w.owned, w.s, x.s, m);
    }
  }

  lemma WaitWrites(v: View, w: View, n: Name)
    requires WaitsOnly(v, w)
    ensures WritesOnly(v, w, n)
  {
    MovesAlone(v.s, w.s, Some(StoreClient));
    assert v.s.mine <= w.s.mine;
    hide Moves;
  }

  /** As many databases are recorded as before, and the same ones. */
  ghost predicate Restored(v: View, w: View) {
    w.owned == v.owned && w.unproven == v.unproven && w.frozen == v.frozen
  }
}
