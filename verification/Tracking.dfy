/** What the run knows about the databases it creates: which are recorded, which are unproven,
    and what every step - its own, a lost reply, other people's, a late statement - keeps.
    The workspace and the clone store follow the same rules. */
module Tracking {
  import opened Ordering
  import opened Wrappers
  import opened Schema
  import opened Server
  import opened Cancellation
  import opened Cluster
  import opened Cleanup

  /** A database by the identity recorded after its creation. */
  datatype OwnedDatabase = OwnedDatabase(name: Name, oid: Oid, owner: Owner)

  /** Why pg_restore stopped, as its error text is classified. */
  datatype RestoreReason = ConstraintViolation | MissingDependency | InvalidSchema | OtherReason

  datatype Exception =
    | Psycopg(fault: Fault) | DuplicateDatabaseError | RuntimeError | Cancelled
    | ClientError(reason: RestoreReason) | OracleError

  /** What talking to the server can raise. */
  predicate FromServer(e: Exception) {
    !e.ClientError? && !e.OracleError?
  }

  datatype Result<+T> = Returned(value: T) | Raised(e: Exception)

  /** The catalog shows the database as recorded, with the client's marker. */
  ghost predicate Intact(c: Client, s: ServerState, db: OwnedDatabase) {
    db.name in s.catalog && Shown(s.catalog[db.name]) == OwnedEntry(db.oid, db.owner, c)
  }

  /** `t` has one more database than `s`: `db`, marked and open for connections. */
  ghost predicate Adds(c: Client, s: ServerState, t: ServerState, db: OwnedDatabase) {
    && db.name !in s.catalog && t.running == s.running
    && t.catalog == s.catalog[db.name := Entry(db.oid, db.owner, Of(c), true)]
  }

  /** Name `n` was generated for client `c`. */
  ghost predicate IssuedBy(c: Client, s: ServerState, n: Name) {
    n in s.issuedTo && s.issuedTo[n] == c
  }

  /** Every database client `c`'s statements made and that still lives is tracked: recorded
      under its OID, or its name is kept as unproven. A CREATE still running is unproven. The
      names recorded or unproven are those `leftovers` lists. */
  ghost predicate Tracked(c: Client, owned: map<Name, OwnedDatabase>, unproven: set<Name>, s: ServerState) {
    && (forall n :: n in owned ==> n !in unproven && Recorded(c, owned[n], n, s))
    && (forall n :: n in unproven ==> IssuedBy(c, s, n))
    && (forall n :: n in s.catalog && IssuedBy(c, s, n) && s.catalog[n].oid in s.mine ==>
         n in unproven || (n in owned && owned[n].oid == s.catalog[n].oid))
    && (forall n :: n in s.running && IssuedBy(c, s, n) ==> n in unproven)
    && (forall n :: IssuedBy(c, s, n) ==> (n in s.listed <==> n in owned || n in unproven))
  }

  ghost predicate Recorded(c: Client, db: OwnedDatabase, n: Name, s: ServerState) {
    && db.name == n && IssuedBy(c, s, n)
    && db.oid in s.home && s.home[db.oid] == n
    && (db.oid in s.mine || n in s.squatted) && Identified(db.oid, db.owner) in s.recorded
  }

  lemma RecordsStay(c: Client, owned: map<Name, OwnedDatabase>, unproven: set<Name>,
                    s: ServerState, t: ServerState, actor: Option<Client>)
    requires Tracked(c, owned, unproven, s) && Grows(s, t, actor)
    ensures forall n :: n in owned ==> n !in unproven && Recorded(c, owned[n], n, t)
    ensures forall n :: n in unproven ==> IssuedBy(c, t, n)
  {
  }

  /** Tracking survives whatever others do. */
  lemma TrackedStays(c: Client, owned: map<Name, OwnedDatabase>, unproven: set<Name>,
                     s: ServerState, t: ServerState, actor: Option<Client>)
    requires Tracked(c, owned, unproven, s) && Consistent(s) && Consistent(t)
    requires Grows(s, t, actor) && Settles(s, t, actor)
    requires actor != Some(c)
    ensures Tracked(c, owned, unproven, t)
  {
    hide Grows, Settles, Consistent, Recorded;
    RecordsStay(c, owned, unproven, s, t, actor);
    ListedStays(c, s, t, actor);
    forall n | n in t.catalog && IssuedBy(c, t, n) && t.catalog[n].oid in t.mine
      ensures n in unproven || (n in owned && owned[n].oid == t.catalog[n].oid)
    {
      LiveBefore(c, s, t, actor, n);
    }
    forall n | n in t.running && IssuedBy(c, t, n) ensures n in unproven {
      RunningBefore(c, s, t, actor, n);
    }
  }

  lemma ListedStays(c: Client, s: ServerState, t: ServerState, actor: Option<Client>)
    requires Grows(s, t, actor) && actor != Some(c)
    ensures forall n :: IssuedBy(c, t, n) ==> IssuedBy(c, s, n) && (n in s.listed <==> n in t.listed)
  {
    forall n | IssuedBy(c, t, n) ensures IssuedBy(c, s, n) && (n in s.listed <==> n in t.listed) {
      assert NotOf(t, actor, n);
    }
  }

  /** A live database of a client that did not act was there before, or its CREATE was running. */
  lemma LiveBefore(c: Client, s: ServerState, t: ServerState, actor: Option<Client>, n: Name)
    requires Consistent(s) && Consistent(t) && Grows(s, t, actor) && Settles(s, t, actor) && actor != Some(c)
    requires n in t.catalog && IssuedBy(c, t, n) && t.catalog[n].oid in t.mine
    ensures IssuedBy(c, s, n)
    ensures n in s.running || (n in s.catalog && s.catalog[n].oid == t.catalog[n].oid && s.catalog[n].oid in s.mine)
  {
    var o := t.catalog[n].oid;
    assert o in t.home && t.home[o] == n && NotOf(t, actor, n);
    if o in s.mine { assert Allocated(s, o); }
  }

  lemma RunningBefore(c: Client, s: ServerState, t: ServerState, actor: Option<Client>, n: Name)
    requires Grows(s, t, actor) && Settles(s, t, actor) && actor != Some(c)
    requires n in t.running && IssuedBy(c, t, n)
    ensures IssuedBy(c, s, n) && n in s.running
  {
    assert NotOf(t, actor, n);
  }

  /** Nothing tracked, nothing left: no live database of the client, and none can appear. */
  lemma NothingTrackedNothingLeft(c: Client, s: ServerState, n: Name)
    requires Tracked(c, map[], {}, s) && IssuedBy(c, s, n)
    ensures n !in s.running && (n in s.catalog ==> s.catalog[n].oid !in s.mine)
  {
  }

  /** Contents of this run's databases stay as they were. */
  ghost predicate SameContent(s: ServerState, t: ServerState) {
    forall o :: o in s.mine && o in s.content ==> o in t.content && t.content[o] == s.content[o]
  }

  lemma AloneKeepsContent(s: ServerState, t: ServerState)
    requires Consistent(s) && Moves(s, t, None)
    ensures SameContent(s, t)
  {
  }

  /** Under name `n` no database of this run lives or can appear but `made`. */
  ghost predicate OnlyMade(c: Client, s: ServerState, n: Name, made: Oid) {
    && made in s.home && s.home[made] == n && made in s.mine && n !in s.running && IssuedBy(c, s, n)
    && (n in s.catalog && s.catalog[n].oid in s.mine ==> s.catalog[n].oid == made)
  }

  lemma OnlyMadeStays(c: Client, s: ServerState, t: ServerState, n: Name, made: Oid)
    requires OnlyMade(c, s, n, made) && Consistent(s) && Consistent(t) && Moves(s, t, None)
    ensures OnlyMade(c, t, n, made)
  {
    assert forall p :: p in s.mine ==> Allocated(s, p);
    if n in t.catalog && t.catalog[n].oid in t.mine {
      var o := t.catalog[n].oid;
      assert t.home[o] == n;
      if o.n < s.nextOid {
        assert o in s.mine;
      } else {
        assert o !in s.mine;
      }
    }
    assert NotOf(t, None, n);
  }

  /** No database of this run lives under `n` and none can appear. */
  ghost predicate NotOurs(c: Client, s: ServerState, n: Name) {
    IssuedBy(c, s, n) && n !in s.running && (n in s.catalog ==> s.catalog[n].oid !in s.mine)
  }

  lemma NotOursStays(c: Client, s: ServerState, t: ServerState, n: Name)
    requires NotOurs(c, s, n) && Consistent(s) && Consistent(t) && Moves(s, t, None)
    ensures NotOurs(c, t, n)
  {
    assert NotOf(t, None, n);
    assert forall p :: p in s.mine ==> Allocated(s, p);
    forall o | o in t.mine && o in t.home && t.home[o] == n ensures o in s.mine {}
  }

  // ---- how tracking follows the client's own steps ----

  lemma TrackedIssue(c: Client, owned: map<Name, OwnedDatabase>, unproven: set<Name>, s: ServerState,
                     t: ServerState, n: Name)
    requires Tracked(c, owned, unproven, s) && Consistent(s)
    requires n !in s.issuedTo && n !in s.listed && t == s.(issuedTo := s.issuedTo[n := c])
    requires forall o :: o in s.home ==> s.home[o] != n
    ensures Tracked(c, owned, unproven, t) && n !in owned && n !in unproven && IssuedBy(c, t, n)
  {
  }

  lemma TrackedUnproven(c: Client, owned: map<Name, OwnedDatabase>, unproven: set<Name>, s: ServerState, n: Name)
    requires Tracked(c, owned, unproven, s) && IssuedBy(c, s, n) && n !in owned
    ensures Tracked(c, owned, unproven + {n}, Lists(s, n, true))
  {
  }

  lemma TrackedForget(c: Client, owned: map<Name, OwnedDatabase>, unproven: set<Name>, s: ServerState, n: Name)
    requires Tracked(c, owned, unproven, s) && NotOurs(c, s, n) && n in unproven
    ensures Tracked(c, owned, unproven - {n}, Lists(s, n, false))
  {
  }

  lemma TrackedTouch(c: Client, owned: map<Name, OwnedDatabase>, unproven: set<Name>, s: ServerState,
                     t: ServerState, n: Name)
    requires Tracked(c, owned, unproven, s) && n in unproven && TouchesOnly(s, t, n) && Consistent(s) && Consistent(t)
    ensures Tracked(c, owned, unproven, t)
  {
    RecordedTouch(c, owned, unproven, s, t, n);
    ListedTouch(c, s, t, n);
    hide Recorded;
    forall m | m in t.catalog && IssuedBy(c, t, m) && t.catalog[m].oid in t.mine && m != n
      ensures m in unproven || (m in owned && owned[m].oid == t.catalog[m].oid)
    {
      UntouchedBefore(s, t, n, m);
    }
    hide Consistent, TouchesOnly;
  }

  lemma ListedTouch(c: Client, s: ServerState, t: ServerState, n: Name)
    requires TouchesOnly(s, t, n)
    ensures forall m :: IssuedBy(c, t, m) ==> IssuedBy(c, s, m) && (m in t.listed <==> m in s.listed)
    ensures forall m :: m in t.running && m != n ==> m in s.running
  {
  }

  lemma UntouchedBefore(s: ServerState, t: ServerState, n: Name, m: Name)
    requires TouchesOnly(s, t, n) && Consistent(t) && m in t.catalog && m != n && t.catalog[m].oid in t.mine
    ensures m in s.catalog && t.catalog[m] == s.catalog[m] && s.catalog[m].oid in s.mine
  {
    assert t.home[t.catalog[m].oid] == m;
  }

  lemma RecordedTouch(c: Client, owned: map<Name, OwnedDatabase>, unproven: set<Name>, s: ServerState,
                      t: ServerState, n: Name)
    requires Tracked(c, owned, unproven, s) && TouchesOnly(s, t, n)
    ensures forall m :: m in owned ==> m !in unproven && Recorded(c, owned[m], m, t)
  {
  }

  /** The identity read back under `n`: the database made, or that one is gone. */
  ghost predicate Seen(s: ServerState, n: Name, made: Oid, oid: Oid) {
    && oid in s.home && s.home[oid] == n && made in s.home
    && (oid == made || (oid !in s.mine && n in s.squatted && Absent(s, made)))
  }

  lemma SeenStays(s: ServerState, t: ServerState, n: Name, made: Oid, oid: Oid)
    requires Seen(s, n, made, oid) && Consistent(s) && Moves(s, t, None)
    ensures Seen(t, n, made, oid)
  {
    assert Allocated(s, oid);
    if oid != made { AbsentStays(s, t, made, None); }
  }

  lemma SeenNow(c: Client, s: ServerState, n: Name, made: Oid)
    requires Consistent(s) && OnlyMade(c, s, n, made) && n in s.catalog
    ensures Seen(s, n, made, s.catalog[n].oid)
    ensures n !in s.squatted ==> s.catalog[n].oid == made
  {
    if s.catalog[n].oid != made { AbsentByName(s, made); }
  }

  /** What recording the identity rests on. */
  lemma SeenMeans(c: Client, s: ServerState, n: Name, made: Oid, oid: Oid)
    requires OnlyMade(c, s, n, made) && Seen(s, n, made, oid)
    ensures n in s.issuedTo && s.issuedTo[n] == c && made in s.mine && made in s.home && s.home[made] == n
    ensures oid in s.home && s.home[oid] == n && (oid == made || (oid !in s.mine && n in s.squatted))
  {
  }

  /** The server's history has the record; nothing else changed. */
  lemma Acknowledged(c: Client, owned: map<Name, OwnedDatabase>, unproven: set<Name>, s: ServerState, r: Record,
                     n: Name, made: Oid, oid: Oid)
    requires Tracked(c, owned, unproven, s) && OnlyMade(c, s, n, made) && Seen(s, n, made, oid)
    ensures var t := s.(recorded := s.recorded + {r});
            Tracked(c, owned, unproven, t) && OnlyMade(c, t, n, made) && Seen(t, n, made, oid) && SameContent(s, t)
  {
  }

  lemma TrackedRecord(c: Client, owned: map<Name, OwnedDatabase>, unproven: set<Name>, s: ServerState,
                      db: OwnedDatabase, made: Oid)
    requires Tracked(c, owned, unproven, s) && db.name !in owned && db.name in unproven
    requires OnlyMade(c, s, db.name, made) && Seen(s, db.name, made, db.oid) && Identified(db.oid, db.owner) in s.recorded
    ensures Tracked(c, owned[db.name := db], unproven - {db.name}, s)
  {
  }

  /** A recorded database that is gone can be forgotten. */
  lemma TrackedPop(c: Client, owned: map<Name, OwnedDatabase>, unproven: set<Name>, s: ServerState, n: Name)
    requires Tracked(c, owned, unproven, s) && n in owned && Absent(s, owned[n].oid)
    ensures Tracked(c, owned - {n}, unproven, Lists(s, n, false))
  {
  }

  lemma SameContentRefl(s: ServerState)
    ensures SameContent(s, s)
  {
  }

  /** Nothing of this run is under the name of a recorded database that is gone. */
  lemma Forgettable(c: Client, owned: map<Name, OwnedDatabase>, unproven: set<Name>, s: ServerState, n: Name)
    requires Tracked(c, owned, unproven, s) && n in owned && Absent(s, owned[n].oid)
    ensures IssuedBy(c, s, n) && n !in s.running && (n in s.catalog ==> s.catalog[n].oid !in s.mine)
  {
    assert Recorded(c, owned[n], n, s);
  }

  lemma UnprovenListed(c: Client, owned: map<Name, OwnedDatabase>, unproven: set<Name>, s: ServerState)
    requires Tracked(c, owned, unproven, s)
    ensures forall n :: n in unproven ==> n in s.listed
  {
  }

  /** Nothing of this run is under an unproven name that was settled. */
  lemma NothingUnder(c: Client, owned: map<Name, OwnedDatabase>, unproven: set<Name>, s: ServerState, n: Name)
    requires Tracked(c, owned, unproven, s) && n in unproven && n !in s.running && n !in s.catalog
    ensures NotOurs(c, s, n)
  {
  }

  lemma DropsMoves(c: Client, v: View, w: View, db: OwnedDatabase)
    requires DropsAtMost(c, v, w, db)
    ensures Moves(v.s, w.s, Some(c)) && w.unproven == v.unproven && w.control.depth == v.control.depth
    ensures w.owned == v.owned || w.owned == v.owned - {db.name}
  {
  }

  /** Nothing of the client changed while it waited. */
  ghost predicate WaitsOnly(v: View, w: View) {
    && Moves(v.s, w.s, None) && SameContent(v.s, w.s)
    && w == v.(s := w.s, control := w.control) && SameSection(v.control, w.control)
  }

  lemma WaitsTransitive(v: View, w: View, x: View)
    requires WaitsOnly(v, w) && WaitsOnly(w, x) && Consistent(w.s)
    ensures WaitsOnly(v, x)
  {
    assert v.s.mine <= w.s.mine;
    MovesTransitive(v.s, w.s, x.s, None);
    ContentTransitive(v.s, w.s, x.s);
    hide Moves, SameContent;
  }

  lemma WaitsCreates(c: Client, v: View, w: View, n: Name)
    requires WaitsOnly(v, w)
    ensures CreatesOnly(c, v, w, n)
  {
    PausedCreatesOnly(c, v, w, n);
  }

  lemma WaitsThenCreates(c: Client, v: View, w: View, x: View, n: Name)
    requires WaitsOnly(v, w) && CreatesOnly(c, w, x, n) && Consistent(w.s)
    ensures CreatesOnly(c, v, x, n)
  {
    WaitsCreates(c, v, w, n);
    CreatesTransitive(c, v, w, x, n);
  }

  lemma SourceContent(c: Client, v: View, w: View, x: View, n: Name, source: OwnedDatabase)
    requires WaitsOnly(v, w) && CreatesOnly(c, w, x, n) && x.s.squatted == {}
    requires Consistent(v.s) && Tracked(c, v.owned, v.unproven, v.s)
    requires source.name in v.owned && v.owned[source.name] == source
    ensures source.oid in v.s.content && source.oid in w.s.content && w.s.content[source.oid] == v.s.content[source.oid]
  {
    assert v.s.squatted <= w.s.squatted <= x.s.squatted;
    assert Recorded(c, source, source.name, v.s);
    hide Settles, Drops, Tracked;
  }

  lemma SizeWithout<K, V>(m: map<K, V>, k: K)
    requires k in m
    ensures |m| == |m - {k}| + 1
  {
    assert m.Keys == (m - {k}).Keys + {k};
  }

  lemma TrackedWaits(c: Client, owned: map<Name, OwnedDatabase>, unproven: set<Name>, s: ServerState, t: ServerState)
    requires Tracked(c, owned, unproven, s) && Consistent(s) && Consistent(t) && Moves(s, t, None)
    ensures Tracked(c, owned, unproven, t) && SameContent(s, t)
  {
    TrackedStays(c, owned, unproven, s, t, None);
    AloneKeepsContent(s, t);
  }

  lemma RecordedFacts(c: Client, owned: map<Name, OwnedDatabase>, unproven: set<Name>, s: ServerState, n: Name)
    requires Tracked(c, owned, unproven, s) && n in owned
    ensures owned[n].name == n && owned[n].oid in s.home && s.home[owned[n].oid] == n
    ensures n in s.issuedTo && s.issuedTo[n] == c && (owned[n].oid in s.mine || n in s.squatted)
    ensures Identified(owned[n].oid, owned[n].owner) in s.recorded
  {
    assert Recorded(c, owned[n], n, s);
  }

  lemma RecordedHasContent(c: Client, owned: map<Name, OwnedDatabase>, unproven: set<Name>, s: ServerState, n: Name)
    requires Tracked(c, owned, unproven, s) && Consistent(s) && n in owned
    ensures owned[n].oid in s.content
  {
    assert Recorded(c, owned[n], n, s);
  }

  lemma DropKeepsTracking(c: Client, owned: map<Name, OwnedDatabase>, unproven: set<Name>, s: ServerState,
                          t: ServerState)
    requires Tracked(c, owned, unproven, s) && Consistent(s) && Consistent(t) && Creationless(s, t)
    ensures Tracked(c, owned, unproven, t) && SameContent(s, t)
  {
    TrackedStays(c, owned, unproven, s, t, None);
    hide Tracked;
  }

  lemma DropsOnlyListed(s: ServerState, t: ServerState, n: Name, on: bool, o: Oid, owner: Owner, c: Client)
    requires DropsOnly(s, t, o, owner, c)
    ensures DropsOnly(s, Lists(t, n, on), o, owner, c)
  {
  }

  /** What a removal leaves when nothing goes wrong: the database is gone and off the list. */
  function Erased(s: ServerState, n: Name): ServerState {
    Lists(if n in s.catalog then Gone(s, n, s.catalog[n]) else s, n, false)
  }

  /** Removing `db` forgets at most `db` and drops at most `db`, as recorded. */
  ghost predicate DropsAtMost(c: Client, v: View, w: View, db: OwnedDatabase) {
    && Moves(v.s, w.s, Some(c)) && SameContent(v.s, w.s)
    && DropsOnly(v.s, w.s, db.oid, db.owner, c)
    && (w.owned == v.owned || w.owned == v.owned - {db.name})
    && w == v.(owned := w.owned, dropped := w.dropped, alreadyAbsent := w.alreadyAbsent,
               uncounted := w.uncounted, cleanupFailures := w.cleanupFailures, s := w.s, control := w.control)
    && SameSection(v.control, w.control)
  }

  lemma DropsRefl(c: Client, v: View, db: OwnedDatabase)
    ensures DropsAtMost(c, v, v, db)
  {
    MovesRefl(v.s, Some(c));
  }

  lemma DropsPaused(c: Client, v: View, w: View, x: View, db: OwnedDatabase)
    requires DropsAtMost(c, v, w, db) && Moves(w.s, x.s, None) && SameContent(w.s, x.s) && Consistent(w.s)
    requires x == w.(s := x.s, control := x.control) && SameSection(w.control, x.control)
    ensures DropsAtMost(c, v, x, db)
  {
    assert v.s.mine <= w.s.mine;
    DropsOnlyWaits(c, v.s, w.s, x.s, db.oid, db.owner);
    MovesAlone(w.s, x.s, Some(c));
    MovesTransitive(v.s, w.s, x.s, Some(c));
    ContentTransitive(v.s, w.s, x.s);
    hide Moves, SameContent, DropsOnly;
  }

  lemma DropsOnlyWaits(c: Client, s: ServerState, t: ServerState, u: ServerState, o: Oid, owner: Owner)
    requires DropsOnly(s, t, o, owner, c) && Moves(t, u, None) && Moves(s, t, Some(c))
    ensures DropsOnly(s, u, o, owner, c)
  {
    hide Grows, Settles;
  }

  lemma DroppedSoFar(c: Client, v: View, x: View, y: View, db: OwnedDatabase)
    requires Moves(v.s, x.s, Some(c)) && SameContent(v.s, x.s) && Consistent(x.s)
    requires DropsOnly(v.s, x.s, db.oid, db.owner, c)
    requires x == v.(s := x.s, control := x.control) && y == x.(s := y.s, control := y.control)
    requires Moves(x.s, y.s, None) && SameContent(x.s, y.s)
    requires SameSection(v.control, y.control)
    ensures DropsAtMost(c, v, y, db)
  {
    assert v.s.mine <= x.s.mine;
    DropsOnlyWaits(c, v.s, x.s, y.s, db.oid, db.owner);
    MovesAlone(x.s, y.s, Some(c));
    MovesTransitive(v.s, x.s, y.s, Some(c));
    ContentTransitive(v.s, x.s, y.s);
    hide Moves, SameContent, DropsOnly;
  }

  // ---- creating, step by step ----

  /** What one call may observe and change: the client's fields, the server and the flags. */
  datatype View = StoreView(owned: map<Name, OwnedDatabase>, unproven: set<Name>, frozen: set<Oid>,
                            dropped: nat, alreadyAbsent: nat, uncounted: nat, cleanupFailures: nat,
                            s: ServerState, control: Control)

  /** Sections and commit are as before. */
  ghost predicate SameSection(c: Control, d: Control) {
    d.depth == c.depth && d.committed == c.committed && d.active == c.active && (c.delivered ==> d.delivered)
  }

  /** Creating a database under `n` records at most that database and leaves at most its name
      unproven; nothing else of the client changes. */
  ghost predicate CreatesOnly(c: Client, v: View, w: View, n: Name) {
    && Moves(v.s, w.s, Some(c)) && SameContent(v.s, w.s)
    && (w.owned == v.owned || (n in w.owned && n !in v.owned && w.owned == v.owned[n := w.owned[n]]))
    && v.unproven <= w.unproven + {n} && w.unproven <= v.unproven + {n}
    && w == v.(owned := w.owned, unproven := w.unproven, s := w.s, control := w.control)
    && SameSection(v.control, w.control) && Dropless(v.s, w.s)
  }

  /** What was newly dropped was recorded in `owned`, with that OID and owner. */
  ghost predicate DropsAmong(c: Client, s: ServerState, t: ServerState, owned: map<Name, OwnedDatabase>) {
    && (forall o :: o in t.dropped && o !in s.dropped && o !in s.dropping ==> Among(c, owned, o, t.dropped[o]))
    && (forall o :: o in t.dropping && o !in s.dropping ==> Among(c, owned, o, t.dropping[o]))
  }

  ghost predicate Among(c: Client, owned: map<Name, OwnedDatabase>, o: Oid, e: Entry) {
    exists n :: n in owned && owned[n].oid == o && Shown(e) == OwnedEntry(o, owned[n].owner, c)
  }

  lemma DropsAmongOne(c: Client, s: ServerState, t: ServerState, owned: map<Name, OwnedDatabase>, db: OwnedDatabase)
    requires DropsOnly(s, t, db.oid, db.owner, c) && db.name in owned && owned[db.name] == db
    ensures DropsAmong(c, s, t, owned)
  {
  }

  lemma DropsAmongThen(c: Client, s: ServerState, t: ServerState, u: ServerState, owned: map<Name, OwnedDatabase>)
    requires DropsAmong(c, s, t, owned) && Dropless(t, u)
    ensures DropsAmong(c, s, u, owned)
  {
  }

  lemma DropsAmongNone(c: Client, s: ServerState, t: ServerState, owned: map<Name, OwnedDatabase>)
    requires Dropless(s, t)
    ensures DropsAmong(c, s, t, owned)
  {
  }

  lemma ContentTransitive(s: ServerState, t: ServerState, u: ServerState)
    requires SameContent(s, t) && SameContent(t, u) && s.mine <= t.mine
    ensures SameContent(s, u)
  {
  }

  lemma CreatesTransitive(c: Client, v: View, w: View, x: View, n: Name)
    requires CreatesOnly(c, v, w, n) && CreatesOnly(c, w, x, n) && Consistent(w.s)
    ensures CreatesOnly(c, v, x, n)
  {
    assert v.s.mine <= w.s.mine;
    MovesTransitive(v.s, w.s, x.s, Some(c));
    ContentTransitive(v.s, w.s, x.s);
    DroplessTransitive(v.s, w.s, x.s);
    hide Moves, SameContent, Dropless;
  }

  lemma CreatesRefl(c: Client, v: View, n: Name)
    ensures CreatesOnly(c, v, v, n)
  {
    MovesRefl(v.s, Some(c));
  }

  lemma Untracked(c: Client, owned: map<Name, OwnedDatabase>, unproven: set<Name>, s: ServerState, n: Name)
    requires Tracked(c, owned, unproven, s) && IssuedBy(c, s, n) && n !in owned && n !in unproven
    ensures NotOurs(c, s, n)
  {
  }

  /** Recording the database is the last step of creating it. */
  lemma RegisteredCreatesOnly(c: Client, v: View, x: View, y: View, n: Name)
    requires CreatesOnly(c, v, x, n) && v.owned == x.owned && n !in v.owned && Consistent(x.s)
    requires n in y.owned && y.owned == x.owned[n := y.owned[n]] && y.unproven == x.unproven - {n}
    requires y == x.(owned := y.owned, unproven := y.unproven, s := y.s)
    requires Moves(x.s, y.s, Some(c)) && SameContent(x.s, y.s)
    requires y.s.dropped == x.s.dropped && y.s.dropping == x.s.dropping
    ensures CreatesOnly(c, v, y, n)
  {
    assert v.s.mine <= x.s.mine;
    MovesTransitive(v.s, x.s, y.s, Some(c));
    ContentTransitive(v.s, x.s, y.s);
    hide Moves, SameContent, Consistent;
  }

  lemma UnprovenCreatesOnly(c: Client, v: View, w: View, n: Name)
    requires w == v.(unproven := v.unproven + {n}, s := Lists(v.s, n, true)) && IssuedBy(c, v.s, n)
    ensures CreatesOnly(c, v, w, n)
  {
    ListMoves(v.s, n, true, c);
    hide Moves, Dropless;
  }

  lemma ForgetCreatesOnly(c: Client, v: View, w: View, x: View, n: Name)
    requires CreatesOnly(c, v, w, n) && Consistent(w.s) && IssuedBy(c, w.s, n)
    requires x == w.(unproven := w.unproven - {n}, s := Lists(w.s, n, false))
    requires v.unproven <= w.unproven && w.owned == v.owned
    ensures CreatesOnly(c, v, x, n)
  {
    ListMoves(w.s, n, false, c);
    assert v.s.mine <= w.s.mine;
    MovesTransitive(v.s, w.s, x.s, Some(c));
    DroplessTransitive(v.s, w.s, x.s);
    hide Moves, Dropless, Consistent;
  }

  lemma IssueCreatesOnly(c: Client, v: View, w: View, n: Name)
    requires w == v.(s := w.s) && Moves(v.s, w.s, Some(c))
    requires w.s == v.s.(issuedTo := w.s.issuedTo)
    ensures CreatesOnly(c, v, w, n)
  {
  }

  lemma PausedCreatesOnly(c: Client, v: View, w: View, n: Name)
    requires Moves(v.s, w.s, None) && SameContent(v.s, w.s)
    requires w == v.(s := w.s, control := w.control) && SameSection(v.control, w.control)
    ensures CreatesOnly(c, v, w, n)
  {
    MovesAlone(v.s, w.s, Some(c));
    AloneDropless(v.s, w.s);
    hide Moves, SameContent, Dropless;
  }

  lemma TouchCreatesOnly(c: Client, v: View, w: View, n: Name)
    requires Moves(v.s, w.s, Some(c)) && TouchesOnly(v.s, w.s, n) && Consistent(v.s)
    requires w == v.(s := w.s)
    ensures CreatesOnly(c, v, w, n)
  {
    hide Moves;
  }

  lemma NotOursMeans(c: Client, s: ServerState, n: Name)
    requires NotOurs(c, s, n)
    ensures n in s.issuedTo && s.issuedTo[n] == c && n !in s.running
  {
  }

  lemma NotRunningStays(c: Client, s: ServerState, t: ServerState, n: Name)
    requires IssuedBy(c, s, n) && n !in s.running && Moves(s, t, None)
    ensures IssuedBy(c, t, n) && n !in t.running
    ensures n !in t.catalog ==> NotOurs(c, t, n)
  {
    assert NotOf(t, None, n);
  }

  lemma OnlyMadeNow(c: Client, s: ServerState, t: ServerState, n: Name)
    requires NotOurs(c, s, n) && Consistent(t) && TouchesOnly(s, t, n)
    requires n in t.catalog && n !in t.running && t.catalog[n].oid in t.mine
    ensures OnlyMade(c, t, n, t.catalog[n].oid)
  {
  }

  lemma TemplateContent(c: Client, v: View, w: View, x: View, template: OwnedDatabase, made: Oid)
    requires Moves(v.s, w.s, None) && SameContent(v.s, w.s) && Consistent(v.s) && Consistent(w.s)
    requires Tracked(c, w.owned, w.unproven, w.s) && Tracked(c, v.owned, v.unproven, v.s) && v.owned == w.owned
    requires template.name in w.owned && w.owned[template.name] == template
    requires Moves(w.s, x.s, Some(c)) && x.s.squatted == {}
    requires template.name in w.s.catalog && made in x.s.content && w.s.catalog[template.name].oid in w.s.content
    requires x.s.content[made] == w.s.content[w.s.catalog[template.name].oid]
    ensures template.oid in v.s.content && x.s.content[made] == v.s.content[template.oid]
  {
    hide Settles, Drops;
    assert w.s.squatted == {} && v.s.squatted == {};
    assert w.s.catalog[template.name].oid in w.s.mine;
    assert w.s.catalog[template.name].oid == template.oid;
    assert template.oid in v.s.mine;
  }

  lemma ContentKnown(c: Client, s: ServerState, n: Name, made: Oid)
    requires OnlyMade(c, s, n, made) && Consistent(s)
    ensures made in s.content
  {
  }

  lemma ContentKnownAt(s: ServerState, n: Name)
    requires Consistent(s)
    ensures n in s.catalog ==> s.catalog[n].oid in s.content
  {
  }

  lemma MadeContentStays(c: Client, s: ServerState, t: ServerState, n: Name, made: Oid)
    requires OnlyMade(c, s, n, made) && SameContent(s, t) && Consistent(s) && Moves(s, t, None)
    ensures made in s.content && made in t.content && t.content[made] == s.content[made]
    ensures t.squatted == {} ==> s.squatted == {}
  {
    hide Settles, Drops;
  }

  lemma LeftCreatesOnly(c: Client, v: View, w: View, x: View, n: Name)
    requires CreatesOnly(c, v.(control := v.control.(depth := v.control.depth + 1)), w, n)
    requires Moves(w.s, x.s, None) && SameContent(w.s, x.s) && Consistent(w.s)
    requires x == w.(s := x.s, control := x.control)
    requires SameSection(v.control, x.control)
    ensures CreatesOnly(c, v, x, n)
  {
    AloneDropless(w.s, x.s);
    DroplessTransitive(v.s, w.s, x.s);
    MovesAlone(w.s, x.s, Some(c));
    assert v.s.mine <= w.s.mine;
    MovesTransitive(v.s, w.s, x.s, Some(c));
    ContentTransitive(v.s, w.s, x.s);
    hide Moves, SameContent;
  }

  lemma RecordedStays(c: Client, s: ServerState, t: ServerState, n: Name, made: Oid)
    requires OnlyMade(c, s, n, made) && Consistent(s) && Consistent(t) && Moves(s, t, None)
    ensures n !in t.running && (t.squatted == {} ==> s.squatted == {})
  {
    OnlyMadeStays(c, s, t, n, made);
    hide Settles, Drops;
  }

  lemma SquattedGrows(s: ServerState, t: ServerState)
    requires Moves(s, t, None)
    ensures t.squatted == {} ==> s.squatted == {}
  {
    hide Settles, Drops;
  }

  lemma Issued(c: Client, v: View, w: View, x: View, n: Name)
    requires w.owned == v.owned && n !in v.owned && CreatesOnly(c, w, x, n)
    ensures n in x.owned && n !in w.owned ==> x.owned == v.owned[n := x.owned[n]]
  {
  }

  /** From the template before the call to the recorded clone after it. */
  lemma ContentCarried(c: Client, v: View, y: View, x: View, z: View, n: Name, template: OwnedDatabase, made: Oid)
    requires CreatesOnly(c, v, y, n) && CreatesOnly(c, y, x, n) && CreatesOnly(c, x, z, n) && z.s.squatted == {}
    requires Consistent(v.s) && Tracked(c, v.owned, v.unproven, v.s)
    requires template.name in v.owned && v.owned[template.name] == template
    requires OnlyMade(c, x.s, n, made) && Consistent(x.s) && made in x.s.content && template.oid in y.s.content
    requires x.s.content[made] == y.s.content[template.oid]
    ensures made in z.s.content && template.oid in v.s.content && z.s.content[made] == v.s.content[template.oid]
  {
    assert v.s.squatted <= y.s.squatted <= x.s.squatted <= z.s.squatted;
    assert Recorded(c, template, template.name, v.s);
    hide Settles, Drops, Tracked;
  }

  lemma NoSquatters(c: Client, v: View, w: View, n: Name)
    requires CreatesOnly(c, v, w, n) && w.s.squatted == {}
    ensures v.s.squatted == {}
  {
    hide Settles, Drops;
  }

  lemma NotRecorded(c: Client, v: View, w: View, n: Name)
    requires CreatesOnly(c, v, w, n) && Tracked(c, w.owned, w.unproven, w.s) && n in w.unproven
    ensures w.owned == v.owned
  {
  }

  lemma IssuedStays(c: Client, v: View, w: View, n: Name)
    requires CreatesOnly(c, v, w, n) && IssuedBy(c, v.s, n)
    ensures IssuedBy(c, w.s, n)
  {
    hide Settles, Drops;
  }

  // ---- removing, step by step ----

  lemma DropsPopped(c: Client, v: View, w: View, x: View, db: OwnedDatabase)
    requires DropsAtMost(c, v, w, db) && w.owned == v.owned && Consistent(w.s) && IssuedBy(c, w.s, db.name)
    requires x == w.(owned := v.owned - {db.name}, s := Lists(w.s, db.name, false))
    ensures DropsAtMost(c, v, x, db)
  {
    ListMoves(w.s, db.name, false, c);
    DropsOnlyListed(v.s, w.s, db.name, false, db.oid, db.owner, c);
    hide Moves, Consistent, DropsOnly, Dropless;
    MovesTransitive(v.s, w.s, x.s, Some(c));
  }

  lemma DropsCounted(c: Client, v: View, w: View, x: View, db: OwnedDatabase)
    requires DropsAtMost(c, v, w, db)
    requires x == w.(dropped := x.dropped, alreadyAbsent := x.alreadyAbsent, uncounted := x.uncounted,
                     cleanupFailures := x.cleanupFailures)
    ensures DropsAtMost(c, v, x, db)
  {
    hide Moves, SameContent, DropsOnly;
  }

  lemma RecordedNames(c: Client, owned: map<Name, OwnedDatabase>, unproven: set<Name>, s: ServerState)
    requires Tracked(c, owned, unproven, s)
    ensures forall n :: n in owned ==> owned[n].name == n
  {
    assert forall n :: n in owned ==> Recorded(c, owned[n], n, s);
  }

  /** Unless somebody took the name, it leads to the recorded database. */
  lemma NamesItself(c: Client, owned: map<Name, OwnedDatabase>, unproven: set<Name>, s: ServerState, n: Name)
    requires Tracked(c, owned, unproven, s) && Consistent(s) && n in owned
    ensures s.squatted == {} && n in s.catalog ==> s.catalog[n].oid == owned[n].oid
    ensures n in s.catalog ==> s.catalog[n].oid in s.content
  {
    assert Recorded(c, owned[n], n, s);
  }

  /** The content of a recorded database waits with it. */
  lemma RecordedContent(c: Client, owned: map<Name, OwnedDatabase>, unproven: set<Name>,
                        s: ServerState, t: ServerState, n: Name)
    requires Tracked(c, owned, unproven, s) && Consistent(s) && Moves(s, t, None) && SameContent(s, t) && n in owned
    ensures t.squatted == {} ==>
      && owned[n].oid in s.content && owned[n].oid in t.content
      && t.content[owned[n].oid] == s.content[owned[n].oid]
  {
    assert Recorded(c, owned[n], n, s);
    hide Settles, Drops;
  }

  lemma FirstName(c: Client, s: ServerState, t: ServerState, n: Name)
    requires forall m :: m in s.issuedTo ==> s.issuedTo[m] != c
    requires Consistent(s) && n !in s.issuedTo && n !in s.listed && t == s.(issuedTo := s.issuedTo[n := c])
    requires forall o :: o in s.home ==> s.home[o] != n
    ensures Tracked(c, map[], {}, t) && IssuedBy(c, t, n)
  {
    NothingTracked(c, s);
    TrackedIssue(c, map[], {}, s, t, n);
    hide Tracked, Consistent;
  }

  /** Before a client issues its first name there is nothing to track. */
  lemma NothingTracked(c: Client, s: ServerState)
    requires forall n :: n in s.issuedTo ==> s.issuedTo[n] != c
    ensures Tracked(c, map[], {}, s)
  {
  }
}
