/** The PostgreSQL server as the run sees it: a catalog other people also change, statements
    whose replies can be lost, and CREATE DATABASE statements that finish late.

    Assumptions stated here: OIDs are never reused; nobody renames a database; nobody but
    this run writes this run's markers; nobody but this run writes into its databases; a
    reply with a SQLSTATE means the statement has ended. */
module Server {
  import opened Wrappers
  import opened Schema

  datatype Name = Name(id: nat)

  type Owner = nat

  datatype Oid = Oid(n: nat)

  /** Which object of the run issued a name. Each writes its own marker. */
  datatype Client = WorkspaceClient | StoreClient

  datatype Marker = Unmarked | Foreign(text: int) | Of(client: Client)

  /** An identity the run read back after a CREATE and recorded. */
  datatype Record = Identified(oid: Oid, owner: Owner)

  datatype Entry = Entry(oid: Oid, owner: Owner, marker: Marker, allowConn: bool)

  datatype ServerState = ServerState(
    catalog: map<Name, Entry>,
    nextOid: nat,
    running: map<Name, Content>,     // CREATE statements of this run still at work
    content: map<Oid, Content>,
    // history, for stating what happened
    home: map<Oid, Name>,            // the name each database was created under
    issuedTo: map<Name, Client>,     // names this run generated
    mine: set<Oid>,                  // databases this run's CREATE statements made
    squatted: set<Name>,             // generated names under which somebody else made one
    recorded: set<Record>,           // identities this run recorded as its own
    listed: set<Name>,               // names the run's objects list as possible leftovers
    dropping: map<Oid, Entry>,       // DROP statements of this run still at work, as checked
    dropped: map<Oid, Entry>)        // databases this run's DROP statements removed, as checked

  ghost predicate Allocated(s: ServerState, o: Oid) {
    o.n < s.nextOid
  }

  ghost predicate Consistent(s: ServerState) {
    && (forall n :: n in s.catalog ==> s.catalog[n].oid in s.home && s.home[s.catalog[n].oid] == n)
    && (forall o :: o in s.home ==> Allocated(s, o) && o in s.content)
    && (forall o :: o in s.mine ==> o in s.home && s.home[o] in s.issuedTo)
    && (forall n :: n in s.running ==> n in s.issuedTo)
    && (forall n :: n in s.catalog && n in s.issuedTo && s.catalog[n].oid !in s.mine ==> n in s.squatted)
    && (forall o :: o in s.dropped || o in s.dropping ==> o in s.home && s.home[o] in s.issuedTo)
    && (forall n :: n in s.catalog ==> s.catalog[n].oid !in s.dropped)
    && (forall r :: r in s.recorded ==> Proven(s, r.oid))
  }

  /** Under a name of this run; made by this run, or under a name somebody else had taken. */
  ghost predicate Proven(s: ServerState, o: Oid) {
    o in s.home && s.home[o] in s.issuedTo && (o in s.mine || s.home[o] in s.squatted)
  }

  /** A database this run may drop: checked under the OID and owner it recorded and the marker
      of the client that issued its name. */
  ghost predicate Droppable(s: ServerState, o: Oid, e: Entry) {
    && o in s.home && s.home[o] in s.issuedTo
    && e.oid == o && e.marker == Of(s.issuedTo[s.home[o]])
    && Identified(o, e.owner) in s.recorded
  }

  lemma CatalogContent(s: ServerState)
    requires Consistent(s)
    ensures forall n :: n in s.catalog ==> s.catalog[n].oid in s.content
  {
  }

  lemma CatalogAllocated(s: ServerState)
    requires Consistent(s)
    ensures forall n :: n in s.catalog ==> s.catalog[n].oid.n < s.nextOid
  {
    forall n | n in s.catalog ensures s.catalog[n].oid.n < s.nextOid {
      assert Allocated(s, s.catalog[n].oid);
    }
  }

  ghost predicate SafeDrops(s: ServerState) {
    && (forall o :: o in s.dropped ==> Droppable(s, o, s.dropped[o]))
    && (forall o :: o in s.dropping ==> Droppable(s, o, s.dropping[o]))
  }

  // ---- what others do, and what late statements do ----

  datatype EnvEvent =
    | ForeignCreate(name: Name, owner: Owner, marker: Marker, data: Content)
    | ForeignDrop(name: Name)
    | ForeignAlter(name: Name, owner: Owner, comment: Option<Marker>, allowConn: bool)
    | ForeignWrite(oid: Oid, data: Content)
    | LateFinish(name: Name)
    | LateFail(name: Name)
    | LateDrop(name: Name)

  /** A new database under a free name. */
  function Born(s: ServerState, n: Name, owner: Owner, marker: Marker, data: Content, ours: bool): ServerState {
    var o := Oid(s.nextOid);
    s.(catalog := s.catalog[n := Entry(o, owner, marker, true)],
       nextOid := s.nextOid + 1,
       content := s.content[o := data],
       home := s.home[o := n],
       mine := if ours then s.mine + {o} else s.mine,
       squatted := if !ours && n in s.issuedTo then s.squatted + {n} else s.squatted)
  }

  function Apply(s: ServerState, e: EnvEvent): ServerState {
    match e
    case ForeignCreate(n, owner, marker, data) =>
      if n in s.catalog || marker.Of? then s else Born(s, n, owner, marker, data, false)
    case ForeignDrop(n) => s.(catalog := s.catalog - {n})
    case ForeignAlter(n, owner, marker, allow) =>
      if n !in s.catalog || (marker.Some? && marker.value.Of?) then s
      else
        var m := if marker.Some? then marker.value else s.catalog[n].marker;
        s.(catalog := s.catalog[n := Entry(s.catalog[n].oid, owner, m, allow)])
    case ForeignWrite(o, data) =>
      if o in s.mine || o !in s.home then s else s.(content := s.content[o := data])
    case LateFinish(n) =>
      if n !in s.running then s
      else if n in s.catalog then s.(running := s.running - {n})
      else Born(s, n, 0, Unmarked, s.running[n], true).(running := s.running - {n})
    case LateFail(n) => s.(running := s.running - {n})
    case LateDrop(n) =>
      if n in s.catalog && s.catalog[n].oid in s.dropping then Gone(s, n, s.dropping[s.catalog[n].oid]) else s
  }

  /** A DROP of this run takes effect. */
  function Gone(s: ServerState, n: Name, checked: Entry): ServerState
    requires n in s.catalog
  {
    var o := s.catalog[n].oid;
    s.(catalog := s.catalog - {n}, dropped := s.dropped[o := checked], dropping := s.dropping - {o})
  }

  // ---- how far a state can move ----

  /** Name `n` is not one of `c`'s. */
  ghost predicate NotOf(s: ServerState, c: Option<Client>, n: Name) {
    c.None? || n !in s.issuedTo || s.issuedTo[n] != c.value
  }

  /** Histories only grow, and only `c` issues names and changes which of its names are listed. */
  ghost predicate Grows(s: ServerState, t: ServerState, c: Option<Client>) {
    && s.nextOid <= t.nextOid && s.mine <= t.mine && s.squatted <= t.squatted && s.recorded <= t.recorded
    && (forall o :: o in s.home ==> o in t.home && t.home[o] == s.home[o])
    && (forall o :: o in t.home && o !in s.home ==> o.n >= s.nextOid)
    && (forall n :: n in s.issuedTo ==> n in t.issuedTo && t.issuedTo[n] == s.issuedTo[n])
    && (forall n :: n in t.issuedTo && n !in s.issuedTo ==> c.Some? && t.issuedTo[n] == c.value)
    && (forall n :: NotOf(t, c, n) ==> (n in s.listed <==> n in t.listed))
  }

  /** A name keeps its database or gets a new OID; under the names of the others a database of
      this run appears only from a CREATE that was still running, and keeps its content. */
  ghost predicate Settles(s: ServerState, t: ServerState, c: Option<Client>) {
    && (forall n :: n in t.running && NotOf(t, c, n) ==> n in s.running && t.running[n] == s.running[n])
    && (forall n :: n in t.catalog ==>
         || t.catalog[n].oid.n >= s.nextOid
         || (n in s.catalog && t.catalog[n].oid == s.catalog[n].oid))
    && (forall o :: o in t.mine && o !in s.mine && o in t.home ==> o.n >= s.nextOid)
    && (forall o :: o in t.mine && o !in s.mine && o in t.home && NotOf(t, c, t.home[o]) ==>
         && t.home[o] in s.running && t.home[o] !in t.running
         && o in t.content && t.content[o] == s.running[t.home[o]])
    && (forall o :: o in s.mine && o in s.home && NotOf(t, c, s.home[o]) && o in s.content ==>
         o in t.content && t.content[o] == s.content[o])
  }

  /** Only `c` starts drops and records identities. */
  ghost predicate Drops(s: ServerState, t: ServerState, c: Option<Client>) {
    && (forall o :: o in s.dropped ==> o in t.dropped && t.dropped[o] == s.dropped[o])
    && (forall o :: o in t.dropped && o !in s.dropped ==>
         || (o in s.dropping && t.dropped[o] == s.dropping[o])
         || (o in t.home && !NotOf(t, c, t.home[o])))
    && (forall o :: o in t.dropping ==>
         || (o in s.dropping && t.dropping[o] == s.dropping[o])
         || (o in t.home && !NotOf(t, c, t.home[o])))
    && (forall r :: r in t.recorded && r !in s.recorded ==> r.oid in t.home && !NotOf(t, c, t.home[r.oid]))
  }

  /** Nobody starts a drop: databases go only by drops that were already at work. */
  ghost predicate Dropless(s: ServerState, t: ServerState) {
    && (forall o :: o in s.dropped ==> o in t.dropped && t.dropped[o] == s.dropped[o])
    && (forall o :: o in t.dropped && o !in s.dropped ==> o in s.dropping && t.dropped[o] == s.dropping[o])
    && (forall o :: o in t.dropping ==> o in s.dropping && t.dropping[o] == s.dropping[o])
  }

  lemma AloneDropless(s: ServerState, t: ServerState)
    requires Moves(s, t, None)
    ensures Dropless(s, t)
  {
    hide Grows, Settles;
  }

  lemma DroplessTransitive(s: ServerState, t: ServerState, u: ServerState)
    requires Dropless(s, t) && Dropless(t, u)
    ensures Dropless(s, u)
  {
  }

  /** `t` can follow `s` when, besides the environment, only client `c` (if any) acts. */
  ghost predicate Moves(s: ServerState, t: ServerState, c: Option<Client>) {
    Grows(s, t, c) && Settles(s, t, c) && Drops(s, t, c)
  }

  /** From `s` to `t` no client created, issued or wrote anything (it may have dropped). */
  ghost predicate Creationless(s: ServerState, t: ServerState) {
    Grows(s, t, None) && Settles(s, t, None)
  }

  lemma CreationlessTransitive(s: ServerState, t: ServerState, u: ServerState)
    requires Creationless(s, t) && Creationless(t, u) && Consistent(t)
    ensures Creationless(s, u)
  {
    GrowsTransitive(s, t, u, None);
    SettlesTransitive(s, t, u, None);
    hide Consistent, Grows, Settles;
  }

  lemma MovesRefl(s: ServerState, c: Option<Client>)
    ensures Moves(s, s, c) && Creationless(s, s)
  {
  }

  lemma GrowsTransitive(s: ServerState, t: ServerState, u: ServerState, c: Option<Client>)
    requires Grows(s, t, c) && Grows(t, u, c)
    ensures Grows(s, u, c)
  {
  }

  lemma SettlesTransitive(s: ServerState, t: ServerState, u: ServerState, c: Option<Client>)
    requires Grows(s, t, c) && Grows(t, u, c) && Settles(s, t, c) && Settles(t, u, c)
    requires Consistent(t)
    ensures Settles(s, u, c)
  {
    RunningTransitive(s, t, u, c);
    CatalogTransitive(s, t, u, c);
    MadeTransitive(s, t, u, c);
    ContentsTransitive(s, t, u, c);
    hide Grows, Consistent;
  }

  lemma RunningTransitive(s: ServerState, t: ServerState, u: ServerState, c: Option<Client>)
    requires Grows(t, u, c) && Settles(s, t, c) && Settles(t, u, c)
    ensures forall n :: n in u.running && NotOf(u, c, n) ==> n in s.running && u.running[n] == s.running[n]
  {
    forall n | n in u.running && NotOf(u, c, n) ensures n in s.running && u.running[n] == s.running[n] {
      assert NotOf(t, c, n);
    }
  }

  lemma CatalogTransitive(s: ServerState, t: ServerState, u: ServerState, c: Option<Client>)
    requires Grows(s, t, c) && Settles(s, t, c) && Settles(t, u, c)
    ensures forall n :: n in u.catalog ==>
      u.catalog[n].oid.n >= s.nextOid || (n in s.catalog && u.catalog[n].oid == s.catalog[n].oid)
  {
  }

  lemma MadeTransitive(s: ServerState, t: ServerState, u: ServerState, c: Option<Client>)
    requires Grows(s, t, c) && Grows(t, u, c) && Settles(s, t, c) && Settles(t, u, c) && Consistent(t)
    ensures forall o :: o in u.mine && o !in s.mine && o in u.home ==> o.n >= s.nextOid
    ensures forall o :: o in u.mine && o !in s.mine && o in u.home && NotOf(u, c, u.home[o]) ==>
      && u.home[o] in s.running && u.home[o] !in u.running
      && o in u.content && u.content[o] == s.running[u.home[o]]
  {
    forall o | o in u.mine && o !in s.mine && o in u.home ensures o.n >= s.nextOid {
      if o in t.mine { assert o in t.home; }
    }
    forall o | o in u.mine && o !in s.mine && o in u.home && NotOf(u, c, u.home[o])
      ensures u.home[o] in s.running && u.home[o] !in u.running
      ensures o in u.content && u.content[o] == s.running[u.home[o]]
    {
      assert NotOf(t, c, u.home[o]);
      if o in t.mine { assert o in t.home && t.home[o] == u.home[o]; }
    }
  }

  lemma ContentsTransitive(s: ServerState, t: ServerState, u: ServerState, c: Option<Client>)
    requires Grows(s, t, c) && Grows(t, u, c) && Settles(s, t, c) && Settles(t, u, c)
    ensures forall o :: o in s.mine && o in s.home && NotOf(u, c, s.home[o]) && o in s.content ==>
      o in u.content && u.content[o] == s.content[o]
  {
    forall o | o in s.mine && o in s.home && NotOf(u, c, s.home[o]) && o in s.content
      ensures o in u.content && u.content[o] == s.content[o]
    {
      assert NotOf(t, c, s.home[o]);
    }
  }

  lemma DropsTransitive(s: ServerState, t: ServerState, u: ServerState, c: Option<Client>)
    requires Grows(t, u, c) && Drops(s, t, c) && Drops(t, u, c)
    requires Consistent(t)
    ensures Drops(s, u, c)
  {
    forall o | o in t.home && !NotOf(t, c, t.home[o]) ensures !NotOf(u, c, u.home[o]) {}
  }

  lemma MovesTransitive(s: ServerState, t: ServerState, u: ServerState, c: Option<Client>)
    requires Consistent(t) && Moves(s, t, c) && Moves(t, u, c)
    ensures Moves(s, u, c)
  {
    hide Consistent, SafeDrops, Grows, Settles, Drops, Droppable;
    GrowsTransitive(s, t, u, c);
    SettlesTransitive(s, t, u, c);
    DropsTransitive(s, t, u, c);
  }

  lemma GrowsAlone(s: ServerState, t: ServerState, c: Option<Client>)
    requires Grows(s, t, None)
    ensures Grows(s, t, c)
  {
  }

  /** The environment may act whoever else acts. */
  lemma MovesAlone(s: ServerState, t: ServerState, c: Option<Client>)
    requires Moves(s, t, None)
    ensures Moves(s, t, c)
  {
  }

  /** Then the environment alone. */
  lemma MovesThenAlone(s: ServerState, t: ServerState, u: ServerState, c: Option<Client>)
    requires Consistent(t) && Moves(s, t, c) && Moves(t, u, None)
    ensures Moves(s, u, c)
  {
    MovesAlone(t, u, c);
    MovesTransitive(s, t, u, c);
    hide Consistent, Moves;
  }

  lemma SquattingGrows(s: ServerState, t: ServerState, c: Option<Client>)
    requires Moves(s, t, c) && t.squatted == {}
    ensures s.squatted == {}
  {
  }

  /** A step of the environment keeps what the run relies on. */
  ghost predicate Kept(s: ServerState, t: ServerState) {
    Consistent(t) && SafeDrops(t) && Moves(s, t, None)
  }

  /** Drops stay safe while only histories grow. */
  lemma SafeStays(s: ServerState, t: ServerState, c: Option<Client>)
    requires SafeDrops(s) && Grows(s, t, c) && t.dropped == s.dropped && t.dropping == s.dropping
    ensures SafeDrops(t)
  {
  }

  lemma BornConsistent(s: ServerState, n: Name, owner: Owner, marker: Marker, data: Content, ours: bool)
    requires Consistent(s) && n !in s.catalog && (ours ==> n in s.issuedTo)
    ensures Consistent(Born(s, n, owner, marker, data, ours)) && Grows(s, Born(s, n, owner, marker, data, ours), None)
  {
    hide Grows, Proven;
    BornGrows(s, n, owner, marker, data, ours);
    var t, o := Born(s, n, owner, marker, data, ours), Oid(s.nextOid);
    forall p | p in t.home ensures Allocated(t, p) && p in t.content {
      if p != o { assert Allocated(s, p); }
    }
    forall m | m in t.catalog ensures t.catalog[m].oid in t.home && t.home[t.catalog[m].oid] == m {
      if m != n { assert s.catalog[m].oid in s.home; }
    }
    forall r | r in t.recorded ensures Proven(t, r.oid) {
      ProvenGrows(s, t, r.oid);
    }
  }

  lemma ProvenGrows(s: ServerState, t: ServerState, o: Oid)
    requires Proven(s, o) && Grows(s, t, None)
    ensures Proven(t, o)
  {
  }

  lemma BornGrows(s: ServerState, n: Name, owner: Owner, marker: Marker, data: Content, ours: bool)
    requires forall o :: o in s.home ==> Allocated(s, o)
    ensures Grows(s, Born(s, n, owner, marker, data, ours), None) && Oid(s.nextOid) !in s.home
  {
    assert Oid(s.nextOid) !in s.home;
  }

  lemma BornSettles(s: ServerState, n: Name, owner: Owner, marker: Marker, data: Content)
    requires Consistent(s) && n !in s.catalog
    ensures var t := Born(s, n, owner, marker, data, false); Settles(s, t, None) && Drops(s, t, None)
  {
    assert Oid(s.nextOid) !in s.home;
  }

  lemma LateFinishConsistent(s: ServerState, n: Name)
    requires Consistent(s) && n in s.running && n !in s.catalog
    ensures Consistent(Apply(s, LateFinish(n))) && Grows(s, Apply(s, LateFinish(n)), None)
  {
    hide Consistent, Grows;
    RunningIssued(s, n);
    var b := Born(s, n, 0, Unmarked, s.running[n], true);
    BornConsistent(s, n, 0, Unmarked, s.running[n], true);
    Stopped(s, b, n);
  }

  lemma RunningIssued(s: ServerState, n: Name)
    requires Consistent(s) && n in s.running
    ensures n in s.issuedTo
  {
  }

  lemma Stopped(s: ServerState, b: ServerState, n: Name)
    requires Consistent(b) && Grows(s, b, None)
    ensures var t := b.(running := s.running - {n}); s.running == b.running ==> Consistent(t) && Grows(s, t, None)
  {
  }

  lemma LateFinishSettles(s: ServerState, n: Name)
    requires Consistent(s) && n in s.running && n !in s.catalog
    ensures var t := Apply(s, LateFinish(n)); Settles(s, t, None) && Drops(s, t, None)
  {
    assert Oid(s.nextOid) !in s.home;
  }

  lemma IssueKeeps(s: ServerState, n: Name, c: Client)
    requires Consistent(s) && SafeDrops(s) && n !in s.issuedTo && n !in s.catalog && n !in s.running
    requires forall o :: o in s.home ==> s.home[o] != n
    ensures var t := s.(issuedTo := s.issuedTo[n := c]);
            Consistent(t) && SafeDrops(t) && Moves(s, t, Some(c))
  {
    hide SafeDrops, Droppable, Moves;
    IssueMoves(s, n, c);
    SafeStays(s, s.(issuedTo := s.issuedTo[n := c]), Some(c));
  }

  lemma IssueMoves(s: ServerState, n: Name, c: Client)
    requires n !in s.issuedTo
    ensures Moves(s, s.(issuedTo := s.issuedTo[n := c]), Some(c))
  {
  }

  /** Client `c` records an identity under one of its names. */
  lemma RecordKeeps(s: ServerState, r: Record, c: Client)
    requires Consistent(s) && SafeDrops(s) && Proven(s, r.oid) && s.issuedTo[s.home[r.oid]] == c
    ensures var t := s.(recorded := s.recorded + {r});
            Consistent(t) && SafeDrops(t) && Moves(s, t, Some(c)) && Drops(s, t, Some(c)) && Creationless(s, t)
  {
    hide Consistent, SafeDrops, Moves, Grows, Settles, Drops, Creationless;
    RecordMoves(s, r, c);
    RecordConsistent(s, r);
    RecordSafe(s, r);
  }

  lemma RecordConsistent(s: ServerState, r: Record)
    requires Consistent(s) && Proven(s, r.oid)
    ensures Consistent(s.(recorded := s.recorded + {r}))
  {
    hide Allocated;
    var t := s.(recorded := s.recorded + {r});
    forall o | o in t.home ensures Allocated(t, o) && o in t.content {
      assert Allocated(s, o);
      AllocatedBelow(s, t, o);
    }
    forall q | q in t.recorded ensures Proven(t, q.oid) {
      assert Proven(s, q.oid);
    }
  }

  lemma AllocatedBelow(s: ServerState, t: ServerState, o: Oid)
    requires Allocated(s, o) && s.nextOid <= t.nextOid
    ensures Allocated(t, o)
  {
  }

  lemma RecordSafe(s: ServerState, r: Record)
    requires SafeDrops(s)
    ensures SafeDrops(s.(recorded := s.recorded + {r}))
  {
  }

  lemma RecordMoves(s: ServerState, r: Record, c: Client)
    requires Proven(s, r.oid) && s.issuedTo[s.home[r.oid]] == c
    ensures var t := s.(recorded := s.recorded + {r});
            Moves(s, t, Some(c)) && Drops(s, t, Some(c)) && Creationless(s, t)
  {
  }

  /** A CREATE of client `c` takes effect. */
  lemma OwnCreate(s: ServerState, n: Name, data: Content, c: Client)
    requires Consistent(s) && SafeDrops(s) && n !in s.catalog && n in s.issuedTo && s.issuedTo[n] == c
    ensures var t := Born(s, n, 0, Unmarked, data, true);
            Consistent(t) && SafeDrops(t) && Moves(s, t, Some(c))
  {
    hide Consistent, SafeDrops, Grows, Settles, Drops, Droppable;
    var t := Born(s, n, 0, Unmarked, data, true);
    BornConsistent(s, n, 0, Unmarked, data, true);
    SafeStays(s, t, None);
    GrowsAlone(s, t, Some(c));
    OwnCreateSettles(s, n, data, c);
  }

  lemma OwnCreateSettles(s: ServerState, n: Name, data: Content, c: Client)
    requires Consistent(s) && n !in s.catalog && n in s.issuedTo && s.issuedTo[n] == c
    ensures var t := Born(s, n, 0, Unmarked, data, true); Settles(s, t, Some(c)) && Drops(s, t, Some(c))
  {
    assert Oid(s.nextOid) !in s.home;
  }

  /** A CREATE of client `c` goes on after its reply was lost. */
  lemma OwnCreateRuns(s: ServerState, n: Name, data: Content, c: Client)
    requires Consistent(s) && SafeDrops(s) && n in s.issuedTo && s.issuedTo[n] == c
    ensures var t := s.(running := s.running[n := data]);
            Consistent(t) && SafeDrops(t) && Moves(s, t, Some(c))
  {
    RunsConsistent(s, n, data);
    RunsMoves(s, n, data, c);
    SafeStays(s, s.(running := s.running[n := data]), Some(c));
    hide Consistent, Grows, Settles, Drops, SafeDrops;
  }

  lemma RunsConsistent(s: ServerState, n: Name, data: Content)
    requires Consistent(s) && n in s.issuedTo
    ensures Consistent(s.(running := s.running[n := data]))
  {
  }

  lemma RunsMoves(s: ServerState, n: Name, data: Content, c: Client)
    requires n in s.issuedTo && s.issuedTo[n] == c
    ensures var t := s.(running := s.running[n := data]);
            Grows(s, t, Some(c)) && Settles(s, t, Some(c)) && Drops(s, t, Some(c))
  {
  }

  /** A DROP of client `c` goes on after its reply was lost. */
  lemma OwnDropRuns(s: ServerState, o: Oid, checked: Entry, c: Client)
    requires Consistent(s) && SafeDrops(s) && Droppable(s, o, checked) && s.issuedTo[s.home[o]] == c
    ensures var t := s.(dropping := s.dropping[o := checked]);
            Consistent(t) && SafeDrops(t) && Moves(s, t, Some(c))
  {
    OwnDropSafe(s, o, checked);
    assert o in s.home && s.home[o] in s.issuedTo;
    hide SafeDrops, Droppable;
    MovesDropping(s, o, checked, c);
    hide Moves;
  }

  lemma MovesDropping(s: ServerState, o: Oid, checked: Entry, c: Client)
    requires o in s.home && s.home[o] in s.issuedTo && s.issuedTo[s.home[o]] == c
    ensures Moves(s, s.(dropping := s.dropping[o := checked]), Some(c))
  {
    DroppingGrows(s, o, checked, c);
    hide Grows, Settles;
  }

  lemma DroppingGrows(s: ServerState, o: Oid, checked: Entry, c: Client)
    ensures Grows(s, s.(dropping := s.dropping[o := checked]), Some(c))
    ensures Settles(s, s.(dropping := s.dropping[o := checked]), Some(c))
  {
  }

  lemma OwnDropSafe(s: ServerState, o: Oid, checked: Entry)
    requires SafeDrops(s) && Droppable(s, o, checked)
    ensures SafeDrops(s.(dropping := s.dropping[o := checked]))
  {
  }

  /** `t` differs from `s` only in that entries changed (but for their OIDs) or went, and
      statements stopped running. */
  ghost predicate Shrinks(s: ServerState, t: ServerState) {
    && t == s.(catalog := t.catalog, running := t.running)
    && (forall n :: n in t.catalog ==> n in s.catalog && t.catalog[n].oid == s.catalog[n].oid)
    && (forall n :: n in t.running ==> n in s.running && t.running[n] == s.running[n])
  }

  lemma ShrinkConsistent(s: ServerState, t: ServerState)
    requires Consistent(s) && Shrinks(s, t)
    ensures Consistent(t)
  {
  }

  lemma ShrinkMoves(s: ServerState, t: ServerState)
    requires Shrinks(s, t)
    ensures Grows(s, t, None) && Settles(s, t, None) && Drops(s, t, None)
  {
  }

  lemma ShrinkKeeps(s: ServerState, t: ServerState)
    requires Consistent(s) && SafeDrops(s) && Shrinks(s, t)
    ensures Kept(s, t)
  {
    ShrinkConsistent(s, t);
    ShrinkMoves(s, t);
    SafeStays(s, t, None);
    hide Consistent, SafeDrops, Grows, Settles, Drops;
  }

  /** Content of one database changes; `c` is whoever may write it. */
  lemma WriteKeeps(s: ServerState, o: Oid, data: Content, c: Option<Client>)
    requires Consistent(s) && SafeDrops(s) && o in s.home
    requires o !in s.mine || !NotOf(s, c, s.home[o])
    ensures var t := s.(content := s.content[o := data]);
            Consistent(t) && SafeDrops(t) && Moves(s, t, c)
  {
    WriteConsistent(s, o, data, c);
    WriteSettles(s, o, data, c);
    SafeStays(s, s.(content := s.content[o := data]), c);
    hide Consistent, SafeDrops, Grows, Settles, Drops;
  }

  lemma WriteConsistent(s: ServerState, o: Oid, data: Content, c: Option<Client>)
    requires Consistent(s) && o in s.home
    ensures var t := s.(content := s.content[o := data]);
            Consistent(t) && Grows(s, t, c) && Drops(s, t, c)
  {
  }

  lemma WriteSettles(s: ServerState, o: Oid, data: Content, c: Option<Client>)
    requires o in s.home && (o !in s.mine || !NotOf(s, c, s.home[o]))
    ensures Settles(s, s.(content := s.content[o := data]), c)
  {
  }

  lemma GoneConsistent(s: ServerState, n: Name, checked: Entry)
    requires Consistent(s) && SafeDrops(s) && n in s.catalog && Droppable(s, s.catalog[n].oid, checked)
    ensures Consistent(Gone(s, n, checked))
  {
    var o := s.catalog[n].oid;
    forall m | m in s.catalog - {n} ensures s.catalog[m].oid != o {
      assert s.home[s.catalog[m].oid] == m;
    }
  }

  lemma GoneCreationless(s: ServerState, n: Name, checked: Entry)
    requires n in s.catalog
    ensures Creationless(s, Gone(s, n, checked))
  {
  }

  lemma DroppingCreationless(s: ServerState, o: Oid, e: Entry)
    ensures Creationless(s, s.(dropping := s.dropping[o := e]))
  {
  }

  lemma GoneSafe(s: ServerState, n: Name, checked: Entry)
    requires SafeDrops(s) && n in s.catalog && Droppable(s, s.catalog[n].oid, checked)
    ensures SafeDrops(Gone(s, n, checked))
  {
    var t := Gone(s, n, checked);
    forall o, e | Droppable(s, o, e) ensures Droppable(t, o, e) {}
  }

  lemma GoneDrops(s: ServerState, n: Name, checked: Entry, c: Option<Client>)
    requires n in s.catalog && Droppable(s, s.catalog[n].oid, checked) && s.home[s.catalog[n].oid] == n
    requires (s.catalog[n].oid in s.dropping && s.dropping[s.catalog[n].oid] == checked) || !NotOf(s, c, n)
    requires s.catalog[n].oid !in s.dropped
    ensures Drops(s, Gone(s, n, checked), c)
  {
  }

  lemma SettlesAlone(s: ServerState, t: ServerState, c: Option<Client>)
    requires Settles(s, t, None)
    ensures Settles(s, t, c)
  {
  }

  lemma GoneMoves(s: ServerState, n: Name, checked: Entry, c: Option<Client>)
    requires Consistent(s) && SafeDrops(s) && n in s.catalog && Droppable(s, s.catalog[n].oid, checked)
    requires (s.catalog[n].oid in s.dropping && s.dropping[s.catalog[n].oid] == checked) || !NotOf(s, c, n)
    ensures SafeDrops(Gone(s, n, checked)) && Moves(s, Gone(s, n, checked), c)
  {
    var t := Gone(s, n, checked);
    assert s.home[s.catalog[n].oid] == n && s.catalog[n].oid !in s.dropped;
    hide Consistent, SafeDrops, Droppable, Grows, Settles, Drops;
    GoneSafe(s, n, checked);
    GoneDrops(s, n, checked, c);
    GoneCreationless(s, n, checked);
    GrowsAlone(s, t, c);
    SettlesAlone(s, t, c);
  }

  lemma ForeignCreateKeeps(s: ServerState, n: Name, owner: Owner, marker: Marker, data: Content)
    requires Consistent(s) && SafeDrops(s) && n !in s.catalog
    ensures Kept(s, Born(s, n, owner, marker, data, false))
  {
    hide Consistent, SafeDrops, Grows, Settles, Drops, Droppable;
    BornConsistent(s, n, owner, marker, data, false);
    BornSettles(s, n, owner, marker, data);
    SafeStays(s, Born(s, n, owner, marker, data, false), None);
  }

  lemma LateFinishKeeps(s: ServerState, n: Name)
    requires Consistent(s) && SafeDrops(s) && n in s.running && n !in s.catalog
    ensures Kept(s, Apply(s, LateFinish(n)))
  {
    hide Consistent, SafeDrops, Grows, Settles, Drops;
    LateFinishConsistent(s, n);
    LateFinishSettles(s, n);
    SafeStays(s, Apply(s, LateFinish(n)), None);
  }

  lemma LateDropKeeps(s: ServerState, n: Name)
    requires Consistent(s) && SafeDrops(s) && n in s.catalog && s.catalog[n].oid in s.dropping
    ensures Kept(s, Gone(s, n, s.dropping[s.catalog[n].oid]))
  {
    assert Droppable(s, s.catalog[n].oid, s.dropping[s.catalog[n].oid]);
    hide Consistent, SafeDrops, Grows, Settles, Drops, Droppable;
    GoneConsistent(s, n, s.dropping[s.catalog[n].oid]);
    GoneMoves(s, n, s.dropping[s.catalog[n].oid], None);
  }

  lemma SameKept(s: ServerState)
    requires Consistent(s) && SafeDrops(s)
    ensures Kept(s, s)
  {
  }

  lemma ApplyRecords(s: ServerState, e: EnvEvent)
    ensures Apply(s, e).recorded == s.recorded
  {
  }

  // ---- what the lists of leftovers cover ----

  /** Every database of this run that lives, and every CREATE of it still at work, is listed. */
  ghost predicate Reported(s: ServerState) {
    && (forall n :: n in s.listed ==> n in s.issuedTo)
    && (forall n :: n in s.running ==> n in s.listed)
    && (forall n :: n in s.catalog && n in s.issuedTo && s.catalog[n].oid in s.mine ==> n in s.listed)
  }

  /** Nothing anybody else does, and no late statement, makes something appear that is not. */
  lemma ReportedStays(s: ServerState, e: EnvEvent)
    requires Consistent(s) && Reported(s)
    ensures Reported(Apply(s, e))
  {
    hide Allocated, Proven;
    assert forall o :: o in s.mine ==> Allocated(s, o);
    FreshOid(s);
  }

  lemma FreshOid(s: ServerState)
    requires Consistent(s)
    ensures Oid(s.nextOid) !in s.mine && Oid(s.nextOid) !in s.home
  {
    assert forall o :: o in s.home ==> Allocated(s, o);
  }

  lemma ReportedTouch(s: ServerState, t: ServerState, n: Name)
    requires Reported(s) && TouchesOnly(s, t, n) && n in s.listed && Consistent(t)
    ensures Reported(t)
  {
    forall m | m in t.catalog && m in t.issuedTo && t.catalog[m].oid in t.mine ensures m in t.listed {
      if m != n { assert t.home[t.catalog[m].oid] == m; }
    }
  }

  lemma MakesOnly(s: ServerState, n: Name, data: Content)
    requires Consistent(s) && n !in s.catalog && n in s.issuedTo
    ensures TouchesOnly(s, Born(s, n, 0, Unmarked, data, true), n)
  {
    FreshOid(s);
    hide Consistent;
  }

  /** Client `c` puts one of its names on its list, or takes off one under which nothing of the
      run lives or can appear. */
  function Lists(s: ServerState, n: Name, on: bool): ServerState {
    s.(listed := if on then s.listed + {n} else s.listed - {n})
  }

  lemma ListKeeps(s: ServerState, n: Name, on: bool, c: Client)
    requires Consistent(s) && SafeDrops(s) && Reported(s) && n in s.issuedTo && s.issuedTo[n] == c
    requires on || (n !in s.running && (n in s.catalog ==> s.catalog[n].oid !in s.mine))
    ensures var t := Lists(s, n, on);
            Consistent(t) && SafeDrops(t) && Reported(t) && Moves(s, t, Some(c)) && Dropless(s, t)
  {
    ListConsistent(s, n, on);
    ListSafe(s, n, on);
    ListMoves(s, n, on, c);
    hide Consistent, SafeDrops, Moves;
  }

  lemma ListConsistent(s: ServerState, n: Name, on: bool)
    requires Consistent(s)
    ensures Consistent(Lists(s, n, on))
  {
    hide Proven;
    var t := Lists(s, n, on);
    forall r | r in t.recorded ensures Proven(t, r.oid) { ProvenListed(s, n, on, r.oid); }
    forall o | o in t.home ensures Allocated(t, o) { assert Allocated(s, o); }
  }

  lemma ProvenListed(s: ServerState, n: Name, on: bool, o: Oid)
    requires Proven(s, o)
    ensures Proven(Lists(s, n, on), o)
  {
  }

  lemma ListSafe(s: ServerState, n: Name, on: bool)
    requires SafeDrops(s)
    ensures SafeDrops(Lists(s, n, on))
  {
  }

  lemma RunsTouch(s: ServerState, n: Name, data: Content)
    ensures TouchesOnly(s, s.(running := s.running[n := data]), n)
  {
  }

  lemma ListMoves(s: ServerState, n: Name, on: bool, c: Client)
    requires n in s.issuedTo && s.issuedTo[n] == c
    ensures Moves(s, Lists(s, n, on), Some(c)) && Dropless(s, Lists(s, n, on))
  {
  }

  /** No step of the environment breaks consistency, makes an earlier drop unsafe, or moves
      the state further than `Moves` allows. */
  lemma EnvironmentMoves(s: ServerState, e: EnvEvent)
    requires Consistent(s) && SafeDrops(s)
    ensures Kept(s, Apply(s, e))
  {
    hide Consistent, SafeDrops, Moves, Droppable;
    if Apply(s, e) == s {
      SameKept(s);
    } else {
      match e
      case ForeignCreate(n, owner, marker, data) => ForeignCreateKeeps(s, n, owner, marker, data);
      case ForeignDrop(n) => ShrinkKeeps(s, Apply(s, e));
      case ForeignAlter(n, owner, comment, allow) => ShrinkKeeps(s, Apply(s, e));
      case ForeignWrite(o, data) => WriteKeeps(s, o, data, None);
      case LateFinish(n) => if n in s.catalog { ShrinkKeeps(s, Apply(s, e)); } else { LateFinishKeeps(s, n); }
      case LateFail(n) => ShrinkKeeps(s, Apply(s, e));
      case LateDrop(n) => LateDropKeeps(s, n);
    }
  }

  /** From `s` to `t` nothing appeared or changed but under name `n`, and histories grew. */
  ghost predicate TouchesOnly(s: ServerState, t: ServerState, n: Name) {
    && (forall m :: m in t.catalog && m != n ==> m in s.catalog && t.catalog[m] == s.catalog[m])
    && (forall m :: m in t.running && m != n ==> m in s.running)
    && t.issuedTo == s.issuedTo && t.squatted == s.squatted && s.mine <= t.mine && t.recorded == s.recorded
    && t.listed == s.listed
    && t.dropped == s.dropped && t.dropping == s.dropping
    && (forall o :: o in s.home ==> o in t.home && t.home[o] == s.home[o])
    && (forall o :: o in t.mine && o !in s.mine ==> o !in s.home && o in t.home && t.home[o] == n)
    && (forall o :: o in s.content && o in s.home ==> o in t.content && t.content[o] == s.content[o])
  }
}
