/** One statement at a time against the server: what each can do there and what the client
    learns. Between statements, `Turn` lets the environment act and signals arrive. */
module Cluster {
  import opened Wrappers
  import opened Schema
  import opened Server
  import opened Cancellation

  /** A `psycopg.Error`: with a SQLSTATE the server rejected the statement, without one the
      connection or the reply was lost. */
  datatype Fault = SqlState | Lost

  datatype Reply<+T> = Ok(value: T) | Failed(fault: Fault)

  datatype CreateReply = Created | DuplicateDatabase | CreateFailed(fault: Fault)

  const EMPTY: Content := Content(map[], 0)

  /** What the flags of a run can go through while the main thread is between statements. */
  ghost predicate Signals(c: Control, d: Control, raised: bool) {
    && d.depth == c.depth && d.committed == c.committed && d.active == c.active
    && (c.requested.Some? ==> d == c && !raised)
    && (raised ==> c.depth == 0 && !c.committed && d.delivered && d.requested.Some? && !d.leaving)
    && (!raised ==> d.delivered == c.delivered && d.leaving == c.leaving)
    && (d.delivered && !c.delivered ==> raised)
  }

  method FreshName(used: set<Name>) returns (n: Name)
    ensures n !in used
  {
    var next, rest := 0, used;
    while rest != {}
      invariant 0 <= next && rest <= used && forall m :: m in used && m !in rest ==> m.id < next
    {
      var m :| m in rest;
      next := if m.id < next then next else m.id + 1;
      rest := rest - {m};
    }
    n := Name(next);
  }

  class Postgres {
    var s: ServerState
    var now: real
    const control: RunControl
    /** What the run's statements did to single databases and learned about them, in order. */
    ghost var trail: seq<Sight>
    /** The moments at which the watchdog could have reported what is left. */
    ghost var looks: seq<ServerState>
    /** From now on nothing goes wrong: nobody else acts or acted, no statement fails, no signal comes. */
    const calm: bool

    constructor (s: ServerState, control: RunControl, calm: bool)
      ensures this.s == s && this.control == control && this.calm == calm && trail == [] && looks == []
    {
      this.s, this.control, this.now, this.calm, trail, looks := s, control, 0.0, calm, [], [];
    }

    /** Calm, and no signal came before. */
    ghost predicate Peaceful()
      reads this, control
    {
      calm && control.requested.None?
    }

    ghost method Witness(x: Sight)
      requires Valid()
      modifies this`trail
      ensures Valid() && trail == old(trail) + [x]
    {
      hide Consistent, SafeDrops, AllReadBack, AllReported;
      ReadBackLater(trail, [x], s.recorded);
      trail := trail + [x];
    }

    /** What can happen to a statement and its reply. */
    method Luck() returns (fault: Option<Fault>, effect: bool, later: bool)
      ensures calm ==> fault.None? && effect && !later
    {
      fault, effect, later := *, *, *;
      if calm {
        fault, effect, later := None, true, false;
      }
    }

    ghost predicate Valid()
      reads this, control
    {
      && Consistent(s) && SafeDrops(s)
      && (control.delivered || control.deadline.Some? ==> control.requested.Some?)
      && (calm ==> s.squatted == {})
      && Recalled(s, trail, looks)
    }

    /** Anything others do, late statements included, then possibly some signals. */
    method Turn() returns (raised: bool)
      requires Valid()
      modifies this`s, this`now, this`looks, control
      ensures Valid() && Moves(old(s), s, None) && old(looks) <= looks
      ensures Signals(old(control.State()), control.State(), raised)
      ensures calm ==> s == old(s) && !raised && control.State() == old(control.State())
    {
      hide Consistent, SafeDrops, Grows, Settles, Drops, AllReadBack, Apply, Reported;
      looks := looks + [s];
      MovesRefl(s, None);
      var steps: nat := *;
      if calm {
        steps := 0;
      }
      while steps > 0
        invariant Valid() && Moves(old(s), s, None) && unchanged(control) && (calm ==> steps == 0 && s == old(s))
        invariant old(looks) <= looks
        modifies this`s, this`looks
      {
        var e: EnvEvent := *;
        EnvironmentMoves(s, e);
        ApplyRecords(s, e);
        ReportedStays(s, e);
        MovesTransitive(old(s), s, Apply(s, e), None);
        s := Apply(s, e);
        looks := looks + [s];
        steps := steps - 1;
      }
      var elapsed: real := *;
      now := if elapsed > 0.0 then now + elapsed else now;
      var arrivals: nat := *;
      if calm {
        arrivals := 0;
      }
      raised := false;
      while arrivals > 0 && !raised
        invariant Valid() && Moves(old(s), s, None)
        invariant Signals(old(control.State()), control.State(), raised) && old(looks) <= looks
        invariant calm ==> arrivals == 0 && s == old(s) && !raised && control.State() == old(control.State())
        decreases arrivals
      {
        var number: int := *;
        raised := control.Handle(number, now);
        arrivals := arrivals - 1;
      }
    }

    /** Opening a connection, a SET or an advisory lock: it works or it does not. */
    method Prepare() returns (r: Reply<()>)
      requires Valid()
      modifies this`trail
      ensures Valid() && trail == if r.Ok? then old(trail) else old(trail) + [SessionFailed(r.fault)]
      ensures calm ==> r.Ok?
    {
      hide Consistent, SafeDrops, Recalled;
      var fault, _, _ := Luck();
      if fault.Some? {
        Witness(SessionFailed(fault.value));
      }
      r := if fault.Some? then Failed(fault.value) else Ok(());
    }

    /** A name nobody has used: `uuid4`. */
    method Issue(c: Client) returns (n: Name)
      requires Valid()
      modifies this`s
      ensures Valid() && Moves(old(s), s, Some(c))
      ensures n !in old(s).issuedTo && s == old(s).(issuedTo := old(s).issuedTo[n := c])
      ensures forall o :: o in s.home ==> s.home[o] != n
      ensures n !in s.catalog && n !in s.running && n !in s.listed
    {
      hide SafeDrops, Grows, Settles, Drops, AllReadBack, AllReported;
      var used := s.issuedTo.Keys + s.listed + s.catalog.Keys + s.running.Keys + s.home.Values;
      n := FreshName(used);
      assert forall o :: o in s.home ==> s.home[o] in s.home.Values;
      IssueKeeps(s, n, c);
      s := s.(issuedTo := s.issuedTo[n := c]);
    }

    /** `CREATE DATABASE n [TEMPLATE t]`. */
    method CreateDatabase(n: Name, template: Option<Name>, ghost c: Client) returns (r: CreateReply)
      requires Valid() && n in s.issuedTo && s.issuedTo[n] == c && n !in s.running && n in s.listed
      modifies this`s, this`trail
      ensures trail == old(trail) + [CreateSent(n, template)]
      ensures Valid() && Moves(old(s), s, Some(c)) && TouchesOnly(old(s), s, n)
      ensures r.Created? ==>
        && n !in old(s).catalog && n in s.catalog && n !in s.running
        && s.catalog[n].oid !in old(s).home && s.catalog[n].oid in s.mine
        && (template.Some? ==>
             && template.value in old(s).catalog
             && s.content[s.catalog[n].oid] == old(s).content[old(s).catalog[template.value].oid])
      ensures r.DuplicateDatabase? ==> s == old(s) && n in s.catalog
      ensures r == CreateFailed(SqlState) ==> n !in s.running
      ensures calm && n !in old(s).catalog && (template.Some? ==> template.value in old(s).catalog) ==>
        && r.Created?
        && s == Born(old(s), n, 0, Unmarked,
                     if template.Some? then old(s).content[old(s).catalog[template.value].oid] else EMPTY, true)
    {
      hide SafeDrops, Consistent, Moves, AllReadBack, AllReported;
      Witness(CreateSent(n, template));
      CatalogContent(s);
      MovesRefl(s, Some(c));
      if template.Some? && template.value !in s.catalog {
        return CreateFailed(SqlState);
      }
      var data := if template.Some? then s.content[s.catalog[template.value].oid] else EMPTY;
      var fault, effect, later := Luck();
      var lost, rejected := fault == Some(Lost), fault == Some(SqlState);
      if n in s.catalog {
        return if lost then CreateFailed(Lost) else DuplicateDatabase;
      }
      if lost && later {
        Start(n, data, c);
        return CreateFailed(Lost);
      }
      if effect || (!lost && !rejected) {
        Make(n, data, c);
      }
      return if lost then CreateFailed(Lost) else if rejected then CreateFailed(SqlState) else Created;
    }

    /** The statement takes effect. */
    method Make(n: Name, data: Content, ghost c: Client)
      requires Valid() && n in s.issuedTo && s.issuedTo[n] == c && n !in s.catalog && n in s.listed
      modifies this`s
      ensures TouchesOnly(old(s), s, n)
      ensures Valid() && Moves(old(s), s, Some(c)) && s == Born(old(s), n, 0, Unmarked, data, true)
      ensures s.catalog[n].oid !in old(s).home
    {
      OwnCreate(s, n, data, c);
      FreshOid(s);
      MakesOnly(s, n, data);
      hide Consistent, SafeDrops, Moves, Reported, AllReported, AllReadBack, TouchesOnly;
      ReportedTouch(s, Born(s, n, 0, Unmarked, data, true), n);
      s := Born(s, n, 0, Unmarked, data, true);
    }

    /** The statement goes on without the client. */
    method Start(n: Name, data: Content, ghost c: Client)
      requires Valid() && n in s.issuedTo && s.issuedTo[n] == c && n in s.listed
      modifies this`s
      ensures TouchesOnly(old(s), s, n)
      ensures Valid() && Moves(old(s), s, Some(c)) && s == old(s).(running := old(s).running[n := data])
    {
      hide Consistent, SafeDrops, Moves, Reported, AllReported, AllReadBack, TouchesOnly;
      OwnCreateRuns(s, n, data, c);
      RunsTouch(s, n, data);
      ReportedTouch(s, s.(running := s.running[n := data]), n);
      s := s.(running := s.running[n := data]);
    }

    /** `SELECT ... FROM pg_database WHERE datname = n` */
    method Identify(n: Name) returns (r: Reply<Option<Entry>>)
      requires Valid()
      modifies this`trail
      ensures Valid() && (r.Ok? ==> r.value == if n in s.catalog then Some(s.catalog[n]) else None)
      ensures trail == old(trail) + [if r.Ok? then NameRead(n, r.value, s.nextOid) else ReadFailed(n, r.fault)]
      ensures r.Ok? && r.value.Some? ==> r.value.value.oid.n < s.nextOid
      ensures calm ==> r.Ok?
    {
      CatalogAllocated(s);
      hide Consistent, SafeDrops, AllReadBack, AllReported;
      var fault, _, _ := Luck();
      r := if fault.Some? then Failed(fault.value)
           else Ok(if n in s.catalog then Some(s.catalog[n]) else None);
      Witness(if r.Ok? then NameRead(n, r.value, s.nextOid) else ReadFailed(n, r.fault));
    }

    /** `COMMENT ON DATABASE n IS` the client's marker. */
    method Mark(n: Name, c: Client) returns (r: Reply<()>)
      requires Valid()
      modifies this`s, this`trail
      ensures Valid() && Moves(old(s), s, None) && s.recorded == old(s).recorded
      ensures trail == old(trail) + [CommentSent(n)]
      ensures r.Ok? ==> n in s.catalog
      ensures calm && n in old(s).catalog ==>
        r.Ok? && s == old(s).(catalog := old(s).catalog[n := old(s).catalog[n].(marker := Of(c))])
    {
      hide SafeDrops, Grows, Settles, Drops, AllReadBack, AllReported;
      Witness(CommentSent(n));
      var fault, effect, _ := Luck();
      MovesRefl(s, None);
      if n !in s.catalog {
        return Failed(SqlState);
      }
      if effect || fault.None? {
        ShrinkKeeps(s, s.(catalog := s.catalog[n := s.catalog[n].(marker := Of(c))]));
        s := s.(catalog := s.catalog[n := s.catalog[n].(marker := Of(c))]);
      }
      r := if fault.Some? then Failed(fault.value) else Ok(());
    }

    /** `ALTER DATABASE n WITH ALLOW_CONNECTIONS false` */
    method DisallowConnections(n: Name) returns (r: Reply<()>)
      requires Valid()
      modifies this`s, this`trail
      ensures Valid() && Moves(old(s), s, None)
      ensures r.Ok? ==> trail == old(trail) + [Banned(n)] && n in s.catalog && !s.catalog[n].allowConn
      ensures r.Failed? ==> trail == old(trail)
      ensures calm && n in old(s).catalog ==>
        r.Ok? && s == old(s).(catalog := old(s).catalog[n := old(s).catalog[n].(allowConn := false)])
    {
      hide SafeDrops, Grows, Settles, Drops, AllReadBack, AllReported;
      var fault, effect, _ := Luck();
      MovesRefl(s, None);
      if n !in s.catalog {
        return Failed(SqlState);
      }
      if effect || fault.None? {
        ShrinkKeeps(s, s.(catalog := s.catalog[n := s.catalog[n].(allowConn := false)]));
        s := s.(catalog := s.catalog[n := s.catalog[n].(allowConn := false)]);
      }
      if fault.None? {
        Witness(Banned(n));
      }
      r := if fault.Some? then Failed(fault.value) else Ok(());
    }

    /** `DROP DATABASE n`, right after `n` was found to be the database `checked`. */
    method Drop(n: Name, checked: Entry, ghost c: Client) returns (r: Reply<()>)
      requires Valid() && n in s.catalog && s.catalog[n] == checked && Droppable(s, checked.oid, checked)
      requires s.issuedTo[n] == c
      modifies this`s, this`trail
      ensures trail == old(trail) + [DropSent(n, if r.Failed? then Some(r.fault) else None)]
      ensures Valid() && Moves(old(s), s, Some(c)) && Creationless(old(s), s)
      ensures r.Ok? ==> n !in s.catalog && checked.oid in s.dropped
      ensures s.dropped == old(s).dropped || s.dropped == old(s).dropped[checked.oid := checked]
      ensures s.dropping == old(s).dropping[checked.oid := checked] || s.dropping == old(s).dropping
           || s.dropping == old(s).dropping - {checked.oid}
      ensures s.mine == old(s).mine && s.issuedTo == old(s).issuedTo && s.home == old(s).home
      ensures calm ==> r.Ok? && s == Gone(old(s), n, checked)
    {
      hide SafeDrops, Grows, Settles, Drops, AllReadBack, AllReported;
      var fault, effect, later := Luck();
      MovesRefl(s, Some(c));
      if effect || fault.None? {
        GoneConsistent(s, n, checked);
        GoneMoves(s, n, checked, Some(c));
        GoneCreationless(s, n, checked);
        s := Gone(s, n, checked);
      } else if later && fault == Some(Lost) {
        OwnDropRuns(s, checked.oid, checked, c);
        DroppingCreationless(s, checked.oid, checked);
        s := s.(dropping := s.dropping[checked.oid := checked]);
      }
      Witness(DropSent(n, fault));
      r := if fault.Some? then Failed(fault.value) else Ok(());
    }

    /** The identity read back under `n` after the CREATE of `made`, and before the COMMENT, is
        taken for the run's own. */
    method Acknowledge(n: Name, oid: Oid, owner: Owner, ghost made: Oid, ghost c: Client)
      requires Valid() && n in s.issuedTo && s.issuedTo[n] == c
      requires made in s.mine && made in s.home && s.home[made] == n
      requires oid in s.home && s.home[oid] == n && (oid == made || (oid !in s.mine && n in s.squatted))
      requires JustReadBack(trail, n, Identified(oid, owner))
      modifies this`s
      ensures Valid() && Moves(old(s), s, Some(c)) && s == old(s).(recorded := old(s).recorded + {Identified(oid, owner)})
      ensures Drops(old(s), s, Some(c)) && Creationless(old(s), s)
    {
      hide Consistent, SafeDrops, Grows, Settles, Drops, Creationless;
      RecordKeeps(s, Identified(oid, owner), c);
      assert ReadBackAt(trail, |trail| - 1, Identified(oid, owner));
      s := s.(recorded := s.recorded + {Identified(oid, owner)});
    }

    /** One of a client's names goes on its list of leftovers, or comes off once nothing of this
        run lives or can appear under it. */
    method List(n: Name, on: bool, ghost c: Client)
      requires Valid() && n in s.issuedTo && s.issuedTo[n] == c
      requires on || (n !in s.running && (n in s.catalog ==> s.catalog[n].oid !in s.mine))
      modifies this`s
      ensures Valid() && Moves(old(s), s, Some(c)) && Dropless(old(s), s) && s == Lists(old(s), n, on)
    {
      hide Consistent, SafeDrops, Moves, Dropless, Reported, AllReported, AllReadBack;
      ListKeeps(s, n, on, c);
      s := Lists(s, n, on);
    }

    /** Is a session named after the database still there? A finished one may linger. */
    method CreatorSessions(n: Name) returns (r: Reply<bool>)
      requires Valid()
      ensures r == Ok(false) ==> n !in s.running
      ensures calm ==> r == Ok(n in s.running)
    {
      var fault, _, lingering := Luck();
      r := if fault.Some? then Failed(fault.value) else Ok(n in s.running || lingering);
    }

    /** `pg_cancel_backend` */
    method CancelCreator(n: Name) returns (r: Reply<()>)
      requires Valid()
      modifies this`s
      ensures Valid() && Moves(old(s), s, None)
      ensures calm ==> r.Ok? && s == old(s).(running := old(s).running - {n})
    {
      hide SafeDrops, Grows, Settles, Drops, AllReadBack, AllReported;
      var fault, effect, _ := Luck();
      MovesRefl(s, None);
      if effect {
        ShrinkKeeps(s, s.(running := s.running - {n}));
        s := s.(running := s.running - {n});
      }
      r := if fault.Some? then Failed(fault.value) else Ok(());
    }

    /** Sessions of one database: none, only autovacuum workers, or others. */
    method Sessions(o: Oid) returns (r: Reply<SessionKind>)
      requires Valid()
      modifies this`trail
      ensures Valid() && (calm ==> r == Ok(NoSessions))
      ensures trail == if r.Ok? then old(trail) + [SessionsSeen(o, r.value)] else old(trail)
    {
      hide Consistent, SafeDrops, AllReadBack, AllReported;
      var kind: SessionKind := *;
      var fault, _, _ := Luck();
      if calm {
        kind := NoSessions;
      }
      if fault.None? {
        Witness(SessionsSeen(o, kind));
      }
      r := if fault.Some? then Failed(fault.value) else Ok(kind);
    }

    /** `SELECT datallowconn FROM pg_database WHERE oid = o` */
    method AllowsConnections(o: Oid) returns (r: Reply<Option<bool>>)
      requires Valid()
      modifies this`trail
      ensures Valid() && trail == if r.Ok? then old(trail) + [ConnectionsSeen(o, r.value)] else old(trail)
      ensures r.Ok? ==>
        r.value == if o in s.home && s.home[o] in s.catalog && s.catalog[s.home[o]].oid == o
                   then Some(s.catalog[s.home[o]].allowConn) else None
      ensures calm ==> r.Ok?
    {
      hide Consistent, SafeDrops, AllReadBack, AllReported;
      var fault, _, _ := Luck();
      r := if fault.Some? then Failed(fault.value)
           else if o in s.home && s.home[o] in s.catalog && s.catalog[s.home[o]].oid == o
           then Ok(Some(s.catalog[s.home[o]].allowConn)) else Ok(None);
      if r.Ok? {
        Witness(ConnectionsSeen(o, r.value));
      }
    }

    /** Read a whole database by name. */
    method Read(n: Name) returns (r: Reply<Content>)
      requires Valid()
      ensures r.Ok? ==> n in s.catalog && r.value == s.content[s.catalog[n].oid]
      ensures calm && n in s.catalog ==> r.Ok?
    {
      var fault, _, _ := Luck();
      r := if n !in s.catalog then Failed(SqlState)
           else if fault.Some? then Failed(fault.value)
           else Ok(s.content[s.catalog[n].oid]);
    }

    /** Replace the content of a database by name; a failed statement may have taken effect. */
    method Write(n: Name, data: Content, ghost c: Client) returns (r: Reply<()>)
      requires Valid() && n in s.issuedTo && s.issuedTo[n] == c
      modifies this`s
      ensures Valid() && Moves(old(s), s, Some(c)) && s.issuedTo == old(s).issuedTo
      ensures s.catalog == old(s).catalog && s.mine == old(s).mine && s.home == old(s).home
      ensures s.squatted == old(s).squatted && s.running == old(s).running
      ensures s.dropped == old(s).dropped && s.dropping == old(s).dropping && s.recorded == old(s).recorded
      ensures s.listed == old(s).listed
      ensures forall o :: o in old(s).content ==>
        o in s.content && ((n in s.catalog && o == s.catalog[n].oid) || s.content[o] == old(s).content[o])
      ensures r.Ok? ==> n in s.catalog && s.content[s.catalog[n].oid] == data
      ensures calm && n in s.catalog ==> r.Ok?
    {
      hide SafeDrops, Grows, Settles, Drops, AllReadBack, AllReported;
      var fault, effect, _ := Luck();
      MovesRefl(s, Some(c));
      if n !in s.catalog {
        return Failed(SqlState);
      }
      if effect || fault.None? {
        WriteKeeps(s, s.catalog[n].oid, data, Some(c));
        s := s.(content := s.content[s.catalog[n].oid := data]);
      }
      r := if fault.Some? then Failed(fault.value) else Ok(());
    }
  }

  /** A session could not be opened or set up; a CREATE or COMMENT was sent, or a DROP and what
      came back instead of a reply; an entry was read while the next free OID was `next`, or not;
      connections to a database were forbidden; whether it admits any and which sessions it has
      were looked at. */
  datatype Sight =
    | SessionFailed(fault: Fault)
    | CreateSent(name: Name, template: Option<Name>)
    | NameRead(name: Name, entry: Option<Entry>, next: nat)
    | ReadFailed(name: Name, fault: Fault)
    | DropSent(name: Name, lost: Option<Fault>)
    | CommentSent(name: Name)
    | Banned(name: Name)
    | ConnectionsSeen(oid: Oid, allowed: Option<bool>)
    | SessionsSeen(oid: Oid, sessions: SessionKind)

  /** The identity is what was read under a name after its CREATE and before its COMMENT,
      which is entry `i`; the three come one after the other, and no database made after the
      reading has it. */
  ghost predicate ReadBackAt(trail: seq<Sight>, i: int, r: Record) {
    && 2 <= i < |trail| && trail[i].CommentSent? && trail[i - 1].NameRead? && trail[i - 2].CreateSent?
    && trail[i].name == trail[i - 1].name == trail[i - 2].name
    && trail[i - 1].entry.Some?
    && Identified(trail[i - 1].entry.value.oid, trail[i - 1].entry.value.owner) == r && r.oid.n < trail[i - 1].next
  }

  /** The entry was read, once, when its OID was taken. */
  ghost predicate ReadOnce(before: seq<Sight>, after: seq<Sight>, n: Name, e: Entry) {
    exists next :: after == before + [NameRead(n, Some(e), next)] && e.oid.n < next
  }

  /** Exactly this happened: the entry was read, once, when its OID was taken, and after that
      the COMMENT was sent. */
  ghost predicate ReadThenMarked(before: seq<Sight>, after: seq<Sight>, n: Name, e: Entry) {
    exists next :: after == before + [NameRead(n, Some(e), next), CommentSent(n)] && e.oid.n < next
  }

  lemma MarkedAfterRead(before: seq<Sight>, read: seq<Sight>, after: seq<Sight>, n: Name, e: Entry)
    requires ReadOnce(before, read, n, e) && after == read + [CommentSent(n)]
    ensures ReadThenMarked(before, after, n, e)
    ensures JustSent(before, n) ==> JustReadBack(after, n, Identified(e.oid, e.owner))
  {
    var next :| read == before + [NameRead(n, Some(e), next)] && e.oid.n < next;
    assert after == before + [NameRead(n, Some(e), next), CommentSent(n)];
  }

  /** What the histories say: every identity recorded was read back, and at every moment
      everything of this run was on a list. */
  ghost predicate Recalled(s: ServerState, trail: seq<Sight>, looks: seq<ServerState>) {
    AllReadBack(trail, s.recorded) && Reported(s) && AllReported(looks)
  }

  ghost predicate AllReported(looks: seq<ServerState>) {
    forall x :: x in looks ==> Reported(x)
  }

  ghost predicate JustSent(trail: seq<Sight>, n: Name) {
    trail != [] && trail[|trail| - 1].CreateSent? && trail[|trail| - 1].name == n
  }

  ghost predicate JustReadBack(trail: seq<Sight>, n: Name, r: Record) {
    ReadBackAt(trail, |trail| - 1, r) && trail[|trail| - 1].name == n
  }

  /** Every identity recorded was read back so. */
  ghost predicate AllReadBack(trail: seq<Sight>, recorded: set<Record>) {
    forall r :: r in recorded ==> exists i :: ReadBackAt(trail, i, r)
  }

  lemma ReadBackLater(trail: seq<Sight>, more: seq<Sight>, recorded: set<Record>)
    requires AllReadBack(trail, recorded)
    ensures AllReadBack(trail + more, recorded)
  {
    forall r | r in recorded ensures exists i :: ReadBackAt(trail + more, i, r) {
      var i :| ReadBackAt(trail, i, r);
      assert ReadBackAt(trail + more, i, r);
    }
  }

  datatype SessionKind = NoSessions | OnlyAutovacuum | OtherSessions
}
