/** The one database every candidate is restored into (postgres/database.py, `Workspace`). Its
    name stays the same; each reset drops the database and creates it again. */
module Workspace {
  import opened Wrappers
  import opened Schema
  import opened Server
  import opened Cancellation
  import opened Cluster
  import opened Cleanup
  import opened Tracking
  import opened Keeping

  /** What pg_restore does with an archive (and a list): the content it leaves, or why it stops. */
  datatype Restoration = Restores(data: Content) | Stops(reason: RestoreReason)

  class Workspace {
    const pg: Postgres
    var name: Name
    var created: bool
    var oid: Option<Oid>
    var owner: Option<Owner>
    var unproven: bool
    var databasesCreated: nat
    var databasesDropped: nat
    var databasesAbsent: nat
    var cleanupFailures: nat
    var lastCleanup: Option<Status>

    /** The recorded database, as tracking sees it. */
    ghost function Owned(): map<Name, OwnedDatabase>
      reads this
    {
      if created && oid.Some? && owner.Some? then map[name := OwnedDatabase(name, oid.value, owner.value)] else map[]
    }

    ghost function Unproven(): set<Name>
      reads this
    {
      if unproven then {name} else {}
    }

    ghost predicate Valid()
      reads this, pg, pg.control
    {
      && pg.Valid() && !pg.control.leaving
      && (created ==> oid.Some? && owner.Some? && !unproven)
      && Tracked(WorkspaceClient, Owned(), Unproven(), pg.s)
      && IssuedBy(WorkspaceClient, pg.s, name)
      && databasesCreated == databasesDropped + databasesAbsent + (if created then 1 else 0)
    }

    constructor (pg: Postgres)
      requires pg.Valid() && !pg.control.leaving
      requires forall n :: n in pg.s.issuedTo ==> pg.s.issuedTo[n] != WorkspaceClient
      modifies pg
      ensures this.pg == pg && Valid() && !created && !unproven
      ensures Moves(old(pg.s), pg.s, Some(WorkspaceClient))
      ensures name !in old(pg.s.issuedTo) && pg.s == old(pg.s).(issuedTo := old(pg.s).issuedTo[name := WorkspaceClient])
    {
      this.pg := pg;
      name := Name(0);
      created, oid, owner, unproven := false, None, None, false;
      databasesCreated, databasesDropped, databasesAbsent, cleanupFailures := 0, 0, 0, 0;
      lastCleanup := None;
      new;
      hide Tracked, Moves, Consistent, SafeDrops, Recalled, Dropless, Creationless;
      ghost var before := pg.s;
      name := pg.Issue(WorkspaceClient);
      FirstName(WorkspaceClient, before, pg.s, name);
      assert Owned() == map[] && Unproven() == {};
    }

    /** The databases `leftovers` reports: at most this one. */
    function Leftovers(): set<Name>
      reads this
    {
      if created || unproven then {name} else {}
    }

    /** The workspace database is there as recorded. */
    ghost predicate Alive()
      reads this, pg
    {
      && created && oid.Some? && owner.Some?
      && name in pg.s.catalog && Shown(pg.s.catalog[name]) == OwnedEntry(oid.value, owner.value, WorkspaceClient)
    }

    /** Under the name there is at most the workspace database. */
    ghost predicate Healthy()
      reads this, pg
    {
      name in pg.s.catalog ==> Alive()
    }

    ghost function View(): View
      reads this, pg, pg.control
    {
      StoreView(Owned(), Unproven(), {}, databasesDropped, databasesAbsent, 0, cleanupFailures, pg.s, pg.control.State())
    }

    method Pause() returns (raised: bool)
      requires Valid()
      modifies pg`s, pg`now, pg`looks, pg.control
      ensures Valid() && Moves(old(pg.s), pg.s, None) && SameContent(old(pg.s), pg.s)
      ensures Signals(old(pg.control.State()), pg.control.State(), raised)
      ensures forall data :: old(Holds(data)) && pg.s.squatted == {} ==> Holds(data)
      ensures pg.calm ==> pg.s == old(pg.s) && !raised && pg.control.State() == old(pg.control.State())
    {
      hide Tracked, Moves, SafeDrops, Consistent, SameContent, Recalled;
      ghost var before := pg.s;
      raised := pg.Turn();
      TrackedWaits(WorkspaceClient, Owned(), Unproven(), before, pg.s);
      WorkspaceNameWaits(before, pg.s, name);
      if created { RecordedContent(WorkspaceClient, Owned(), Unproven(), before, pg.s, name); }
    }

    method Leave() returns (raised: bool)
      requires Valid() && pg.control.protectedDepth > 0
      modifies pg`s, pg`now, pg`looks, pg.control
      ensures Valid() && Moves(old(pg.s), pg.s, None) && SameContent(old(pg.s), pg.s)
      ensures pg.control.protectedDepth == old(pg.control.protectedDepth) - 1
      ensures pg.control.committed == old(pg.control.committed) && pg.control.active == old(pg.control.active)
      ensures old(pg.control.delivered) || raised ==> pg.control.delivered
      ensures raised ==> pg.control.protectedDepth == 0
      ensures old(pg.Peaceful()) ==> pg.Peaceful() && !raised && pg.s == old(pg.s)
    {
      hide Tracked, Settles, Drops, SafeDrops, Consistent, Recalled;
      ghost var before := pg.s;
      pg.control.DecrementSection();
      raised := pg.Turn();
      if !raised {
        raised := pg.control.CheckSection();
      }
      TrackedWaits(WorkspaceClient, Owned(), Unproven(), before, pg.s);
    }

    // ---- closing ----

    /** `close`: nothing is left of the workspace if it returns normally. */
    method Close() returns (r: Result<()>)
      requires Valid()
      modifies this, pg, pg.control
      ensures r.Raised? ==> FromServer(r.e)
      ensures Valid() && Moves(old(pg.s), pg.s, Some(WorkspaceClient)) && name == old(name)
      ensures r.Returned? ==> !created && !unproven && NotOurs(WorkspaceClient, pg.s, name)
      ensures DropsAmong(WorkspaceClient, old(pg.s), pg.s, old(Owned()))
      ensures SameSection(old(pg.control.State()), pg.control.State())
      ensures r == Raised(Cancelled) ==> pg.control.protectedDepth == 0
      ensures databasesCreated == old(databasesCreated)
      ensures old(pg.Peaceful()) && old(Healthy()) ==>
        pg.Peaceful() && r.Returned? && pg.s.catalog == old(pg.s).catalog - {name}
    {
      hide Dropless, DropsAmong, Tracked, Moves, Consistent, SafeDrops, SameContent, Recalled;
      ghost var before, owned := pg.s, Owned();
      pg.control.EnterSection();
      r := CloseProtected();
      ghost var inside := pg.s;
      var raised := Leave();
      MovesAlone(inside, pg.s, Some(WorkspaceClient));
      MovesTransitive(before, inside, pg.s, Some(WorkspaceClient));
      AloneDropless(inside, pg.s);
      DropsAmongThen(WorkspaceClient, before, inside, pg.s, owned);
      if raised {
        return Raised(Cancelled);
      }
      if r.Returned? {
        Untracked(WorkspaceClient, Owned(), Unproven(), pg.s, name);
      }
    }

    /** `_close`: drop what is recorded, settle what is unproven. */
    method CloseProtected() returns (r: Result<()>)
      requires Valid() && pg.control.protectedDepth > 0
      modifies this, pg, pg.control
      ensures r.Raised? ==> FromServer(r.e)
      ensures Valid() && Moves(old(pg.s), pg.s, Some(WorkspaceClient)) && name == old(name)
      ensures r.Returned? ==> !created && !unproven
      ensures r.Raised? ==> r.e == RuntimeError
      ensures DropsAmong(WorkspaceClient, old(pg.s), pg.s, old(Owned()))
      ensures SameSection(old(pg.control.State()), pg.control.State())
      ensures databasesCreated == old(databasesCreated)
      ensures old(pg.Peaceful()) && old(Healthy()) ==>
        pg.Peaceful() && r.Returned? && pg.s.catalog == old(pg.s).catalog - {name}
    {
      hide DropsOnly, Dropless, DropsAmong, Tracked, Moves, Consistent, SafeDrops, Recalled;
      ghost var before := pg.s;
      MovesRefl(before, Some(WorkspaceClient));
      ghost var owned := Owned();
      DropsAmongNone(WorkspaceClient, before, before, owned);
      if created {
        ghost var database := OwnedDatabase(name, oid.value, owner.value);
        var done := DropRecorded();
        DropsAmongOne(WorkspaceClient, before, pg.s, owned, database);
        if !done {
          return Raised(RuntimeError);
        }
      }
      if unproven {
        ghost var middle := pg.s;
        var settled := SettleName();
        MovesTransitive(before, middle, pg.s, Some(WorkspaceClient));
        DropsAmongThen(WorkspaceClient, before, middle, pg.s, owned);
        if !settled {
          return Raised(RuntimeError);
        }
      }
      r := Returned(());
    }

    method DropRecorded() returns (done: bool)
      requires Valid() && created && pg.control.protectedDepth > 0
      modifies this, pg, pg.control
      ensures Valid() && Moves(old(pg.s), pg.s, Some(WorkspaceClient)) && name == old(name)
      ensures done <==> !created
      ensures !unproven && databasesCreated == old(databasesCreated)
      ensures lastCleanup.Some? && (done <==> lastCleanup.value.Done())
      ensures cleanupFailures == old(cleanupFailures) + (if done then 0 else 1)
      ensures databasesDropped == old(databasesDropped) + (if lastCleanup.value.Removed? then 1 else 0)
      ensures databasesAbsent == old(databasesAbsent) + (if done && !lastCleanup.value.Removed? then 1 else 0)
      ensures DropsOnly(old(pg.s), pg.s, old(oid).value, old(owner).value, WorkspaceClient)
      ensures SameSection(old(pg.control.State()), pg.control.State())
      ensures pg.control.protectedDepth == old(pg.control.protectedDepth)
      ensures old(pg.Peaceful()) && old(Healthy()) ==>
        pg.Peaceful() && done && pg.s.catalog == old(pg.s).catalog - {name}
    {
      hide Tracked, Moves, Consistent, SafeDrops, SameContent, Absent, DropsOnly, Creationless, Recalled;
      ghost var before, owned, pending := pg.s, Owned(), Unproven();
      RecordedFacts(WorkspaceClient, Owned(), Unproven(), pg.s, name);
      var status := DropOwnedDatabase(pg, name, oid.value, owner.value, WorkspaceClient);
      DropKeepsTracking(WorkspaceClient, owned, pending, before, pg.s);
      WorkspaceNameStays(before, pg.s, name);
      lastCleanup := Some(status);
      if !status.Done() {
        cleanupFailures := cleanupFailures + 1;
        return false;
      }
      ghost var after := pg.s;
      DropsOnlyListed(before, after, name, false, oid.value, owner.value, WorkspaceClient);
      Forget(status);
      MovesTransitive(before, after, pg.s, Some(WorkspaceClient));
      done := true;
    }

    /** What `_close` does once the database is gone. */
    method Forget(status: Status)
      requires Valid() && created && Absent(pg.s, oid.value) && status.Done()
      modifies this`created, this`oid, this`owner, this`databasesDropped, this`databasesAbsent, pg`s
      ensures Valid() && !created && Moves(old(pg.s), pg.s, Some(WorkspaceClient)) && pg.s == Lists(old(pg.s), name, false)
      ensures databasesDropped == old(databasesDropped) + (if status.Removed? then 1 else 0)
      ensures databasesAbsent == old(databasesAbsent) + (if status.Removed? then 0 else 1)
    {
      hide Tracked, Moves, Dropless, Consistent, SafeDrops, Absent, Recalled;
      ghost var owned, pending := Owned(), Unproven();
      Forgettable(WorkspaceClient, owned, pending, pg.s, name);
      TrackedPop(WorkspaceClient, owned, pending, pg.s, name);
      assert owned - {name} == map[];
      pg.List(name, false, WorkspaceClient);
      created := false;
      oid, owner := None, None;
      if status.Removed? {
        databasesDropped := databasesDropped + 1;
      } else {
        databasesAbsent := databasesAbsent + 1;
      }
    }

    method SettleName() returns (settled: bool)
      requires Valid() && unproven && pg.control.protectedDepth > 0
      modifies this, pg, pg.control
      ensures Valid() && Moves(old(pg.s), pg.s, Some(WorkspaceClient)) && name == old(name)
      ensures settled <==> !unproven
      ensures !created && databasesCreated == old(databasesCreated)
      ensures Dropless(old(pg.s), pg.s)
      ensures SameSection(old(pg.control.State()), pg.control.State())
      ensures pg.control.protectedDepth == old(pg.control.protectedDepth)
      ensures old(pg.Peaceful()) && name !in old(pg.s).catalog ==>
        pg.Peaceful() && settled && pg.s.catalog == old(pg.s).catalog
    {
      hide Tracked, Moves, Consistent, SafeDrops, SameContent, Recalled;
      ghost var before, pending := pg.s, Unproven();
      var present := SettleUnprovenCreate(pg, name);
      TrackedWaits(WorkspaceClient, Owned(), pending, before, pg.s);
      WorkspaceNameWaits(before, pg.s, name);
      AloneDropless(before, pg.s);
      MovesAlone(before, pg.s, Some(WorkspaceClient));
      if present != Some(false) {
        cleanupFailures := cleanupFailures + 1;
        return false;
      }
      NothingUnder(WorkspaceClient, Owned(), pending, pg.s, name);
      ghost var w := View();
      Discard();
      CreatesMoves(w, View(), name);
      MovesTransitive(before, w.s, pg.s, Some(WorkspaceClient));
      DroplessTransitive(before, w.s, pg.s);
      settled := true;
    }

    // ---- creating ----

    /** `create`: close whatever there was, then create and record a new database. */
    method Create() returns (r: Result<()>)
      requires Valid()
      modifies this, pg, pg.control
      ensures r.Raised? ==> FromServer(r.e)
      ensures Valid() && Moves(old(pg.s), pg.s, Some(WorkspaceClient)) && name == old(name)
      ensures r.Returned? ==> created && !unproven && databasesCreated == old(databasesCreated) + 1
      ensures DropsAmong(WorkspaceClient, old(pg.s), pg.s, old(Owned()))
      ensures SameSection(old(pg.control.State()), pg.control.State())
      ensures old(pg.Peaceful()) && old(Healthy()) ==>
        && pg.Peaceful() && r.Returned? && Alive()
        && pg.s.catalog == old(pg.s).catalog[name := Entry(oid.value, owner.value, Of(WorkspaceClient), true)]
    {
      hide Dropless, DropsAmong, Tracked, Moves, Consistent, SafeDrops, SameContent, CreatesOnly, Recalled;
      ghost var before, owned := pg.s, Owned();
      r := Close();
      if r.Raised? {
        return;
      }
      ghost var v := View();
      r := TryCreate();
      ghost var w := View();
      CreatesMoves(v, w, name);
      MovesTransitive(before, v.s, w.s, Some(WorkspaceClient));
      DropsAmongThen(WorkspaceClient, before, v.s, w.s, owned);
      if r.Raised? {
        IssuedStays(WorkspaceClient, v, w, name);
        r := AfterFailure(r.e);
        CreatesMoves(w, View(), name);
        MovesTransitive(before, w.s, pg.s, Some(WorkspaceClient));
        DropsAmongThen(WorkspaceClient, before, w.s, pg.s, owned);
      }
    }

    method TryCreate() returns (r: Result<()>)
      requires Valid() && !created && !unproven && NotOurs(WorkspaceClient, pg.s, name)
      modifies this, pg, pg.control
      ensures r.Raised? ==> FromServer(r.e)
      ensures Valid() && CreatesOnly(WorkspaceClient, old(View()), View(), name) && name == old(name)
      ensures r.Returned? ==> created && databasesCreated == old(databasesCreated) + 1
      ensures r == Raised(DuplicateDatabaseError) ==> unproven && NotOurs(WorkspaceClient, pg.s, name)
      ensures r == Raised(Psycopg(SqlState)) && unproven ==> name !in pg.s.running
      ensures old(pg.Peaceful()) && name !in old(pg.s).catalog ==>
        && pg.Peaceful() && r.Returned? && Alive()
        && pg.s.catalog == old(pg.s).catalog[name := Entry(oid.value, owner.value, Of(WorkspaceClient), true)]
    {
      hide Tracked, Moves, Consistent, SafeDrops, SameContent, NotOurs, CreatesOnly, OnlyMade, TouchesOnly,
           Recalled;
      ghost var v := View();
      r := Begin();
      if r.Raised? {
        return;
      }
      ghost var made;
      ghost var x := View();
      r, made := Request();
      CreatesTransitive(WorkspaceClient, v, x, View(), name);
      if r.Raised? {
        return;
      }
      ghost var y := View();
      r := Record(made);
      CreatesTransitive(WorkspaceClient, v, y, View(), name);
    }

    /** What comes before the CREATE: the session, then the name is unproven. */
    method Begin() returns (r: Result<()>)
      requires Valid() && !created && !unproven && NotOurs(WorkspaceClient, pg.s, name)
      modifies this`unproven, pg`s, pg`now, pg`looks, pg`trail, pg.control
      ensures r.Returned? ==> pg.trail == old(pg.trail)
      ensures Valid() && CreatesOnly(WorkspaceClient, old(View()), View(), name) && NotOurs(WorkspaceClient, pg.s, name)
      ensures r.Raised? ==> FromServer(r.e) && !r.e.DuplicateDatabaseError?
      ensures unproven <==> r.Returned?
      ensures old(pg.Peaceful()) ==> pg.Peaceful() && r.Returned? && pg.s.catalog == old(pg.s).catalog
    {
      hide Tracked, Moves, Consistent, SafeDrops, SameContent, NotOurs, CreatesOnly, Recalled;
      ghost var v := View();
      var raised := Pause();
      NotOursStays(WorkspaceClient, v.s, pg.s, name);
      PausedCreatesOnly(WorkspaceClient, v, View(), name);
      if raised {
        return Raised(Cancelled);
      }
      var ready := pg.Prepare();
      if ready.Failed? {
        return Raised(Psycopg(ready.fault));
      }
      ghost var w := View();
      Expect();
      CreatesTransitive(WorkspaceClient, v, w, View(), name);
      r := Returned(());
    }

    method Request() returns (r: Result<()>, ghost made: Oid)
      requires Valid() && unproven && NotOurs(WorkspaceClient, pg.s, name)
      modifies pg, pg.control
      ensures r.Raised? ==> FromServer(r.e)
      ensures Valid() && CreatesOnly(WorkspaceClient, old(View()), View(), name)
      ensures r.Returned? ==> pg.trail == old(pg.trail) + [CreateSent(name, None)]
      ensures r.Returned? ==> OnlyMade(WorkspaceClient, pg.s, name, made)
      ensures r == Raised(DuplicateDatabaseError) ==> NotOurs(WorkspaceClient, pg.s, name)
      ensures r == Raised(Psycopg(SqlState)) ==> name !in pg.s.running
      ensures old(pg.Peaceful()) && name !in old(pg.s).catalog ==>
        && pg.Peaceful() && r.Returned? && name in pg.s.catalog
        && pg.s.catalog == old(pg.s).catalog[name := Entry(pg.s.catalog[name].oid, 0, Unmarked, true)]
    {
      hide Tracked, Moves, Consistent, SafeDrops, SameContent, NotOurs, OnlyMade, TouchesOnly, CreatesOnly,
           Recalled;
      ghost var v := View();
      made := Oid(0);
      var raised := Pause();
      NotOursStays(WorkspaceClient, v.s, pg.s, name);
      PausedCreatesOnly(WorkspaceClient, v, View(), name);
      if raised {
        return Raised(Cancelled), made;
      }
      ghost var w := View();
      NotOursMeans(WorkspaceClient, pg.s, name);
      UnprovenListed(WorkspaceClient, Owned(), Unproven(), pg.s);
      var reply := pg.CreateDatabase(name, None, WorkspaceClient);
      TrackedTouch(WorkspaceClient, Owned(), Unproven(), w.s, pg.s, name);
      TouchCreatesOnly(WorkspaceClient, w, View(), name);
      IssuedStays(WorkspaceClient, w, View(), name);
      CreatesTransitive(WorkspaceClient, v, w, View(), name);
      match reply {
        case DuplicateDatabase => return Raised(DuplicateDatabaseError), made;
        case CreateFailed(fault) => return Raised(Psycopg(fault)), made;
        case Created =>
      }
      made := pg.s.catalog[name].oid;
      OnlyMadeNow(WorkspaceClient, w.s, pg.s, name);
      ghost var x := View();
      raised := Pause();
      OnlyMadeStays(WorkspaceClient, x.s, pg.s, name, made);
      PausedCreatesOnly(WorkspaceClient, x, View(), name);
      CreatesTransitive(WorkspaceClient, v, x, View(), name);
      r := if raised then Raised(Cancelled) else Returned(());
    }

    /** The protected section: read the identity back, mark the database, record it. */
    method Record(ghost made: Oid) returns (r: Result<()>)
      requires Valid() && unproven && OnlyMade(WorkspaceClient, pg.s, name, made)
      requires JustSent(pg.trail, name)
      modifies this, pg, pg.control
      ensures r.Raised? ==> FromServer(r.e)
      ensures Valid() && CreatesOnly(WorkspaceClient, old(View()), View(), name) && name == old(name)
      ensures r.Returned? ==> created && databasesCreated == old(databasesCreated) + 1
      ensures r.Returned? ==>
        exists e :: ReadThenMarked(old(pg.trail), pg.trail, name, e) && oid == Some(e.oid) && owner == Some(e.owner)
      ensures r.Raised? ==> !r.e.DuplicateDatabaseError? && name !in pg.s.running
      ensures old(pg.Peaceful()) && name in old(pg.s).catalog ==>
        && pg.Peaceful() && r.Returned? && Alive()
        && pg.s.catalog == old(pg.s).catalog[name := old(pg.s).catalog[name].(marker := Of(WorkspaceClient))]
    {
      hide Tracked, Moves, Consistent, SafeDrops, SameContent, OnlyMade, Seen, Recalled;
      ghost var v := View();
      pg.control.EnterSection();
      r := RecordProtected(made);
      ghost var w := View();
      var raised := Leave();
      LeftCreatesOnly(WorkspaceClient, v, w, View(), name);
      RecordedStays(WorkspaceClient, w.s, pg.s, name, made);
      if raised {
        return Raised(Cancelled);
      }
    }

    method RecordProtected(ghost made: Oid) returns (r: Result<()>)
      requires Valid() && unproven && OnlyMade(WorkspaceClient, pg.s, name, made)
      requires JustSent(pg.trail, name)
      requires pg.control.protectedDepth > 0
      modifies this, pg, pg.control
      ensures r.Raised? ==> FromServer(r.e)
      ensures Valid() && CreatesOnly(WorkspaceClient, old(View()), View(), name)
      ensures OnlyMade(WorkspaceClient, pg.s, name, made) && name == old(name)
      ensures r.Returned? ==> created && databasesCreated == old(databasesCreated) + 1
      ensures r.Returned? ==>
        exists e :: ReadThenMarked(old(pg.trail), pg.trail, name, e) && oid == Some(e.oid) && owner == Some(e.owner)
      ensures r.Raised? ==> r.e.Psycopg? || r.e.RuntimeError?
      ensures old(pg.Peaceful()) && name in old(pg.s).catalog ==>
        && pg.Peaceful() && r.Returned? && Alive()
        && pg.s.catalog == old(pg.s).catalog[name := old(pg.s).catalog[name].(marker := Of(WorkspaceClient))]
    {
      hide Tracked, Moves, Consistent, SafeDrops, SameContent, OnlyMade, Seen, CreatesOnly, ReadOnce,
           ReadThenMarked, JustSent, JustReadBack, Recalled;
      ghost var v := View();
      ghost var before := pg.trail;
      var row := ReadBack(made);
      if row.Raised? {
        return Raised(row.e);
      }
      var entry := row.value;
      ghost var w := View();
      ghost var read := pg.trail;
      var marked := MarkDatabase(made, entry.oid);
      CreatesTransitive(WorkspaceClient, v, w, View(), name);
      if marked.Failed? {
        return Raised(Psycopg(marked.fault));
      }
      MarkedAfterRead(before, read, pg.trail, name, entry);
      ghost var x := View();
      Register(entry, made);
      RegisteredCreatesOnly(WorkspaceClient, v, x, View(), name);
      r := Returned(());
    }

    /** The statements after the COMMENT: the database is proven and recorded. */
    method Register(entry: Entry, ghost made: Oid)
      requires Valid() && unproven && OnlyMade(WorkspaceClient, pg.s, name, made) && Seen(pg.s, name, made, entry.oid)
      requires JustReadBack(pg.trail, name, Identified(entry.oid, entry.owner))
      modifies this, pg`s
      ensures Valid() && name == old(name) && created && !unproven && OnlyMade(WorkspaceClient, pg.s, name, made)
      ensures pg.s == old(pg.s).(recorded := old(pg.s).recorded + {Identified(entry.oid, entry.owner)})
      ensures Moves(old(pg.s), pg.s, Some(WorkspaceClient)) && SameContent(old(pg.s), pg.s)
      ensures oid == Some(entry.oid) && owner == Some(entry.owner)
      ensures databasesCreated == old(databasesCreated) + 1
      ensures View().owned == old(View()).owned[name := OwnedDatabase(name, entry.oid, entry.owner)]
      ensures View() == old(View()).(owned := View().owned, unproven := old(View()).unproven - {name}, s := pg.s)
    {
      hide Tracked, Moves, Consistent, SafeDrops, OnlyMade, Seen, SameContent, Drops, Creationless, Recalled;
      SeenMeans(WorkspaceClient, pg.s, name, made, entry.oid);
      Acknowledged(WorkspaceClient, Owned(), Unproven(), pg.s, Identified(entry.oid, entry.owner), name, made,
                   entry.oid);
      pg.Acknowledge(name, entry.oid, entry.owner, made, WorkspaceClient);
      TrackedRecord(WorkspaceClient, Owned(), Unproven(), pg.s, OwnedDatabase(name, entry.oid, entry.owner), made);
      assert {name} - {name} == {};
      oid, owner := Some(entry.oid), Some(entry.owner);
      created, unproven := true, false;
      lastCleanup := None;
      databasesCreated := databasesCreated + 1;
    }

    method ReadBack(ghost made: Oid) returns (r: Result<Entry>)
      requires Valid() && OnlyMade(WorkspaceClient, pg.s, name, made) && pg.control.protectedDepth > 0
      modifies pg, pg.control
      ensures r.Raised? ==> FromServer(r.e)
      ensures Valid() && CreatesOnly(WorkspaceClient, old(View()), View(), name)
      ensures OnlyMade(WorkspaceClient, pg.s, name, made)
      ensures View() == old(View()).(s := pg.s, control := pg.control.State())
      ensures pg.control.protectedDepth == old(pg.control.protectedDepth)
      ensures r.Raised? ==> r.e.Psycopg? || r.e.RuntimeError?
      ensures r.Returned? ==> ReadOnce(old(pg.trail), pg.trail, name, r.value)
      ensures r.Returned? ==> Seen(pg.s, name, made, r.value.oid)
      ensures old(pg.Peaceful()) && name in old(pg.s).catalog ==>
        pg.Peaceful() && r == Returned(old(pg.s).catalog[name]) && pg.s == old(pg.s)
    {
      hide Tracked, Moves, Consistent, SafeDrops, SameContent, OnlyMade, Seen, CreatesOnly, Recalled;
      ghost var v := View();
      var raised := Pause();
      OnlyMadeStays(WorkspaceClient, v.s, pg.s, name, made);
      PausedCreatesOnly(WorkspaceClient, v, View(), name);
      var row := pg.Identify(name);
      if row.Failed? {
        return Raised(Psycopg(row.fault));
      }
      if row.value.None? {
        return Raised(RuntimeError);
      }
      SeenNow(WorkspaceClient, pg.s, name, made);
      r := Returned(row.value.value);
    }

    method MarkDatabase(ghost made: Oid, ghost seen: Oid) returns (marked: Reply<()>)
      requires Valid() && OnlyMade(WorkspaceClient, pg.s, name, made) && Seen(pg.s, name, made, seen)
      requires pg.control.protectedDepth > 0
      modifies pg, pg.control
      ensures Valid() && CreatesOnly(WorkspaceClient, old(View()), View(), name)
      ensures pg.trail == old(pg.trail) + [CommentSent(name)]
      ensures OnlyMade(WorkspaceClient, pg.s, name, made) && Seen(pg.s, name, made, seen)
      ensures old(pg.Peaceful()) && name in old(pg.s).catalog ==>
        && pg.Peaceful() && marked.Ok?
        && pg.s == old(pg.s).(catalog := old(pg.s).catalog[name := old(pg.s).catalog[name].(marker := Of(WorkspaceClient))])
    {
      hide Tracked, Moves, Consistent, SafeDrops, SameContent, OnlyMade, Seen, Recalled;
      ghost var v := View();
      var raised := Pause();
      ghost var w := View();
      marked := pg.Mark(name, WorkspaceClient);
      MovesTransitive(v.s, w.s, pg.s, None);
      TrackedWaits(WorkspaceClient, Owned(), Unproven(), v.s, pg.s);
      WorkspaceNameWaits(v.s, pg.s, name);
      OnlyMadeStays(WorkspaceClient, v.s, pg.s, name, made);
      SeenStays(v.s, pg.s, name, made, seen);
      PausedCreatesOnly(WorkspaceClient, v, View(), name);
    }

    /** The `except` clauses of `create`. */
    method AfterFailure(e: Exception) returns (r: Result<()>)
      requires FromServer(e)
      requires Valid()
      requires e == DuplicateDatabaseError ==> NotOurs(WorkspaceClient, pg.s, name)
      requires e == Psycopg(SqlState) && unproven ==> name !in pg.s.running
      modifies this, pg, pg.control
      ensures r.Raised? ==> FromServer(r.e)
      ensures Valid() && CreatesOnly(WorkspaceClient, old(View()), View(), name) && r.Raised? && name == old(name)
      ensures unproven ==> old(unproven)
      ensures e == DuplicateDatabaseError ==> !unproven && r.e == e
      ensures old(unproven) && !unproven ==>
        e == DuplicateDatabaseError || (e == Psycopg(SqlState) && name !in pg.s.catalog && name !in pg.s.running)
      ensures r.e == Cancelled || r.e == if unproven then RuntimeError else e
      ensures old(pg.Peaceful()) && e == Psycopg(SqlState) && name !in old(pg.s).catalog ==> !unproven && r.e == e
    {
      hide Tracked, Moves, Consistent, SafeDrops, SameContent, Recalled;
      ghost var v := View();
      CreatesRefl(WorkspaceClient, v, name);
      if e == DuplicateDatabaseError {
        Discard();
        return Raised(e);
      }
      if e == Psycopg(SqlState) {
        var raised := Pause();
        PausedCreatesOnly(WorkspaceClient, v, View(), name);
        if raised {
          return Raised(Cancelled);
        }
        var row := pg.Identify(name);
        if row.Ok? && row.value.None? && unproven {
          NotRunningStays(WorkspaceClient, v.s, pg.s, name);
          ghost var w := View();
          Discard();
          CreatesTransitive(WorkspaceClient, v, w, View(), name);
        }
      }
      r := Raised(if unproven then RuntimeError else e);
    }

    /** `self.unproven = True` */
    method Expect()
      requires Valid() && !created && !unproven
      modifies this`unproven, pg`s
      ensures Valid() && CreatesOnly(WorkspaceClient, old(View()), View(), name)
      ensures unproven && pg.s == Lists(old(pg.s), name, true)
      ensures old(NotOurs(WorkspaceClient, pg.s, name)) ==> NotOurs(WorkspaceClient, pg.s, name)
    {
      hide Tracked, Moves, Dropless, Consistent, SafeDrops, SameContent, CreatesOnly, Recalled;
      ghost var v := View();
      TrackedUnproven(WorkspaceClient, Owned(), Unproven(), pg.s, name);
      assert {} + {name} == {name};
      pg.List(name, true, WorkspaceClient);
      unproven := true;
      UnprovenCreatesOnly(WorkspaceClient, v, View(), name);
    }

    /** `self.unproven = False` */
    method Discard()
      requires Valid() && NotOurs(WorkspaceClient, pg.s, name)
      modifies this`unproven, pg`s
      ensures Valid() && CreatesOnly(WorkspaceClient, old(View()), View(), name)
      ensures !unproven && pg.s == old(pg.s).(listed := pg.s.listed)
    {
      hide Tracked, Moves, Dropless, Consistent, SafeDrops, SameContent, CreatesOnly, Recalled;
      ghost var v := View();
      CreatesRefl(WorkspaceClient, v, name);
      if unproven {
        TrackedForget(WorkspaceClient, Owned(), Unproven(), pg.s, name);
        assert Unproven() - {name} == {};
        pg.List(name, false, WorkspaceClient);
        unproven := false;
        ForgetCreatesOnly(WorkspaceClient, v, v, View(), name);
      }
    }

    // ---- restoring ----

    /** `reset`: a new database, with what pg_restore makes of the archive in it. */
    method Reset(restoration: Restoration) returns (r: Result<()>)
      requires Valid()
      modifies this, pg, pg.control
      ensures Valid() && Moves(old(pg.s), pg.s, Some(WorkspaceClient)) && name == old(name)
      ensures r.Returned? ==> created && restoration.Restores?
      ensures r.Raised? ==> r.e != OracleError
      ensures r.Raised? && r.e.ClientError? ==>
        r.e.reason == if restoration.Stops? then restoration.reason else OtherReason
      ensures r.Returned? && pg.s.squatted == {} ==> Holds(restoration.data)
      ensures DropsAmong(WorkspaceClient, old(pg.s), pg.s, old(Owned()))
      ensures SameSection(old(pg.control.State()), pg.control.State())
      ensures old(pg.Peaceful()) && old(Healthy()) ==>
        && pg.Peaceful() && Alive()
        && r == if restoration.Restores? then Returned(()) else Raised(ClientError(restoration.reason))
    {
      hide Dropless, DropsAmong, Tracked, Moves, Consistent, SafeDrops, SameContent, CreatesOnly, Recalled;
      ghost var before, owned := pg.s, Owned();
      r := Create();
      if r.Raised? {
        return;
      }
      ghost var w := pg.s;
      var raised := Pause();
      MovesAlone(w, pg.s, Some(WorkspaceClient));
      MovesTransitive(before, w, pg.s, Some(WorkspaceClient));
      AloneDropless(w, pg.s);
      DropsAmongThen(WorkspaceClient, before, w, pg.s, owned);
      if raised {
        return Raised(Cancelled);
      }
      w := pg.s;
      var data := if restoration.Restores? then restoration.data else EMPTY;
      var reply := pg.Write(name, data, WorkspaceClient);
      WriteTracked(WorkspaceClient, Owned(), Unproven(), w, pg.s, name);
      MovesTransitive(before, w, pg.s, Some(WorkspaceClient));
      WritingDropsNothing(w, pg.s);
      DropsAmongThen(WorkspaceClient, before, w, pg.s, owned);
      if restoration.Stops? {
        return Raised(ClientError(restoration.reason));
      }
      if reply.Failed? {
        return Raised(ClientError(OtherReason));
      }
      NamesItself(WorkspaceClient, Owned(), Unproven(), pg.s, name);
      r := Returned(());
    }

    /** The workspace database holds `data`. */
    ghost predicate Holds(data: Content)
      reads this, pg
    {
      created && oid.Some? && oid.value in pg.s.content && pg.s.content[oid.value] == data
    }

    /** Read the workspace through its DSN: a dump, or the rows. */
    method Read() returns (r: Result<Content>)
      requires Valid()
      modifies pg, pg.control
      ensures r.Raised? ==> FromServer(r.e)
      ensures Valid() && Moves(old(pg.s), pg.s, None) && SameSection(old(pg.control.State()), pg.control.State())
      ensures r.Returned? && created && pg.s.squatted == {} ==> Holds(r.value)
      ensures forall data :: old(Holds(data)) && pg.s.squatted == {} ==> Holds(data)
      ensures old(pg.Peaceful()) && old(Alive()) ==> pg.Peaceful() && r.Returned? && Alive()
    {
      hide Tracked, Moves, Consistent, SafeDrops, Recalled;
      var raised := Pause();
      if raised {
        return Raised(Cancelled);
      }
      var reply := pg.Read(name);
      if reply.Failed? {
        return Raised(Psycopg(reply.fault));
      }
      if created { NamesItself(WorkspaceClient, Owned(), Unproven(), pg.s, name); }
      r := Returned(reply.value);
    }

    /** Something connected to the workspace - the deletion, the oracle - leaves `data` in it. */
    method Overwrite(data: Content) returns (r: Result<()>)
      requires Valid()
      modifies pg, pg.control
      ensures r.Raised? ==> FromServer(r.e)
      ensures Valid() && Moves(old(pg.s), pg.s, Some(WorkspaceClient))
      ensures SameSection(old(pg.control.State()), pg.control.State())
      ensures r.Returned? && created && pg.s.squatted == {} ==> Holds(data)
      ensures old(pg.Peaceful()) && old(Alive()) ==> pg.Peaceful() && r.Returned? && Alive()
    {
      hide Tracked, Moves, Consistent, SafeDrops, Recalled;
      ghost var before := pg.s;
      var raised := Pause();
      MovesAlone(before, pg.s, Some(WorkspaceClient));
      if raised {
        return Raised(Cancelled);
      }
      ghost var w := pg.s;
      var reply := pg.Write(name, data, WorkspaceClient);
      WriteTracked(WorkspaceClient, Owned(), Unproven(), w, pg.s, name);
      MovesTransitive(before, w, pg.s, Some(WorkspaceClient));
      if reply.Failed? {
        return Raised(Psycopg(reply.fault));
      }
      if created { NamesItself(WorkspaceClient, Owned(), Unproven(), pg.s, name); }
      r := Returned(());
    }
  }

  lemma WritingDropsNothing(s: ServerState, t: ServerState)
    requires t.dropped == s.dropped && t.dropping == s.dropping
    ensures Dropless(s, t)
  {
  }

  lemma CreatesMoves(v: View, w: View, n: Name)
    requires CreatesOnly(WorkspaceClient, v, w, n)
    ensures Moves(v.s, w.s, Some(WorkspaceClient)) && SameSection(v.control, w.control)
    ensures Dropless(v.s, w.s)
  {
  }

  lemma WorkspaceNameStays(s: ServerState, t: ServerState, n: Name)
    requires IssuedBy(WorkspaceClient, s, n) && Creationless(s, t)
    ensures IssuedBy(WorkspaceClient, t, n)
  {
    hide Settles;
  }

  lemma WorkspaceNameWaits(s: ServerState, t: ServerState, n: Name)
    requires IssuedBy(WorkspaceClient, s, n) && Moves(s, t, None)
    ensures IssuedBy(WorkspaceClient, t, n)
  {
    hide Settles, Drops;
  }
}
