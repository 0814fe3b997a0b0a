/** Databases cloned for candidates and oracle runs (postgres/clone.py): each is tracked from
    the moment its CREATE may have reached the server until its removal is confirmed.

    `Pause` marks the places between statements where others act and a signal can raise. */
module CloneStore {
  import opened Ordering
  import opened Wrappers
  import opened Schema
  import opened Server
  import opened Cancellation
  import opened Cluster
  import opened Cleanup
  import opened Tracking
  import opened Keeping

  class CloneStore {
    const pg: Postgres
    var owned: map<Name, OwnedDatabase>
    var unproven: set<Name>
    var frozen: set<Oid>  // the `frozen` flag of the handles
    var lastCleanup: map<Name, Status>
    var created: nat
    var dropped: nat
    var alreadyAbsent: nat
    var cloneAttempts: nat
    var cloneFailures: nat
    var cleanupFailures: nat
    /** Databases forgotten but not counted, because a signal came between the two statements. */
    ghost var uncounted: nat

    /** Every database ever recorded is owned, dropped, found absent, or - for at most one, and
        only if `Cancelled` was raised - uncounted. */
    ghost predicate Accounts()
      reads this, pg.control
    {
      && created == |owned| + dropped + alreadyAbsent + uncounted
      && uncounted <= 1
      && (uncounted == 1 ==> pg.control.delivered)
    }

    ghost predicate Valid()
      reads this, pg, pg.control
    {
      pg.Valid() && !pg.control.leaving && Accounts() && Tracked(StoreClient, owned, unproven, pg.s)
    }

    constructor (pg: Postgres)
      requires pg.Valid() && !pg.control.leaving
      requires forall n :: n in pg.s.issuedTo ==> pg.s.issuedTo[n] != StoreClient
      ensures this.pg == pg && Valid() && owned == map[] && unproven == {} && frozen == {}
    {
      this.pg := pg;
      owned, unproven, frozen, lastCleanup := map[], {}, {}, map[];
      created, dropped, alreadyAbsent, uncounted := 0, 0, 0, 0;
      cloneAttempts, cloneFailures, cleanupFailures := 0, 0, 0;
    }

    /** The databases `leftovers` reports. */
    function Leftovers(): set<Name>
      reads this
    {
      owned.Keys + unproven
    }

    /** The store's own handle. */
    ghost predicate Recorded(database: OwnedDatabase)
      reads this
    {
      database.name in owned && owned[database.name] == database
    }

    /** A recorded database that is there as recorded, or is not there at all. */
    ghost predicate Removable(database: OwnedDatabase)
      reads this, pg
    {
      Recorded(database) && (database.name in pg.s.catalog ==> Intact(StoreClient, pg.s, database))
    }

    /** The last drop of the database is reported as not done. */
    ghost predicate LeftBehind(database: OwnedDatabase)
      reads this
    {
      database.name in lastCleanup && !lastCleanup[database.name].Done()
    }

    ghost predicate AllRemovable()
      reads this, pg
    {
      AllIntact(owned, pg.s)
    }

    /** A source the catalog lets be cloned. */
    ghost predicate Cloneable(s: ServerState, database: OwnedDatabase)
      reads this
    {
      Recorded(database) && Intact(StoreClient, s, database) && !s.catalog[database.name].allowConn
    }

    /** Between two statements. */
    method Pause() returns (raised: bool)
      requires Valid()
      modifies pg`s, pg`now, pg`looks, pg.control
      ensures Valid() && Moves(old(pg.s), pg.s, None) && SameContent(old(pg.s), pg.s)
      ensures Signals(old(pg.control.State()), pg.control.State(), raised)
      ensures pg.calm ==> pg.s == old(pg.s) && !raised && pg.control.State() == old(pg.control.State())
    {
      hide Tracked, Drops, SafeDrops, Consistent, Grows, Settles, Recalled;
      ghost var before := pg.s;
      raised := pg.Turn();
      TrackedStays(StoreClient, owned, unproven, before, pg.s, None);
      AloneKeepsContent(before, pg.s);
    }

    /** The end of `with current().protected()`. */
    method Leave() returns (raised: bool)
      requires Valid() && pg.control.protectedDepth > 0
      modifies pg`s, pg`now, pg`looks, pg.control
      ensures Valid() && Moves(old(pg.s), pg.s, None) && SameContent(old(pg.s), pg.s)
      ensures pg.control.protectedDepth == old(pg.control.protectedDepth) - 1
      ensures pg.control.committed == old(pg.control.committed) && pg.control.active == old(pg.control.active)
      ensures old(pg.control.delivered) || raised ==> pg.control.delivered
      ensures raised ==> pg.control.protectedDepth == 0
      ensures old(pg.control.requested).Some? ==> pg.control.requested.Some?
      ensures old(pg.Peaceful()) ==> pg.Peaceful() && !raised && pg.s == old(pg.s)
    {
      hide Tracked, Drops, SafeDrops, Consistent, Grows, Settles, Recalled;
      ghost var before := pg.s;
      pg.control.DecrementSection();
      raised := pg.Turn();
      if !raised {
        raised := pg.control.CheckSection();
      }
      TrackedStays(StoreClient, owned, unproven, before, pg.s, None);
      AloneKeepsContent(before, pg.s);
    }

    ghost function View(): View
      reads this, pg, pg.control
    {
      StoreView(owned, unproven, frozen, dropped, alreadyAbsent, uncounted, cleanupFailures, pg.s, pg.control.State())
    }

    // ---- creating ----

    /** `_create`: CREATE DATABASE under a fresh name, from template0 or from another database,
        recorded once its OID and owner are read back. */
    method Create(template: Option<OwnedDatabase>) returns (r: Result<OwnedDatabase>)
      requires Valid()
      requires template.Some? ==> template.value.name in owned && owned[template.value.name] == template.value
      modifies this, pg, pg.control
      ensures r.Raised? ==> FromServer(r.e)
      ensures Valid()
      ensures r.Returned? ==>
        && CreatesOnly(StoreClient, old(View()), View(), r.value.name)
        && r.value.name in owned && owned[r.value.name] == r.value && r.value.name !in old(owned)
        && unproven == old(unproven)
      ensures r.Raised? ==> exists n :: CreatesOnly(StoreClient, old(View()), View(), n)
      ensures r.Raised? && r.e != Cancelled ==> owned == old(owned)
      ensures r.Returned? && template.Some? && pg.s.squatted == {} ==>
        && r.value.oid in pg.s.content && template.value.oid in old(pg.s.content)
        && pg.s.content[r.value.oid] == old(pg.s.content)[template.value.oid]
      ensures r.Returned? ==> Sent(old(pg.trail), pg.trail, CreateSent(r.value.name, NameOf(template)))
      ensures cloneAttempts == old(cloneAttempts) + (if template.Some? then 1 else 0)
      ensures cloneFailures == old(cloneFailures) + (if template.Some? && r.Raised? then 1 else 0)
      ensures old(pg.Peaceful()) && (template.Some? ==> template.value.name in old(pg.s).catalog) ==>
        pg.Peaceful() && r.Returned? && Adds(StoreClient, old(pg.s), pg.s, r.value)
    {
      hide Tracked, Moves, Consistent, SafeDrops, SameContent, NotOurs, CreatesOnly, Recalled;
      ghost var v := View();
      var name := FreshName();
      if template.Some? {
        cloneAttempts := cloneAttempts + 1;
      }
      ghost var w := View();
      r := TryCreate(name, template);
      CreatesTransitive(StoreClient, v, w, View(), name);
      if r.Returned? {
        Issued(StoreClient, v, w, View(), name);
      } else {
        ghost var x := View();
        IssuedStays(StoreClient, w, x, name);
        r := AfterFailure(name, r.e);
        CreatesTransitive(StoreClient, v, x, View(), name);
        if name in unproven { NotRecorded(StoreClient, v, View(), name); }
        if template.Some? {
          cloneFailures := cloneFailures + 1;
        }
        assert CreatesOnly(StoreClient, v, View(), name);
      }
    }

    method FreshName() returns (name: Name)
      requires Valid()
      modifies pg`s
      ensures Valid() && CreatesOnly(StoreClient, old(View()), View(), name)
      ensures IssuedBy(StoreClient, pg.s, name) && name !in owned && name !in unproven
      ensures View() == old(View()).(s := pg.s) && pg.s == old(pg.s).(issuedTo := pg.s.issuedTo)
      ensures name !in pg.s.catalog && name !in pg.s.running
    {
      hide Tracked, Moves, Consistent, SafeDrops, SameContent, NotOurs, Recalled;
      ghost var v := View();
      name := pg.Issue(StoreClient);
      TrackedIssue(StoreClient, owned, unproven, v.s, pg.s, name);
      IssueCreatesOnly(StoreClient, v, View(), name);
    }

    /** The `try` body of `_create`. */
    method TryCreate(name: Name, template: Option<OwnedDatabase>) returns (r: Result<OwnedDatabase>)
      requires Valid() && IssuedBy(StoreClient, pg.s, name) && name !in owned && name !in unproven
      requires template.Some? ==> template.value.name in owned && owned[template.value.name] == template.value
      modifies this, pg, pg.control
      ensures r.Raised? ==> FromServer(r.e)
      ensures Valid() && CreatesOnly(StoreClient, old(View()), View(), name)
      ensures cloneAttempts == old(cloneAttempts) && cloneFailures == old(cloneFailures)
      ensures r.Returned? ==>
        r.value.name == name && name in owned && owned[name] == r.value && unproven == old(unproven)
      ensures r.Raised? && r.e != Cancelled ==> owned == old(owned)
      ensures r == Raised(DuplicateDatabaseError) ==> NotOurs(StoreClient, pg.s, name)
      ensures r == Raised(Psycopg(SqlState)) ==> name !in pg.s.running
      ensures r.Returned? ==> Sent(old(pg.trail), pg.trail, CreateSent(name, NameOf(template)))
      ensures r.Returned? && template.Some? && pg.s.squatted == {} ==>
        && r.value.oid in pg.s.content && template.value.oid in old(pg.s.content)
        && pg.s.content[r.value.oid] == old(pg.s.content)[template.value.oid]
      ensures old(pg.Peaceful()) && name !in old(pg.s).catalog
              && (template.Some? ==> template.value.name in old(pg.s).catalog) ==>
        pg.Peaceful() && r.Returned? && Adds(StoreClient, old(pg.s), pg.s, r.value)
    {
      hide Tracked, Moves, Consistent, SafeDrops, SameContent, CreatesOnly, NotOurs, OnlyMade, FromServer, Sent,
           RecordedAsRead, Recalled;
      ghost var v, before := View(), pg.trail;
      var begun := Begin(name);
      if begun.Raised? {
        return Raised(begun.e);
      }
      ghost var made;
      var requested;
      ghost var y := View();
      requested, made := RequestCreate(name, template);
      CreatesTransitive(StoreClient, v, y, View(), name);
      if requested.Raised? {
        return Raised(requested.e);
      }
      ghost var x := View();
      ghost var sent := pg.trail;
      r := Record(name, made);
      CreatesTransitive(StoreClient, v, x, View(), name);
      if r.Returned? { SentFirst(before, sent, pg.trail, CreateSent(name, NameOf(template)), r.value); }
      if r.Returned? && template.Some? && pg.s.squatted == {} {
        NoSquatters(StoreClient, x, View(), name);
        ContentCarried(StoreClient, v, y, x, View(), name, template.value, made);
      }
    }

    /** What comes before the CREATE: the session, then the name is unproven. */
    method Begin(name: Name) returns (r: Result<()>)
      requires Valid() && IssuedBy(StoreClient, pg.s, name) && name !in owned && name !in unproven
      modifies this`unproven, pg`s, pg`now, pg`looks, pg`trail, pg.control
      ensures r.Raised? ==> FromServer(r.e) && !r.e.DuplicateDatabaseError? && name !in pg.s.running
      ensures r.Raised? ==> unproven == old(unproven)
      ensures r.Returned? ==> pg.trail == old(pg.trail)
      ensures Valid() && CreatesOnly(StoreClient, old(View()), View(), name) && NotOurs(StoreClient, pg.s, name)
      ensures r.Returned? ==> unproven == old(unproven) + {name}
      ensures old(pg.Peaceful()) ==>
        pg.Peaceful() && r.Returned? && pg.s.catalog == old(pg.s).catalog && pg.s.running == old(pg.s).running
    {
      hide Tracked, Moves, Consistent, SafeDrops, SameContent, CreatesOnly, NotOurs, Recalled;
      ghost var v := View();
      Untracked(StoreClient, owned, unproven, pg.s, name);
      r := OpenSession(name);
      ghost var w := View();
      NotOursMeans(StoreClient, pg.s, name);
      if r.Returned? {
        Expect(name);
        CreatesTransitive(StoreClient, v, w, View(), name);
      }
    }

    /** Connect and set the session up. */
    method OpenSession(ghost name: Name) returns (r: Result<()>)
      requires Valid() && NotOurs(StoreClient, pg.s, name)
      modifies pg`s, pg`now, pg`looks, pg`trail, pg.control
      ensures r.Raised? ==> FromServer(r.e)
      ensures r.Returned? ==> pg.trail == old(pg.trail)
      ensures Valid() && CreatesOnly(StoreClient, old(View()), View(), name) && NotOurs(StoreClient, pg.s, name)
      ensures View() == old(View()).(s := pg.s, control := pg.control.State())
      ensures r.Raised? ==> r.e.Psycopg? || r.e.Cancelled?
      ensures old(pg.Peaceful()) ==> pg.Peaceful() && r.Returned? && pg.s == old(pg.s)
    {
      hide Tracked, Grows, Settles, Drops, Consistent, SafeDrops, SameContent, NotOurs, Recalled;
      ghost var v := View();
      var raised := Pause();
      NotOursStays(StoreClient, v.s, pg.s, name);
      PausedCreatesOnly(StoreClient, v, View(), name);
      if raised {
        return Raised(Cancelled);
      }
      var ready := pg.Prepare();
      r := if ready.Failed? then Raised(Psycopg(ready.fault)) else Returned(());
    }

    /** The CREATE itself; its name is unproven already. */
    method RequestCreate(name: Name, template: Option<OwnedDatabase>) returns (r: Result<()>, ghost made: Oid)
      requires Valid() && name in unproven && NotOurs(StoreClient, pg.s, name)
      requires template.Some? ==> template.value.name in owned && owned[template.value.name] == template.value
      modifies pg, pg.control
      ensures r.Raised? ==> FromServer(r.e)
      ensures Valid() && CreatesOnly(StoreClient, old(View()), View(), name)
      ensures View() == old(View()).(s := pg.s, control := pg.control.State())
      ensures r.Returned? ==> OnlyMade(StoreClient, pg.s, name, made)
      ensures r.Returned? ==> pg.trail == old(pg.trail) + [CreateSent(name, NameOf(template))]
      ensures r.Returned? && template.Some? && pg.s.squatted == {} ==>
        && made in pg.s.content && template.value.oid in old(pg.s.content)
        && pg.s.content[made] == old(pg.s.content)[template.value.oid]
      ensures r == Raised(DuplicateDatabaseError) ==> NotOurs(StoreClient, pg.s, name)
      ensures r == Raised(Psycopg(SqlState)) ==> name !in pg.s.running
      ensures old(pg.Peaceful()) && name !in old(pg.s).catalog
              && (template.Some? ==> template.value.name in old(pg.s).catalog) ==>
        && pg.Peaceful() && r.Returned? && name in pg.s.catalog && pg.s.running == old(pg.s).running
        && pg.s.catalog == old(pg.s).catalog[name := Entry(pg.s.catalog[name].oid, 0, Unmarked, true)]
    {
      hide Tracked, Grows, Settles, Drops, Consistent, SafeDrops, SameContent, TouchesOnly, NotOurs, OnlyMade,
           Recalled;
      ghost var v := View();
      made := Oid(0);
      var raised := Pause();
      NotOursStays(StoreClient, v.s, pg.s, name);
      PausedCreatesOnly(StoreClient, v, View(), name);
      if raised {
        return Raised(Cancelled), made;
      }
      ghost var w := View();
      NotOursMeans(StoreClient, pg.s, name);
      UnprovenListed(StoreClient, owned, unproven, pg.s);
      var reply := pg.CreateDatabase(name, NameOf(template), StoreClient);
      TrackedTouch(StoreClient, owned, unproven, w.s, pg.s, name);
      TouchCreatesOnly(StoreClient, w, View(), name);
      CreatesTransitive(StoreClient, v, w, View(), name);
      match reply {
        case DuplicateDatabase => return Raised(DuplicateDatabaseError), made;
        case CreateFailed(fault) => return Raised(Psycopg(fault)), made;
        case Created =>
      }
      made := pg.s.catalog[name].oid;
      OnlyMadeNow(StoreClient, w.s, pg.s, name);
      ghost var x := View();
      ContentKnown(StoreClient, x.s, name, made);
      if template.Some? {
        ContentKnownAt(w.s, template.value.name);
      }
      if template.Some? && x.s.squatted == {} {
        TemplateContent(StoreClient, v, w, x, template.value, made);
      }
      raised := Pause();
      OnlyMadeStays(StoreClient, x.s, pg.s, name, made);
      PausedCreatesOnly(StoreClient, x, View(), name);
      CreatesTransitive(StoreClient, v, x, View(), name);
      MadeContentStays(StoreClient, x.s, pg.s, name, made);
      r := if raised then Raised(Cancelled) else Returned(());
    }

    /** The protected section of `_create`: read the identity back, mark the database, record it. */
    method Record(name: Name, ghost made: Oid) returns (r: Result<OwnedDatabase>)
      requires Valid() && name in unproven && name !in owned && OnlyMade(StoreClient, pg.s, name, made)
      requires JustSent(pg.trail, name)
      modifies this, pg, pg.control
      ensures r.Raised? ==> FromServer(r.e)
      ensures Valid() && CreatesOnly(StoreClient, old(View()), View(), name)
      ensures cloneAttempts == old(cloneAttempts) && cloneFailures == old(cloneFailures)
      ensures r.Returned? ==>
        && r.value.name == name && name in owned && owned[name] == r.value && unproven == old(unproven) - {name}
        && (pg.s.squatted == {} ==> r.value.oid == made)
      ensures r.Raised? && r.e != Cancelled ==> owned == old(owned) && unproven == old(unproven)
      ensures r.Returned? ==> RecordedAsRead(old(pg.trail), pg.trail, r.value)
      ensures r.Raised? ==> !r.e.DuplicateDatabaseError? && name !in pg.s.running
      ensures old(pg.Peaceful()) && name in old(pg.s).catalog ==>
        && pg.Peaceful() && r.Returned? && pg.s.running == old(pg.s).running
        && Shown(old(pg.s).catalog[name].(marker := Of(StoreClient))) == OwnedEntry(r.value.oid, r.value.owner, StoreClient)
        && pg.s.catalog == old(pg.s).catalog[name := old(pg.s).catalog[name].(marker := Of(StoreClient))]
    {
      hide Tracked, Grows, Settles, Drops, Consistent, SafeDrops, SameContent, OnlyMade, Seen, Recalled;
      ghost var v := View();
      pg.control.EnterSection();
      r := RecordProtected(name, made, v);
      ghost var w := View();
      var raised := Leave();
      LeftCreatesOnly(StoreClient, v, w, View(), name);
      RecordedStays(StoreClient, w.s, pg.s, name, made);
      if raised {
        return Raised(Cancelled);
      }
    }

    method RecordProtected(name: Name, ghost made: Oid, ghost v: View) returns (r: Result<OwnedDatabase>)
      requires Valid() && name in unproven && name !in owned && OnlyMade(StoreClient, pg.s, name, made)
      requires JustSent(pg.trail, name)
      requires pg.control.protectedDepth > 0
      requires View() == v.(control := pg.control.State())
      modifies this, pg, pg.control
      ensures r.Raised? ==> FromServer(r.e)
      ensures Valid() && OnlyMade(StoreClient, pg.s, name, made)
      ensures CreatesOnly(StoreClient, v.(control := old(pg.control.State())), View(), name)
      ensures cloneAttempts == old(cloneAttempts) && cloneFailures == old(cloneFailures)
      ensures r.Returned? ==>
        && r.value.name == name && name in owned && owned[name] == r.value && unproven == v.unproven - {name}
        && (pg.s.squatted == {} ==> r.value.oid == made)
      ensures r.Returned? ==> RecordedAsRead(old(pg.trail), pg.trail, r.value)
      ensures r.Raised? ==>
        owned == v.owned && unproven == v.unproven && !r.e.DuplicateDatabaseError? && !r.e.Cancelled?
      ensures old(pg.Peaceful()) && name in old(pg.s).catalog ==>
        && pg.Peaceful() && r.Returned? && pg.s.running == old(pg.s).running
        && Shown(old(pg.s).catalog[name].(marker := Of(StoreClient))) == OwnedEntry(r.value.oid, r.value.owner, StoreClient)
        && pg.s.catalog == old(pg.s).catalog[name := old(pg.s).catalog[name].(marker := Of(StoreClient))]
    {
      hide Tracked, Moves, Consistent, SafeDrops, SameContent, OnlyMade, Seen, ReadOnce, ReadThenMarked, JustSent,
           JustReadBack, Recalled;
      ghost var u := View();
      ghost var before := pg.trail;
      var row := ReadBack(name, made);
      if row.Raised? {
        return Raised(row.e);
      }
      ghost var w := View();
      ghost var read := pg.trail;
      var marked := MarkDatabase(name, made, row.value.oid);
      CreatesTransitive(StoreClient, u, w, View(), name);
      SquattedGrows(w.s, pg.s);
      if marked.Failed? {
        return Raised(Psycopg(marked.fault));
      }
      MarkedAfterRead(before, read, pg.trail, name, row.value);
      ghost var x := View();
      var database := OwnedDatabase(name, row.value.oid, row.value.owner);
      Register(database, made);
      RegisteredCreatesOnly(StoreClient, v.(control := u.control), x, View(), name);
      r := Returned(database);
    }

    /** The statements after the COMMENT: the database is proven and recorded. */
    method Register(database: OwnedDatabase, ghost made: Oid)
      requires Valid() && database.name in unproven && database.name !in owned
      requires OnlyMade(StoreClient, pg.s, database.name, made) && Seen(pg.s, database.name, made, database.oid)
      requires JustReadBack(pg.trail, database.name, Identified(database.oid, database.owner))
      modifies this`owned, this`unproven, this`created, pg`s
      ensures Valid() && OnlyMade(StoreClient, pg.s, database.name, made)
      ensures owned == old(owned)[database.name := database] && unproven == old(unproven) - {database.name}
      ensures pg.s == old(pg.s).(recorded := old(pg.s).recorded + {Identified(database.oid, database.owner)})
      ensures Moves(old(pg.s), pg.s, Some(StoreClient)) && Creationless(old(pg.s), pg.s) && SameContent(old(pg.s), pg.s)
    {
      hide Tracked, Moves, Consistent, SafeDrops, OnlyMade, Seen, Creationless, SameContent, Drops, Recalled;
      SeenMeans(StoreClient, pg.s, database.name, made, database.oid);
      Acknowledged(StoreClient, owned, unproven, pg.s, Identified(database.oid, database.owner), database.name,
                   made, database.oid);
      pg.Acknowledge(database.name, database.oid, database.owner, made, StoreClient);
      TrackedRecord(StoreClient, owned, unproven, pg.s, database, made);
      owned := owned[database.name := database];
      unproven := unproven - {database.name};
      created := created + 1;
    }

    method ReadBack(name: Name, ghost made: Oid) returns (r: Result<Entry>)
      requires Valid() && OnlyMade(StoreClient, pg.s, name, made) && pg.control.protectedDepth > 0
      modifies pg, pg.control
      ensures r.Raised? ==> FromServer(r.e)
      ensures Valid() && CreatesOnly(StoreClient, old(View()), View(), name) && OnlyMade(StoreClient, pg.s, name, made)
      ensures View() == old(View()).(s := pg.s, control := pg.control.State())
      ensures r.Raised? ==> r.e.Psycopg? || r.e.RuntimeError?
      ensures r.Returned? ==> ReadOnce(old(pg.trail), pg.trail, name, r.value)
      ensures r.Returned? ==> Seen(pg.s, name, made, r.value.oid)
      ensures r.Returned? && pg.s.squatted == {} ==> r.value.oid == made
      ensures old(pg.Peaceful()) && name in old(pg.s).catalog ==>
        pg.Peaceful() && r == Returned(old(pg.s).catalog[name]) && pg.s == old(pg.s)
    {
      hide Tracked, Moves, Consistent, SafeDrops, SameContent, OnlyMade, Seen, Recalled;
      ghost var v := View();
      var raised := Pause();
      OnlyMadeStays(StoreClient, v.s, pg.s, name, made);
      PausedCreatesOnly(StoreClient, v, View(), name);
      var row := pg.Identify(name);
      if row.Failed? {
        return Raised(Psycopg(row.fault));
      }
      if row.value.None? {
        return Raised(RuntimeError);
      }
      SeenNow(StoreClient, pg.s, name, made);
      r := Returned(row.value.value);
    }

    method MarkDatabase(name: Name, ghost made: Oid, ghost oid: Oid) returns (marked: Reply<()>)
      requires Valid() && OnlyMade(StoreClient, pg.s, name, made) && Seen(pg.s, name, made, oid)
      requires pg.control.protectedDepth > 0
      modifies pg, pg.control
      ensures Valid() && CreatesOnly(StoreClient, old(View()), View(), name)
      ensures Moves(old(pg.s), pg.s, None) && pg.trail == old(pg.trail) + [CommentSent(name)]
      ensures OnlyMade(StoreClient, pg.s, name, made) && Seen(pg.s, name, made, oid)
      ensures View() == old(View()).(s := pg.s, control := pg.control.State())
      ensures old(pg.Peaceful()) && name in old(pg.s).catalog ==>
        && pg.Peaceful() && marked.Ok?
        && pg.s == old(pg.s).(catalog := old(pg.s).catalog[name := old(pg.s).catalog[name].(marker := Of(StoreClient))])
    {
      hide Tracked, Moves, Consistent, SafeDrops, SameContent, OnlyMade, Seen, Recalled;
      ghost var v := View();
      var raised := Pause();
      ghost var w := View();
      marked := pg.Mark(name, StoreClient);
      MovesTransitive(v.s, w.s, pg.s, None);
      TrackedWaits(StoreClient, owned, unproven, v.s, pg.s);
      OnlyMadeStays(StoreClient, v.s, pg.s, name, made);
      SeenStays(v.s, pg.s, name, made, oid);
      PausedCreatesOnly(StoreClient, v, View(), name);
    }

    /** The `except` clauses of `_create`. */
    method AfterFailure(name: Name, e: Exception) returns (r: Result<OwnedDatabase>)
      requires FromServer(e)
      requires Valid()
      requires e == DuplicateDatabaseError ==> NotOurs(StoreClient, pg.s, name)
      requires e == Psycopg(SqlState) ==> name !in pg.s.running
      requires IssuedBy(StoreClient, pg.s, name)
      modifies this, pg, pg.control
      ensures r.Raised? ==> FromServer(r.e)
      ensures Valid() && CreatesOnly(StoreClient, old(View()), View(), name) && r.Raised?
      ensures owned == old(owned) && cloneAttempts == old(cloneAttempts) && cloneFailures == old(cloneFailures)
      ensures e == Cancelled ==> r.e == Cancelled || name in unproven
      ensures unproven == old(unproven) || unproven == old(unproven) - {name}
      ensures e == DuplicateDatabaseError ==> name !in unproven && r.e == e
      ensures name in old(unproven) && name !in unproven ==>
        e == DuplicateDatabaseError || (e == Psycopg(SqlState) && name !in pg.s.catalog && name !in pg.s.running)
      ensures r.e == Cancelled || r.e == if name in unproven then RuntimeError else e
      ensures old(pg.Peaceful()) && e == Psycopg(SqlState) && name !in old(pg.s).catalog ==>
        name !in unproven && r.e == e
    {
      hide Tracked, Grows, Settles, Drops, Consistent, SafeDrops, SameContent, Recalled;
      ghost var v := View();
      CreatesRefl(StoreClient, v, name);
      if e == DuplicateDatabaseError {
        Discard(name);
        return Raised(e);
      }
      if name !in unproven {
        return Raised(e);
      }
      if e == Psycopg(SqlState) {
        var raised := Pause();
        PausedCreatesOnly(StoreClient, v, View(), name);
        NotRunningStays(StoreClient, v.s, pg.s, name);
        if raised {
          return Raised(Cancelled);
        }
        ghost var x := View();
        var row := pg.Identify(name);
        if row.Ok? && row.value.None? {
          Discard(name);
          CreatesTransitive(StoreClient, v, x, View(), name);
        }
        if name !in unproven {
          return Raised(e);
        }
      }
      return Raised(RuntimeError);
    }

    /** `self.unproven.add(name)` */
    method Expect(name: Name)
      requires Valid() && IssuedBy(StoreClient, pg.s, name) && name !in owned && name !in unproven
      modifies this`unproven, pg`s
      ensures Valid() && CreatesOnly(StoreClient, old(View()), View(), name)
      ensures unproven == old(unproven) + {name} && pg.s == Lists(old(pg.s), name, true)
      ensures old(NotOurs(StoreClient, pg.s, name)) ==> NotOurs(StoreClient, pg.s, name)
    {
      hide Tracked, Moves, Dropless, Consistent, SafeDrops, SameContent, CreatesOnly, Recalled;
      ghost var v := View();
      TrackedUnproven(StoreClient, owned, unproven, pg.s, name);
      pg.List(name, true, StoreClient);
      unproven := unproven + {name};
      UnprovenCreatesOnly(StoreClient, v, View(), name);
    }

    /** `self.unproven.discard(name)` */
    method Discard(name: Name)
      requires Valid() && NotOurs(StoreClient, pg.s, name)
      modifies this`unproven, pg`s
      ensures Valid() && CreatesOnly(StoreClient, old(View()), View(), name)
      ensures unproven == old(unproven) - {name} && pg.s == old(pg.s).(listed := pg.s.listed)
    {
      hide Tracked, Moves, Dropless, Consistent, SafeDrops, SameContent, CreatesOnly, Recalled;
      ghost var v := View();
      CreatesRefl(StoreClient, v, name);
      if name in unproven {
        TrackedForget(StoreClient, owned, unproven, pg.s, name);
        pg.List(name, false, StoreClient);
        unproven := unproven - {name};
        ForgetCreatesOnly(StoreClient, v, v, View(), name);
      }
    }

    // ---- removing ----

    /** `drop`: the check and the DROP are protected; the bookkeeping after them is not. */
    method Drop(database: OwnedDatabase) returns (r: Result<()>)
      requires Valid()
      modifies this, pg, pg.control
      ensures r.Raised? ==> FromServer(r.e)
      ensures Valid() && DropsAtMost(StoreClient, old(View()), View(), database)
      ensures r.Returned? ==>
        && database.name in old(owned) && owned == old(owned) - {database.name}
        && Absent(pg.s, database.oid)
      ensures r.Raised? ==> r.e == RuntimeError || r.e == Cancelled
      ensures r.Raised? && r.e != Cancelled ==> owned == old(owned)
      ensures r == Raised(Cancelled) ==> old(pg.control.protectedDepth) == 0
      ensures created == old(created) && cloneAttempts == old(cloneAttempts) && cloneFailures == old(cloneFailures)
      ensures r.Returned? ==>
        && database.name in lastCleanup && lastCleanup[database.name].Done() && cleanupFailures == old(cleanupFailures)
        && dropped == old(dropped) + (if lastCleanup[database.name].Removed? then 1 else 0)
        && alreadyAbsent == old(alreadyAbsent) + (if lastCleanup[database.name].Removed? then 0 else 1)
      ensures r == Raised(RuntimeError) && old(Recorded(database)) ==>
        && database.name in lastCleanup && !lastCleanup[database.name].Done()
        && cleanupFailures == old(cleanupFailures) + 1
      ensures r.Returned? || Shielded(old(pg.control.State())) ==> uncounted == old(uncounted)
      ensures old(pg.Peaceful()) && old(Removable(database)) ==>
        && pg.Peaceful() && r.Returned? && owned == old(owned) - {database.name}
        && pg.s == Erased(old(pg.s), database.name)
        && (if database.name in old(pg.s).catalog then dropped == old(dropped) + 1
            else alreadyAbsent == old(alreadyAbsent) + 1)
    {
      hide Tracked, Moves, Consistent, SafeDrops, SameContent, Absent, DropsOnly, Droppable, Creationless,
           Recalled;
      ghost var v := View();
      DropsRefl(StoreClient, v, database);
      if database.name !in owned || owned[database.name] != database {
        return Raised(RuntimeError);
      }
      RecordedFacts(StoreClient, owned, unproven, pg.s, database.name);
      pg.control.EnterSection();
      var status := DropOwnedDatabase(pg, database.name, database.oid, database.owner, StoreClient);
      DropKeepsTracking(StoreClient, owned, unproven, v.s, pg.s);
      ghost var x := View();
      var raised := Leave();
      DroppedSoFar(StoreClient, v, x, View(), database);
      if status.Done() {
        AbsentStays(x.s, pg.s, database.oid, None);
      }
      if raised {
        return Raised(Cancelled);
      }
      r := Forget(database, status, v);
    }

    /** What `drop` does after the protected section: a signal can come between any two of
        these statements, even between forgetting the database and counting it. */
    method Forget(database: OwnedDatabase, status: Status, ghost v: View) returns (r: Result<()>)
      requires Valid() && database.name in owned && owned[database.name] == database
      requires DropsAtMost(StoreClient, v, View(), database) && owned == v.owned
      requires status.Done() ==> database.oid in pg.s.home && Absent(pg.s, database.oid)
      modifies this, pg, pg.control
      ensures r.Raised? ==> FromServer(r.e)
      ensures Valid() && DropsAtMost(StoreClient, v, View(), database)
      ensures r.Returned? ==> owned == v.owned - {database.name} && Absent(pg.s, database.oid)
      ensures r.Raised? ==> r.e == RuntimeError || r.e == Cancelled
      ensures r.Raised? && r.e != Cancelled ==> owned == v.owned
      ensures r == Raised(Cancelled) ==> old(pg.control.protectedDepth) == 0
      ensures created == old(created) && cloneAttempts == old(cloneAttempts) && cloneFailures == old(cloneFailures)
      ensures r.Returned? || Shielded(old(pg.control.State())) ==> uncounted == old(uncounted)
      ensures old(pg.Peaceful()) ==>
        && pg.Peaceful() && (r.Returned? <==> status.Done())
        && pg.s == if r.Returned? then Lists(old(pg.s), database.name, false) else old(pg.s)
      ensures r.Returned? ==>
        && status.Done() && cleanupFailures == old(cleanupFailures)
        && dropped == old(dropped) + (if status.Removed? then 1 else 0)
        && alreadyAbsent == old(alreadyAbsent) + (if status.Removed? then 0 else 1)
      ensures r == Raised(RuntimeError) ==> !status.Done() && cleanupFailures == old(cleanupFailures) + 1
      ensures r != Raised(Cancelled) ==> database.name in lastCleanup && lastCleanup[database.name] == status
    {
      hide Tracked, Moves, Consistent, SafeDrops, SameContent, Absent, DropsAtMost, Recalled;
      ghost var w := View();
      var raised := Pause();
      DropsPaused(StoreClient, v, w, View(), database);
      if status.Done() { AbsentStays(w.s, pg.s, database.oid, None); }
      if raised {
        return Raised(Cancelled);
      }
      ghost var x := View();
      lastCleanup := lastCleanup[database.name := status];
      if !status.Done() {
        cleanupFailures := cleanupFailures + 1;
        DropsCounted(StoreClient, v, x, View(), database);
        return Raised(RuntimeError);
      }
      r := PopAndCount(database, status, v);
    }

    method PopAndCount(database: OwnedDatabase, status: Status, ghost v: View) returns (r: Result<()>)
      requires Valid() && database.name in owned && owned[database.name] == database
      requires DropsAtMost(StoreClient, v, View(), database) && owned == v.owned
      requires status.Done() && database.oid in pg.s.home && Absent(pg.s, database.oid)
      modifies this, pg, pg.control
      ensures r.Raised? ==> FromServer(r.e)
      ensures Valid() && DropsAtMost(StoreClient, v, View(), database)
      ensures owned == v.owned - {database.name} && Absent(pg.s, database.oid)
      ensures r.Raised? ==> r.e == Cancelled && old(pg.control.protectedDepth) == 0
      ensures r.Returned? ==>
        && uncounted == old(uncounted)
        && dropped == old(dropped) + (if status.Removed? then 1 else 0)
        && alreadyAbsent == old(alreadyAbsent) + (if status.Removed? then 0 else 1)
      ensures r.Raised? ==> uncounted == 1 && dropped == old(dropped) && alreadyAbsent == old(alreadyAbsent)
      ensures Shielded(old(pg.control.State())) ==> r.Returned?
      ensures lastCleanup == old(lastCleanup) && cleanupFailures == old(cleanupFailures)
      ensures created == old(created) && cloneAttempts == old(cloneAttempts) && cloneFailures == old(cloneFailures)
      ensures old(pg.Peaceful()) ==>
        pg.Peaceful() && r.Returned? && pg.s == Lists(old(pg.s), database.name, false)
    {
      hide Tracked, Moves, Consistent, SafeDrops, SameContent, Absent, DropsAtMost, Lists, Recalled;
      var raised := Pop(database, v);
      ghost var x := View();
      if raised {
        uncounted := uncounted + 1;
        r := Raised(Cancelled);
      } else if status.Removed? {
        dropped := dropped + 1;
        r := Returned(());
      } else {
        alreadyAbsent := alreadyAbsent + 1;
        r := Returned(());
      }
      DropsCounted(StoreClient, v, x, View(), database);
    }

    /** `self.owned.pop(database.name)` and what can happen before the next statement. */
    method Pop(database: OwnedDatabase, ghost v: View) returns (raised: bool)
      requires Valid() && database.name in owned && owned[database.name] == database
      requires DropsAtMost(StoreClient, v, View(), database) && owned == v.owned
      requires database.oid in pg.s.home && Absent(pg.s, database.oid)
      modifies this`owned, pg, pg.control
      ensures pg.Valid() && !pg.control.leaving && Tracked(StoreClient, owned, unproven, pg.s)
      ensures owned == v.owned - {database.name} && |old(owned)| == |owned| + 1
      ensures DropsAtMost(StoreClient, v, View(), database) && Absent(pg.s, database.oid)
      ensures raised ==> !Shielded(old(pg.control.State())) && pg.control.delivered && uncounted == 0
      ensures !raised && uncounted == 1 ==> pg.control.delivered
      ensures old(pg.Peaceful()) ==> pg.Peaceful() && !raised && pg.s == Lists(old(pg.s), database.name, false)
    {
      hide Tracked, Moves, Dropless, Consistent, SafeDrops, SameContent, DropsAtMost, Recalled;
      ghost var x := View();
      Forgettable(StoreClient, owned, unproven, pg.s, database.name);
      TrackedPop(StoreClient, owned, unproven, pg.s, database.name);
      SizeWithout(owned, database.name);
      pg.List(database.name, false, StoreClient);
      owned := owned - {database.name};
      DropsPopped(StoreClient, v, x, View(), database);
      ghost var w := View();
      raised := pg.Turn();
      TrackedWaits(StoreClient, owned, unproven, w.s, pg.s);
      DropsPaused(StoreClient, v, w, View(), database);
      AbsentStays(w.s, pg.s, database.oid, None);
    }

    // ---- clones and frozen sources ----

    /** `_verify`: the catalog still shows the database as recorded, with the run's marker. */
    method Verify(database: OwnedDatabase) returns (r: Result<()>)
      requires Valid()
      modifies pg`s, pg`now, pg`looks, pg`trail, pg.control
      ensures r.Raised? ==> FromServer(r.e)
      ensures Valid() && WaitsOnly(old(View()), View())
      ensures r.Returned? ==>
        && database.name in owned && owned[database.name] == database && database.name in pg.s.catalog
        && pg.s.catalog[database.name].oid == database.oid
        && pg.s.catalog[database.name].owner == database.owner
        && pg.s.catalog[database.name].marker == Of(StoreClient)
      ensures old(pg.trail) <= pg.trail
      ensures r.Returned? ==> |old(pg.trail)| < |pg.trail| && ShownAs(pg.trail[|pg.trail| - 1], database)
      ensures database.name !in owned || owned[database.name] != database ==> r == Raised(RuntimeError)
      ensures old(pg.Peaceful()) && Recorded(database) && Intact(StoreClient, old(pg.s), database) ==>
        pg.Peaceful() && r.Returned? && pg.s == old(pg.s)
    {
      hide Tracked, Moves, Consistent, SafeDrops, SameContent, Recalled;
      ghost var v := View();
      MovesRefl(v.s, None);
      SameContentRefl(v.s);
      if database.name !in owned || owned[database.name] != database {
        return Raised(RuntimeError);
      }
      var raised := Pause();
      if raised {
        return Raised(Cancelled);
      }
      var row := pg.Identify(database.name);
      if row.Failed? || row.value.None? {
        return Raised(RuntimeError);
      }
      var e := row.value.value;
      r := if (e.oid, e.owner, e.marker) == (database.oid, database.owner, Of(StoreClient))
           then Returned(()) else Raised(RuntimeError);
    }

    /** `_wait_quiescent`: poll until no session uses the database; `rounds` is how often the
        ten seconds allow. */
    method WaitQuiescent(database: OwnedDatabase) returns (r: Result<()>)
      requires Valid()
      modifies pg, pg.control
      ensures r.Raised? ==> FromServer(r.e)
      ensures Valid() && WaitsOnly(old(View()), View()) && old(pg.trail) <= pg.trail
      ensures r.Returned? ==>
        |old(pg.trail)| < |pg.trail| && pg.trail[|pg.trail| - 1] == SessionsSeen(database.oid, NoSessions)
      ensures old(pg.Peaceful()) ==> pg.Peaceful() && r.Returned? && pg.s == old(pg.s)
    {
      hide Tracked, Moves, Consistent, SafeDrops, SameContent, Recalled;
      ghost var v := View();
      MovesRefl(v.s, None);
      SameContentRefl(v.s);
      var rounds: nat := *;
      while true
        invariant Valid() && WaitsOnly(v, View()) && old(pg.trail) <= pg.trail
        invariant old(pg.Peaceful()) ==> pg.Peaceful() && pg.s == old(pg.s)
        decreases rounds
      {
        ghost var w := View();
        var raised := Pause();
        WaitsTransitive(v, w, View());
        if raised {
          return Raised(Cancelled);
        }
        var sessions := pg.Sessions(database.oid);
        match sessions {
          case Failed(fault) => return Raised(Psycopg(fault));
          case Ok(NoSessions) => return Returned(());
          case Ok(OtherSessions) => return Raised(RuntimeError);
          case Ok(OnlyAutovacuum) =>
        }
        if rounds == 0 {
          return Raised(RuntimeError);
        }
        rounds := rounds - 1;
      }
    }

    /** `freeze`: no new connections, then no sessions; only then is the handle frozen. */
    method Freeze(database: OwnedDatabase) returns (r: Result<()>)
      requires Valid()
      modifies this`frozen, pg, pg.control
      ensures r.Raised? ==> FromServer(r.e)
      ensures Valid() && WaitsOnly(old(View()), View().(frozen := old(frozen)))
      ensures frozen == old(frozen) + (if r.Returned? then {database.oid} else {})
      ensures r.Returned? ==> database.name in owned && owned[database.name] == database
      ensures r.Returned? ==> Quieted(old(pg.trail), pg.trail, database)
      ensures old(pg.Peaceful()) && Recorded(database) && Intact(StoreClient, old(pg.s), database) ==>
        pg.Peaceful() && r.Returned? && Closes(old(pg.s), pg.s, database.name)
    {
      hide Tracked, Moves, Consistent, SafeDrops, SameContent, Recalled;
      ghost var v := View();
      r := Verify(database);
      if r.Raised? {
        return;
      }
      ghost var w, before := View(), pg.trail;
      r := Forbid(database);
      WaitsTransitive(v, w, View());
      if r.Raised? {
        return;
      }
      w := View();
      ghost var banned := pg.trail;
      r := WaitQuiescent(database);
      WaitsTransitive(v, w, View());
      if r.Returned? {
        assert pg.trail[|before|] == banned[|before|];
        frozen := frozen + {database.oid};
      }
    }

    /** No new connections. */
    method Forbid(database: OwnedDatabase) returns (r: Result<()>)
      requires Valid()
      modifies pg, pg.control
      ensures r.Raised? ==> FromServer(r.e)
      ensures Valid() && WaitsOnly(old(View()), View())
      ensures r.Returned? ==> pg.trail == old(pg.trail) + [Banned(database.name)]
      ensures old(pg.Peaceful()) && database.name in old(pg.s).catalog ==>
        pg.Peaceful() && r.Returned? && Closes(old(pg.s), pg.s, database.name)
    {
      hide Tracked, Moves, Consistent, SafeDrops, SameContent, Recalled;
      ghost var v := View();
      var raised := Pause();
      if raised {
        return Raised(Cancelled);
      }
      ghost var w := View();
      var altered := pg.DisallowConnections(database.name);
      TrackedWaits(StoreClient, owned, unproven, w.s, pg.s);
      WaitsTransitive(v, w, View());
      r := if altered.Failed? then Raised(Psycopg(altered.fault)) else Returned(());
    }

    /** `clone`: copy a frozen, quiescent, verified database under a fresh name. */
    method Clone(source: OwnedDatabase) returns (r: Result<OwnedDatabase>)
      requires Valid()
      modifies this, pg, pg.control
      ensures r.Raised? ==> FromServer(r.e)
      ensures Valid()
      ensures r.Returned? ==>
        && CreatesOnly(StoreClient, old(View()), View(), r.value.name)
        && r.value.name in owned && owned[r.value.name] == r.value && r.value.name !in old(owned)
        && unproven == old(unproven) && source.oid in frozen
      ensures r.Returned? ==> ExaminedThenSent(old(pg.trail), pg.trail, source, r.value.name)
      ensures r.Raised? ==> exists n :: CreatesOnly(StoreClient, old(View()), View(), n)
      ensures r.Raised? && r.e != Cancelled ==> owned == old(owned)
      ensures r.Returned? && pg.s.squatted == {} ==>
        && r.value.oid in pg.s.content && source.oid in old(pg.s.content)
        && pg.s.content[r.value.oid] == old(pg.s.content)[source.oid]
      ensures r.Returned? ==> source.name in old(owned) && old(owned)[source.name] == source
      ensures old(pg.Peaceful()) && old(Cloneable(pg.s, source)) && source.oid in old(frozen) ==>
        pg.Peaceful() && r.Returned? && Adds(StoreClient, old(pg.s), pg.s, r.value)
    {
      hide Tracked, Moves, Consistent, SafeDrops, SameContent, CreatesOnly, Recalled;
      ghost var v := View();
      var ready := ReadyToClone(source);
      WaitsCreates(StoreClient, v, View(), source.name);
      if ready.Raised? {
        return Raised(ready.e);
      }
      ghost var w, examined := View(), pg.trail;
      r := Create(Some(source));
      if r.Returned? {
        WaitsThenCreates(StoreClient, v, w, View(), r.value.name);
        assert pg.trail[..|examined|] == examined;
        if pg.s.squatted == {} {
          SourceContent(StoreClient, v, w, View(), r.value.name, source);
        }
      } else {
        ghost var n :| CreatesOnly(StoreClient, w, View(), n);
        WaitsThenCreates(StoreClient, v, w, View(), n);
      }
    }

    method ReadyToClone(source: OwnedDatabase) returns (r: Result<()>)
      requires Valid()
      modifies pg, pg.control
      ensures r.Raised? ==> FromServer(r.e)
      ensures Valid() && WaitsOnly(old(View()), View())
      ensures r.Returned? ==> Examined(old(pg.trail), pg.trail, source)
      ensures r.Returned? ==> source.name in owned && owned[source.name] == source && source.oid in frozen
      ensures old(pg.Peaceful()) && Cloneable(old(pg.s), source) && source.oid in frozen ==>
        pg.Peaceful() && r.Returned? && pg.s == old(pg.s)
    {
      hide Tracked, Moves, Consistent, SafeDrops, SameContent, ShownAs, Examined, Recalled;
      ghost var v, before := View(), pg.trail;
      r := Verify(source);
      ghost var checked := pg.trail;
      if r.Raised? {
        return;
      }
      if source.oid !in frozen {
        return Raised(RuntimeError);
      }
      ghost var w := View();
      var raised := Pause();
      WaitsTransitive(v, w, View());
      if raised {
        return Raised(Cancelled);
      }
      RecordedFacts(StoreClient, owned, unproven, pg.s, source.name);
      var row := pg.AllowsConnections(source.oid);
      if row.Failed? {
        return Raised(Psycopg(row.fault));
      }
      if row.value.None? || row.value.value {
        return Raised(RuntimeError);
      }
      w := View();
      ghost var closed := pg.trail;
      r := WaitQuiescent(source);
      if r.Returned? { LooksExamined(before, checked, closed, pg.trail, source); }
      WaitsTransitive(v, w, View());
    }

    // ---- inside a database ----

    /** A client connected through `dsn(database)` reads all of it. */
    method ReadFrom(database: OwnedDatabase) returns (r: Result<Content>)
      requires Valid() && database.name in owned && owned[database.name] == database
      modifies pg, pg.control
      ensures r.Raised? ==> FromServer(r.e)
      ensures Valid() && WaitsOnly(old(View()), View())
      ensures r.Returned? && pg.s.squatted == {} ==>
        database.oid in pg.s.content && pg.s.content[database.oid] == r.value
      ensures old(pg.Peaceful()) && database.name in old(pg.s).catalog ==>
        pg.Peaceful() && r.Returned? && pg.s == old(pg.s)
    {
      hide Tracked, Moves, Consistent, SafeDrops, SameContent, Recalled;
      var raised := Pause();
      if raised {
        return Raised(Cancelled);
      }
      var reply := pg.Read(database.name);
      if reply.Failed? {
        return Raised(Psycopg(reply.fault));
      }
      NamesItself(StoreClient, owned, unproven, pg.s, database.name);
      r := Returned(reply.value);
    }

    /** A client connected to it leaves `data` in it. */
    method WriteInto(database: OwnedDatabase, data: Content) returns (r: Result<()>)
      requires Valid() && database.name in owned && owned[database.name] == database
      modifies pg, pg.control
      ensures r.Raised? ==> FromServer(r.e)
      ensures Valid() && WritesOnly(old(View()), View(), database.name)
      ensures r.Returned? && pg.s.squatted == {} ==>
        database.oid in pg.s.content && pg.s.content[database.oid] == data
      ensures old(pg.Peaceful()) && database.name in old(pg.s).catalog ==>
        pg.Peaceful() && r.Returned? && pg.s.catalog == old(pg.s).catalog && pg.s.running == old(pg.s).running
    {
      hide Tracked, Moves, Consistent, SafeDrops, SameContent, HoldsOn, Recalled;
      ghost var v := View();
      var raised := Pause();
      ghost var w := View();
      WaitWrites(v, w, database.name);
      if raised {
        return Raised(Cancelled);
      }
      RecordedFacts(StoreClient, owned, unproven, pg.s, database.name);
      var reply := pg.Write(database.name, data, StoreClient);
      WriteTracked(StoreClient, owned, unproven, w.s, pg.s, database.name);
      WrittenElsewhere(StoreClient, w, View(), database.name);
      WaitThenWrite(v, w, View(), database.name);
      if reply.Failed? {
        return Raised(Psycopg(reply.fault));
      }
      NamesItself(StoreClient, owned, unproven, pg.s, database.name);
      r := Returned(());
    }

    // ---- closing ----

    /** `close`: drop everything recorded, settle everything unproven, say what is left. A
        normal return means nothing of this store lives on the server or can still appear. */
    method Close() returns (r: Result<()>)
      requires Valid()
      modifies this, pg, pg.control
      ensures r.Raised? ==> FromServer(r.e)
      ensures Valid() && Moves(old(pg.s), pg.s, Some(StoreClient))
      ensures r.Returned? ==> Leftovers() == {}
      ensures r.Returned? ==> forall n :: IssuedBy(StoreClient, pg.s, n) ==> NotOurs(StoreClient, pg.s, n)
      ensures owned.Keys <= old(owned.Keys) && unproven <= old(unproven)
      ensures pg.control.protectedDepth == old(pg.control.protectedDepth)
      ensures old(pg.Peaceful()) && old(AllRemovable()) && (forall n :: n in old(unproven) ==> n !in old(pg.s).catalog) ==>
        pg.Peaceful() && r.Returned? && SameBut(old(pg.s), pg.s, old(owned.Keys))
    {
      hide Tracked, Moves, Consistent, SafeDrops, SameContent, DropsAtMost, NotOurs, SameBut, Recalled;
      ghost var v := View();
      MovesRefl(v.s, Some(StoreClient));
      pg.control.EnterSection();
      var failures := DropAll(v.s);
      ghost var emptied := pg.s;
      SameButShrinks(v.s, emptied, v.owned.Keys);
      SettleAll(v.s);
      ghost var w := View();
      SameButNothing(emptied, w.s, v.s, v.owned.Keys);
      var raised := Leave();
      MovesAlone(w.s, pg.s, Some(StoreClient));
      MovesTransitive(v.s, w.s, pg.s, Some(StoreClient));
      if raised {
        return Raised(Cancelled);
      }
      if unproven != {} || failures > 0 {
        return Raised(RuntimeError);
      }
      assert owned == map[];
      forall n | IssuedBy(StoreClient, pg.s, n) ensures NotOurs(StoreClient, pg.s, n) {
        Untracked(StoreClient, owned, unproven, pg.s, n);
      }
      r := Returned(());
    }

    method DropAll(ghost base: ServerState) returns (failures: nat)
      requires Valid() && pg.control.protectedDepth > 0
      requires Moves(base, pg.s, Some(StoreClient))
      modifies this, pg, pg.control
      ensures Valid() && Moves(base, pg.s, Some(StoreClient))
      ensures pg.control.protectedDepth == old(pg.control.protectedDepth)
      ensures failures == 0 ==> owned == map[]
      ensures owned.Keys <= old(owned.Keys) && unproven == old(unproven)
      ensures old(pg.Peaceful()) && old(AllRemovable()) ==>
        pg.Peaceful() && failures == 0 && SameBut(old(pg.s), pg.s, old(owned.Keys))
    {
      hide Tracked, Moves, Consistent, SafeDrops, SameContent, DropsAtMost, SameBut, AllRemovable, Recalled;
      var databases := owned;
      var names := Listed(databases.Keys);
      RecordedNames(StoreClient, owned, unproven, pg.s);
      failures := 0;
      SameButNothing(pg.s, pg.s, pg.s, owned.Keys);
      for i := 0 to |names|
        invariant Valid() && Moves(base, pg.s, Some(StoreClient))
        invariant pg.control.protectedDepth == old(pg.control.protectedDepth)
        invariant owned.Keys <= old(owned.Keys) && unproven == old(unproven)
        invariant failures == 0 ==> forall j :: 0 <= j < i ==> names[j] !in owned
        invariant old(pg.Peaceful()) && old(AllRemovable()) ==>
          && pg.Peaceful() && failures == 0 && SameBut(old(pg.s), pg.s, old(owned.Keys)) && AllRemovable()
          && forall j :: i <= j < |names| ==> Recorded(databases[names[j]])
      {
        ghost var w := pg.s;
        var removed := DropOne(databases[names[i]], base);
        if old(pg.Peaceful()) && old(AllRemovable()) { SameButThen(old(pg.s), w, pg.s, old(owned.Keys), names[i]); }
        if !removed {
          failures := failures + 1;
        }
      }
    }

    method DropOne(database: OwnedDatabase, ghost base: ServerState) returns (removed: bool)
      requires Valid() && pg.control.protectedDepth > 0
      requires Moves(base, pg.s, Some(StoreClient))
      modifies this, pg, pg.control
      ensures Valid() && Moves(base, pg.s, Some(StoreClient))
      ensures pg.control.protectedDepth == old(pg.control.protectedDepth)
      ensures unproven == old(unproven) && (owned == old(owned) || owned == old(owned) - {database.name})
      ensures removed ==> owned == old(owned) - {database.name}
      ensures old(pg.Peaceful()) && old(AllRemovable()) && old(Recorded(database)) ==>
        && pg.Peaceful() && removed && AllRemovable()
        && SameBut(old(pg.s), pg.s, {database.name})
    {
      hide Tracked, Moves, Consistent, SafeDrops, SameContent, DropsAtMost, AllIntact, SameBut, Recalled;
      ghost var w := View();
      AllIntactDrops(owned, pg.s, database);
      var removal := Drop(database);
      DropsMoves(StoreClient, w, View(), database);
      MovesTransitive(base, w.s, pg.s, Some(StoreClient));
      removed := removal.Returned?;
    }

    method SettleAll(ghost base: ServerState)
      requires Valid() && pg.control.protectedDepth > 0
      requires Moves(base, pg.s, Some(StoreClient))
      modifies this`unproven, pg, pg.control
      ensures Valid() && Moves(base, pg.s, Some(StoreClient))
      ensures pg.control.protectedDepth == old(pg.control.protectedDepth)
      ensures unproven <= old(unproven)
      ensures old(pg.Peaceful()) && (forall n :: n in old(unproven) ==> n !in old(pg.s).catalog) ==>
        pg.Peaceful() && unproven == {} && pg.s.catalog == old(pg.s).catalog
    {
      hide Tracked, Moves, Consistent, SafeDrops, SameContent, Recalled;
      var names := Listed(unproven);
      for i := 0 to |names|
        invariant Valid() && Moves(base, pg.s, Some(StoreClient))
        invariant pg.control.protectedDepth == old(pg.control.protectedDepth)
        invariant unproven <= old(unproven)
        invariant old(pg.Peaceful()) && (forall n :: n in old(unproven) ==> n !in old(pg.s).catalog) ==>
          pg.Peaceful() && pg.s.catalog == old(pg.s).catalog && forall j :: 0 <= j < i ==> names[j] !in unproven
      {
        ghost var w := View();
        var present := SettleUnprovenCreate(pg, names[i]);
        TrackedWaits(StoreClient, owned, unproven, w.s, pg.s);
        MovesAlone(w.s, pg.s, Some(StoreClient));
        MovesTransitive(base, w.s, pg.s, Some(StoreClient));
        if present == Some(false) && names[i] in unproven {
          NothingUnder(StoreClient, owned, unproven, pg.s, names[i]);
          ghost var x := pg.s;
          Discard(names[i]);
          MovesTransitive(base, x, pg.s, Some(StoreClient));
        }
      }
    }
  }

  // ---- the one way the counters can fall behind ----

  /** How many databases were recorded, are recorded, were dropped and were found absent. */
  datatype Account = Account(created: nat, owned: nat, dropped: nat, absent: nat)
  {
    predicate Balanced() {
      created == owned + dropped + absent
    }
  }

  /** The statements after a drop that is done: forget the database, take the signals that come,
      count it unless one of them raises. */
  function ForgetAndCount(a: Account, c: Control, numbers: seq<int>): Account
    requires a.owned > 0
  {
    var forgotten := a.(owned := a.owned - 1);
    if HandleAll(c, numbers).1 then forgotten else forgotten.(dropped := a.dropped + 1)
  }

  /** The account stays balanced whatever signals come if and only if none can make the handler
      raise there. */
  lemma BalancedIffShielded(a: Account, c: Control)
    requires a.Balanced() && a.owned > 0
    ensures (forall numbers :: ForgetAndCount(a, c, numbers).Balanced()) <==> Shielded(c)
  {
    forall numbers ensures HandleAll(c, numbers).1 <==> numbers != [] && !Shielded(c) {
      ShieldedNeverRaises(c, numbers);
    }
    if !Shielded(c) {
      assert !ForgetAndCount(a, c, [15]).Balanced();
    }
  }

  /** A first signal between the two statements, outside any section and before commit. */
  lemma SignalLosesCount()
    ensures var c := Initial(true);
            && HandleAll(c, [15]).1 && Account(1, 1, 0, 0).Balanced()
            && ForgetAndCount(Account(1, 1, 0, 0), c, [15]) == Account(1, 0, 0, 0)
            && !ForgetAndCount(Account(1, 1, 0, 0), c, [15]).Balanced()
  {
  }

  /** Every recorded database that is there is as recorded. */
  ghost predicate AllIntact(owned: map<Name, OwnedDatabase>, s: ServerState) {
    forall n :: n in owned ==> owned[n].name == n && (n in s.catalog ==> Intact(StoreClient, s, owned[n]))
  }

  /** Dropping one of them leaves the others as they were. */
  lemma AllIntactDrops(owned: map<Name, OwnedDatabase>, s: ServerState, db: OwnedDatabase)
    ensures AllIntact(owned, s) && db.name in owned && owned[db.name] == db ==>
      && (db.name in s.catalog ==> Intact(StoreClient, s, db))
      && AllIntact(owned - {db.name}, Erased(s, db.name)) && SameBut(s, Erased(s, db.name), {db.name})
  {
  }

  /** The catalogs differ at most in that entries under `names` are gone. */
  ghost predicate SameBut(s: ServerState, t: ServerState, names: set<Name>) {
    && t.catalog.Keys <= s.catalog.Keys
    && forall n :: n in s.catalog && n !in names ==> n in t.catalog && t.catalog[n] == s.catalog[n]
  }

  lemma SameButThen(s: ServerState, t: ServerState, u: ServerState, names: set<Name>, n: Name)
    requires SameBut(s, t, names) && SameBut(t, u, {n}) && n in names
    ensures SameBut(s, u, names)
  {
  }

  lemma SameButShrinks(s: ServerState, t: ServerState, names: set<Name>)
    ensures SameBut(s, t, names) ==> forall n :: n !in s.catalog ==> n !in t.catalog
  {
  }

  lemma SameButNothing(s: ServerState, t: ServerState, u: ServerState, names: set<Name>)
    ensures t.catalog == s.catalog ==> SameBut(s, t, names) && (SameBut(u, s, names) ==> SameBut(u, t, names))
  {
  }

  function NameOf(template: Option<OwnedDatabase>): Option<Name> {
    if template.Some? then Some(template.value.name) else None
  }

  /** The first of the new entries is `x`. */
  ghost predicate Sent(before: seq<Sight>, after: seq<Sight>, x: Sight) {
    before <= after && |before| < |after| && after[|before|] == x
  }

  /** The identity recorded is the one read before the COMMENT, and nothing was read after it. */
  ghost predicate RecordedAsRead(before: seq<Sight>, after: seq<Sight>, db: OwnedDatabase) {
    exists e :: ReadThenMarked(before, after, db.name, e) && e.oid == db.oid && e.owner == db.owner
  }

  lemma SentFirst(before: seq<Sight>, sent: seq<Sight>, after: seq<Sight>, x: Sight, db: OwnedDatabase)
    requires sent == before + [x] && RecordedAsRead(sent, after, db)
    ensures Sent(before, after, x)
  {
    assert after[|before|] == sent[|before|];
  }

  /** The catalog showed the database as recorded, with this run's marker. */
  ghost predicate ShownAs(x: Sight, db: OwnedDatabase) {
    && x.NameRead? && x.name == db.name && x.entry.Some?
    && Shown(x.entry.value) == OwnedEntry(db.oid, db.owner, StoreClient)
  }

  /** The database was seen as recorded, then closed for connections, last without sessions. */
  ghost predicate Examined(before: seq<Sight>, after: seq<Sight>, db: OwnedDatabase) {
    && before <= after
    && exists i, j ::
         && |before| <= i < j < |after| - 1 && ShownAs(after[i], db)
         && after[j] == ConnectionsSeen(db.oid, Some(false))
         && after[|after| - 1] == SessionsSeen(db.oid, NoSessions)
  }

  lemma LooksExamined(before: seq<Sight>, checked: seq<Sight>, closed: seq<Sight>, after: seq<Sight>, db: OwnedDatabase)
    requires before <= checked <= closed <= after && |before| < |checked| < |closed| < |after|
    requires ShownAs(checked[|checked| - 1], db) && closed[|closed| - 1] == ConnectionsSeen(db.oid, Some(false))
    requires after[|after| - 1] == SessionsSeen(db.oid, NoSessions)
    ensures Examined(before, after, db)
  {
    assert after[|checked| - 1] == checked[|checked| - 1] && after[|closed| - 1] == closed[|closed| - 1];
  }

  /** It was examined so, and right after that the CREATE from it was sent. */
  ghost predicate ExaminedThenSent(before: seq<Sight>, after: seq<Sight>, db: OwnedDatabase, n: Name) {
    exists i ::
      && |before| <= i < |after| && Examined(before, after[..i], db) && after[i] == CreateSent(n, Some(db.name))
  }

  /** Connections to the database were forbidden, and after that it was seen without sessions. */
  ghost predicate Quieted(before: seq<Sight>, after: seq<Sight>, database: OwnedDatabase) {
    && before <= after
    && exists i ::
         && |before| <= i < |after| - 1 && after[i] == Banned(database.name)
         && after[|after| - 1] == SessionsSeen(database.oid, NoSessions)
  }

  /** Only this changed: the database no longer accepts connections. */
  ghost predicate Closes(s: ServerState, t: ServerState, n: Name) {
    n in s.catalog && t == s.(catalog := s.catalog[n := s.catalog[n].(allowConn := false)])
  }
}
