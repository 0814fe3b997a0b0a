/** Whole runs of the workspace and the clone store on one server, and what their cleanup
    report means (cli/__init__.py, `report_cancellation`). */
module Ownership {
  import opened Wrappers
  import opened Schema
  import opened Server
  import opened Cancellation
  import opened Cluster
  import opened Cleanup
  import opened Tracking
  import opened Keeping
  import Workspace
  import CloneStore

  /** What the run may do next; a name that is not recorded makes the step do nothing. */
  datatype Operation =
    | ResetWorkspace(restoration: Workspace.Restoration)
    | CloseWorkspace
    | CreateInitial
    | FreezeDatabase(name: Name)
    | CloneDatabase(name: Name)
    | DropDatabase(name: Name)
    | WriteDatabase(name: Name, data: Content)   // a deletion or an oracle at work in a clone
    | WriteWorkspace(data: Content)
    | CloseStore
    | Wait

  const SIGTERM: int := 15

  /** No database this run made lives on the server, and none can still appear. */
  ghost predicate NothingRemains(s: ServerState) {
    && (forall n :: n in s.catalog ==> s.catalog[n].oid !in s.mine)
    && s.running == map[]
  }

  /** Every database a DROP of the run removed had been recorded under this OID and owner after a
      CREATE under its name, and showed the run's marker when it was checked. It was one this
      run made, unless what was recorded had been read back foreign. */
  ghost predicate OnlyRecordedDropped(s: ServerState) {
    forall o :: o in s.dropped ==>
      && s.dropped[o].oid == o && Identified(o, s.dropped[o].owner) in s.recorded
      && o in s.home && s.home[o] in s.issuedTo && s.dropped[o].marker == Of(s.issuedTo[s.home[o]])
      && (o in s.mine || ReadForeign(s, o))
  }

  /** The identity recorded is not that of a database this run made. */
  ghost predicate ReadForeign(s: ServerState, o: Oid) {
    && o !in s.mine && o in s.home && s.home[o] in s.squatted
    && exists owner :: Identified(o, owner) in s.recorded
  }

  /** The identity of every database dropped was read under its name after a CREATE of the run
      and before the COMMENT that followed, and nothing was read in between. */
  ghost predicate OnlyReadBackDropped(s: ServerState, trail: seq<Sight>) {
    forall o :: o in s.dropped ==> exists i :: ReadBackAt(trail, i, Identified(o, s.dropped[o].owner))
  }

  lemma RecordedMeansReadBack(s: ServerState, trail: seq<Sight>)
    requires OnlyRecordedDropped(s) && AllReadBack(trail, s.recorded)
    ensures OnlyReadBackDropped(s, trail)
  {
    hide ReadBackAt;
  }

  lemma SafeMeansRecorded(s: ServerState)
    requires Consistent(s) && SafeDrops(s)
    ensures OnlyRecordedDropped(s)
  {
    forall o | o in s.dropped
      ensures Identified(o, s.dropped[o].owner) in s.recorded && (o in s.mine || ReadForeign(s, o))
    {
      assert Droppable(s, o, s.dropped[o]);
      assert Proven(s, Identified(o, s.dropped[o].owner).oid);
    }
  }

  /** Empty leftovers of both objects mean that nothing remains. */
  lemma EmptyLeftovers(s: ServerState)
    requires Consistent(s) && Tracked(WorkspaceClient, map[], {}, s) && Tracked(StoreClient, map[], {}, s)
    ensures NothingRemains(s)
  {
    forall n | n in s.issuedTo ensures n !in s.running && (n in s.catalog ==> s.catalog[n].oid !in s.mine) {
      NothingTrackedNothingLeft(s.issuedTo[n], s, n);
    }
    assert s.running.Keys == {};
  }

  class Session {
    const pg: Postgres
    const workspace: Workspace.Workspace
    const store: CloneStore.CloneStore

    ghost predicate Valid()
      reads this, pg, pg.control, workspace, store
    {
      && workspace.pg == pg && store.pg == pg
      && workspace.Valid() && store.Valid()
    }

    /** Both objects on a server where this run has done nothing yet. */
    constructor (pg: Postgres)
      requires pg.Valid() && !pg.control.leaving && pg.s.issuedTo == map[]
      modifies pg
      ensures Valid() && this.pg == pg && fresh(workspace) && fresh(store)
    {
      var w := new Workspace.Workspace(pg);
      NoStoreNames(pg.s, w.name);
      var c := new CloneStore.CloneStore(pg);
      this.pg, workspace, store := pg, w, c;
    }

    /** What the workspace knows, at server state `s`. */
    ghost predicate WorkspaceAt(s: ServerState)
      reads this, workspace
    {
      && Consistent(s)
      && (workspace.created ==> workspace.oid.Some? && workspace.owner.Some? && !workspace.unproven)
      && Tracked(WorkspaceClient, workspace.Owned(), workspace.Unproven(), s)
      && IssuedBy(WorkspaceClient, s, workspace.name)
      && workspace.databasesCreated == workspace.databasesDropped + workspace.databasesAbsent
                                       + (if workspace.created then 1 else 0)
    }

    /** A step of the store leaves the workspace tracked. */
    ghost method StoreActed(before: ServerState)
      requires workspace.pg == pg && pg.Valid() && !pg.control.leaving && WorkspaceAt(before)
      requires Moves(before, pg.s, Some(StoreClient))
      ensures workspace.Valid()
    {
      TrackedStays(WorkspaceClient, workspace.Owned(), workspace.Unproven(), before, pg.s, Some(StoreClient));
      hide Tracked, Consistent, SafeDrops, Settles, Drops, Recalled;
    }

    /** A step of the workspace leaves the store's databases tracked. */
    ghost method WorkspaceActed(before: ServerState)
      requires store.pg == pg && pg.Valid() && !pg.control.leaving && store.Accounts()
      requires Tracked(StoreClient, store.owned, store.unproven, before) && Consistent(before)
      requires Moves(before, pg.s, Some(WorkspaceClient))
      ensures store.Valid()
    {
      TrackedStays(StoreClient, store.owned, store.unproven, before, pg.s, Some(WorkspaceClient));
      hide Tracked, Consistent, SafeDrops, Settles, Drops, Recalled;
    }

    /** One operation, whatever the server, other people and signals do meanwhile. */
    method Step(op: Operation)
      requires Valid()
      modifies workspace, store, pg, pg.control
      ensures Valid()
    {
      hide Tracked, Moves, Consistent, SafeDrops, Workspace.Workspace.Valid, CloneStore.CloneStore.Valid,
           Recalled;
      match op
      case ResetWorkspace(_) => StepWorkspace(op);
      case CloseWorkspace => StepWorkspace(op);
      case WriteWorkspace(_) => StepWorkspace(op);
      case _ => StepStore(op);
    }

    method StepWorkspace(op: Operation)
      requires Valid() && (op.ResetWorkspace? || op.CloseWorkspace? || op.WriteWorkspace?)
      modifies workspace, store, pg, pg.control
      ensures Valid()
    {
      hide Tracked, Moves, Consistent, SafeDrops, Recalled;
      ghost var before := pg.s;
      match op
      case ResetWorkspace(restoration) =>
        var r := workspace.Reset(restoration);
        WorkspaceActed(before);
      case CloseWorkspace =>
        var r := workspace.Close();
        WorkspaceActed(before);
      case WriteWorkspace(data) =>
        var r := workspace.Overwrite(data);
        WorkspaceActed(before);
    }

    method StepStore(op: Operation)
      requires Valid() && !(op.ResetWorkspace? || op.CloseWorkspace? || op.WriteWorkspace?)
      modifies store, pg, pg.control
      ensures Valid()
    {
      hide Tracked, Moves, Consistent, SafeDrops, WorkspaceAt, Workspace.Workspace.Valid, Recalled;
      ghost var before := pg.s;
      Remember();
      if op.CreateInitial? || op.CloseStore? || op.Wait? {
        StoreStep(op);
      } else if op.name in store.owned {
        RecordedNames(StoreClient, store.owned, store.unproven, pg.s);
        DatabaseStep(op, store.owned[op.name]);
      } else {
        MovesRefl(before, Some(StoreClient));
      }
      StoreActed(before);
    }

    ghost method Remember()
      requires Valid()
      ensures WorkspaceAt(pg.s)
    {
      hide Tracked, Consistent, SafeDrops, Recalled;
    }

    method StoreStep(op: Operation)
      requires store.pg == pg && store.Valid() && (op.CreateInitial? || op.CloseStore? || op.Wait?)
      modifies store, pg, pg.control
      ensures store.Valid() && Moves(old(pg.s), pg.s, Some(StoreClient))
    {
      hide Tracked, Moves, Consistent, SafeDrops, CreatesOnly, CloneStore.CloneStore.Valid, Recalled;
      ghost var v := store.View();
      match op
      case CreateInitial =>
        var r := store.Create(None);
        CreationMoves(v, store.View());
      case CloseStore =>
        var r := store.Close();
      case Wait =>
        var raised := store.Pause();
        MovesAlone(v.s, pg.s, Some(StoreClient));
    }

    method DatabaseStep(op: Operation, database: OwnedDatabase)
      requires store.pg == pg && store.Valid() && database.name in store.owned && store.owned[database.name] == database
      requires op.FreezeDatabase? || op.CloneDatabase? || op.DropDatabase? || op.WriteDatabase?
      modifies store, pg, pg.control
      ensures store.Valid() && Moves(old(pg.s), pg.s, Some(StoreClient))
    {
      hide Tracked, Moves, Consistent, SafeDrops, CreatesOnly, DropsAtMost, WaitsOnly, WritesOnly,
           CloneStore.CloneStore.Valid, Recalled;
      ghost var v := store.View();
      match op
      case FreezeDatabase(_) =>
        var r := store.Freeze(database);
        FreezingMoves(v, store.View());
      case CloneDatabase(_) =>
        var r := store.Clone(database);
        CreationMoves(v, store.View());
      case DropDatabase(_) =>
        var r := store.Drop(database);
        DropsMoves(StoreClient, v, store.View(), database);
      case WriteDatabase(_, data) =>
        var r := store.WriteInto(database, data);
        WritingMoves(v, store.View(), database.name);
    }

    /** Every run: after any sequence of operations, under lost replies, SQLSTATE rejections,
        late statements, foreign actions and signals, every live database of the run is
        tracked, so empty leftovers mean that none remains; and whatever the run dropped is a
        database it had recorded after a CREATE, with that OID and owner. At every moment in
        between at which the watchdog could have forced the exit, everything of the run that
        lived or could still appear was on the lists. */
    method Run(ops: seq<Operation>)
      requires Valid()
      modifies workspace, store, pg, pg.control
      ensures Valid() && OnlyRecordedDropped(pg.s) && OnlyReadBackDropped(pg.s, pg.trail)
      ensures AllReported(pg.looks)
      ensures store.Leftovers() == {} && workspace.Leftovers() == {} ==> NothingRemains(pg.s)
    {
      for i := 0 to |ops|
        invariant Valid()
      {
        Step(ops[i]);
      }
      Review();
    }

    /** The lists in the history are what the two objects report. */
    lemma ListedIsLeftovers()
      requires Valid()
      ensures pg.s.listed == store.Leftovers() + workspace.Leftovers()
    {
      var s := pg.s;
      assert forall n :: n in s.listed ==> IssuedBy(WorkspaceClient, s, n) || IssuedBy(StoreClient, s, n);
      assert forall n :: n in store.Leftovers() ==> IssuedBy(StoreClient, s, n);
      hide Consistent, SafeDrops, Recorded, Recalled;
    }

    ghost method Review()
      requires Valid()
      ensures OnlyRecordedDropped(pg.s) && OnlyReadBackDropped(pg.s, pg.trail) && AllReported(pg.looks)
      ensures store.Leftovers() == {} && workspace.Leftovers() == {} ==> NothingRemains(pg.s)
    {
      SafeMeansRecorded(pg.s);
      RecordedMeansReadBack(pg.s, pg.trail);
      if store.Leftovers() == {} && workspace.Leftovers() == {} {
        assert store.owned == map[] by { assert store.owned.Keys == {}; }
        assert store.unproven == {} && workspace.Owned() == map[] && workspace.Unproven() == {};
        EmptyLeftovers(pg.s);
      }
    }

    /** The store is closed first. */
    method ShutStore()
      requires Valid()
      modifies store, pg, pg.control
      ensures Valid()
      ensures old(pg.Peaceful()) && old(store.AllRemovable()) && old(workspace.Healthy())
              && (forall n :: n in old(store.unproven) ==> n !in old(pg.s).catalog) ==>
        pg.Peaceful() && store.Leftovers() == {} && workspace.Healthy()
    {
      hide Tracked, Moves, Consistent, SafeDrops, WorkspaceAt, Workspace.Workspace.Valid, Recalled;
      ghost var before := pg.s;
      Remember();
      NamesApart();
      var r := store.Close();
      StoreActed(before);
    }

    method ShutWorkspace()
      requires Valid()
      modifies workspace, pg, pg.control
      ensures Valid()
      ensures old(pg.Peaceful()) && old(workspace.Healthy()) ==> workspace.Leftovers() == {}
    {
      hide Tracked, Moves, Consistent, SafeDrops, Recalled;
      ghost var before := pg.s;
      var r := workspace.Close();
      WorkspaceActed(before);
    }

    /** Both objects closed. Where nothing goes wrong any more and the recorded databases are
        there as recorded, or gone, the cleanup is complete. */
    method CloseBoth() returns (complete: bool)
      requires Valid()
      modifies workspace, store, pg, pg.control
      ensures Valid() && (complete ==> NothingRemains(pg.s))
      ensures old(pg.Peaceful()) && old(store.AllRemovable()) && old(workspace.Healthy())
              && (forall n :: n in old(store.unproven) ==> n !in old(pg.s).catalog) ==>
        complete
    {
      hide Tracked, Moves, Consistent, SafeDrops, NothingRemains, Workspace.Workspace.Valid,
           CloneStore.CloneStore.Valid, Recalled;
      ShutStore();
      ShutWorkspace();
      complete := store.Leftovers() + workspace.Leftovers() == {};
      Review();
    }

    /** The store never records the workspace's name. */
    ghost method NamesApart()
      requires Valid()
      ensures workspace.name !in store.owned
    {
      assert forall n :: n in store.owned ==> Tracking.Recorded(StoreClient, store.owned[n], n, pg.s);
    }

    /** `report_cancellation`: "Cleanup complete" and the signal's exit status only when
        nothing remains. */
    method ReportCancellation() returns (complete: bool, status: int)
      requires Valid()
      ensures complete <==> store.Leftovers() + workspace.Leftovers() == {}
      ensures complete ==> NothingRemains(pg.s)
      ensures !complete ==> status == 1
      ensures forall n :: complete && pg.control.requested == Some(n) && n != 0 ==> status == 128 + n
      ensures complete && pg.control.requested in {None, Some(0)} ==> status == 143
    {
      if store.Leftovers() + workspace.Leftovers() == {} {
        Review();
        var number := if pg.control.requested.Some? then pg.control.requested.value else 0;
        return true, 128 + (if number != 0 then number else SIGTERM);
      }
      return false, 1;
    }
  }

  lemma NoStoreNames(s: ServerState, n: Name)
    requires forall m :: m in s.issuedTo ==> s.issuedTo[m] == WorkspaceClient
    ensures forall m :: m in s.issuedTo ==> s.issuedTo[m] != StoreClient
  {
  }

  lemma CreationMoves(v: View, w: View)
    requires exists n :: CreatesOnly(StoreClient, v, w, n)
    ensures Moves(v.s, w.s, Some(StoreClient))
  {
    hide Moves;
  }

  lemma FreezingMoves(v: View, w: View)
    requires WaitsOnly(v, w.(frozen := v.frozen))
    ensures Moves(v.s, w.s, Some(StoreClient))
  {
    MovesAlone(v.s, w.s, Some(StoreClient));
    hide Moves;
  }

  lemma WritingMoves(v: View, w: View, n: Name)
    requires WritesOnly(v, w, n)
    ensures Moves(v.s, w.s, Some(StoreClient))
  {
    hide Moves, HoldsOn;
  }

  // ---- the one way a database of somebody else can be dropped ----

  function ApplyAll(s: ServerState, events: seq<EnvEvent>): ServerState {
    if events == [] then s else Apply(ApplyAll(s, events[..|events| - 1]), events[|events| - 1])
  }

  /** The event creates a database of somebody else under `n`. */
  ghost predicate Takes(s: ServerState, e: EnvEvent, n: Name) {
    e.ForeignCreate? && e.name == n && n !in s.catalog && n in Apply(s, e).catalog
  }

  /** Somebody did so during the events. */
  ghost predicate Taken(s: ServerState, events: seq<EnvEvent>, n: Name)
    decreases |events|
  {
    events != [] &&
    var last := |events| - 1;
    Taken(s, events[..last], n) || Takes(ApplyAll(s, events[..last]), events[last], n)
  }

  /** Between the CREATE of `made` under name `n` and reading its identity back, only the
      environment acts. The identity read is that of the database made - and of any of this
      run's - if and only if nobody created a database under the name in that window. */
  lemma {:induction false} ReadBackIsOwnIffNotTaken(c: Client, s: ServerState, n: Name, made: Oid,
                                                    events: seq<EnvEvent>)
    requires Consistent(s) && SafeDrops(s) && OnlyMade(c, s, n, made) && n in s.catalog
    requires s.catalog[n].oid == made
    ensures var t := ApplyAll(s, events);
            && Consistent(t) && SafeDrops(t) && OnlyMade(c, t, n, made)
            && (Taken(s, events, n) ==> Absent(t, made))
            && (n in t.catalog ==>
                 && (t.catalog[n].oid == made <==> !Taken(s, events, n))
                 && (t.catalog[n].oid in t.mine <==> !Taken(s, events, n)))
    decreases |events|
  {
    if events != [] {
      var last := |events| - 1;
      ReadBackIsOwnIffNotTaken(c, s, n, made, events[..last]);
      WindowStep(c, ApplyAll(s, events[..last]), n, made, events[last], Taken(s, events[..last], n));
    }
  }

  lemma WindowStep(c: Client, s: ServerState, n: Name, made: Oid, e: EnvEvent, taken: bool)
    requires Consistent(s) && SafeDrops(s) && OnlyMade(c, s, n, made)
    requires if taken then Absent(s, made) else n in s.catalog ==> s.catalog[n].oid == made
    ensures var t := Apply(s, e);
            && Consistent(t) && SafeDrops(t) && OnlyMade(c, t, n, made)
            && (if taken || Takes(s, e, n) then Absent(t, made) else n in t.catalog ==> t.catalog[n].oid == made)
            && (n in t.catalog && (taken || Takes(s, e, n)) ==> t.catalog[n].oid !in t.mine)
            && (n in t.catalog && !taken && !Takes(s, e, n) ==> t.catalog[n].oid in t.mine)
  {
    var t := Apply(s, e);
    EnvironmentMoves(s, e);
    OnlyMadeStays(c, s, t, n, made);
    if taken {
      AbsentStays(s, t, made, None);
    } else if Takes(s, e, n) {
      AbsentByName(s, made);
      AbsentStays(s, t, made, None);
    } else if n in t.catalog {
      NotTaken(s, e, n);
    }
    hide SafeDrops, Moves, Consistent;
  }

  /** Unless the name is taken, what is under it was there before. */
  lemma NotTaken(s: ServerState, e: EnvEvent, n: Name)
    requires n !in s.running && !Takes(s, e, n) && n in Apply(s, e).catalog
    ensures n in s.catalog && Apply(s, e).catalog[n].oid == s.catalog[n].oid
  {
  }

  // ---- the report of leftovers ----

  /** What client `c` has on the server under `n`: a live database or a CREATE still at work. */
  ghost predicate LeftBy(c: Client, s: ServerState, n: Name) {
    IssuedBy(c, s, n) && (n in s.running || (n in s.catalog && s.catalog[n].oid in s.mine))
  }

  /** `leftovers`: the recorded names as they were at one moment, then the unproven ones. */
  function TwoReads(owned: map<Name, OwnedDatabase>, unproven: set<Name>): set<Name> {
    owned.Keys + unproven
  }

  /** A report that reads what is recorded, and a moment later what is unproven, is complete at
      that moment if and only if nothing left by the client was recorded in between. */
  lemma TornReportCompleteIff(c: Client, earlier: map<Name, OwnedDatabase>, owned: map<Name, OwnedDatabase>,
                              unproven: set<Name>, s: ServerState)
    requires Tracked(c, owned, unproven, s)
    ensures (forall n :: LeftBy(c, s, n) ==> n in TwoReads(earlier, unproven))
            <==> (forall n :: LeftBy(c, s, n) && n in owned ==> n in earlier)
  {
  }

  /** The watchdog reads `owned` before the run records a new database and `unproven` after that:
      the database, live and tracked at both moments, is in neither part of the report. */
  lemma TornReportMisses(n: Name, data: Content)
    ensures var s0 := ServerState(map[], 0, map[], map[], map[], map[n := StoreClient], {}, {}, {}, {n}, map[], map[]);
            var s1 := Born(s0, n, 0, Unmarked, data, true);
            var db := OwnedDatabase(n, s1.catalog[n].oid, 0);
            var s2 := s1.(recorded := {Identified(db.oid, db.owner)});
            && Tracked(StoreClient, map[], {n}, s1) && Tracked(StoreClient, map[n := db], {}, s2)
            && LeftBy(StoreClient, s1, n) && LeftBy(StoreClient, s2, n)
            && n !in TwoReads(map[], {})
  {
  }

  /** A run in which a database this run did not make is dropped: somebody replaces the new
      database, under its random name, before its identity is read back. */
  lemma SquatterIsDropped(n: Name, foreign: Owner, data: Content)
    ensures var s0 := ServerState(map[], 0, map[], map[], map[], map[n := StoreClient], {}, {}, {}, {n}, map[], map[]);
            var s1 := Born(s0, n, 0, Unmarked, EMPTY, true);
            var s2 := ApplyAll(s1, [ForeignDrop(n), ForeignCreate(n, foreign, Unmarked, data)]);
            && Consistent(s0) && SafeDrops(s0) && OnlyMade(StoreClient, s1, n, Oid(0)) && n in s2.catalog
            && var read := s2.catalog[n];
               var marked := read.(marker := Of(StoreClient));
               var s3 := s2.(catalog := s2.catalog[n := marked], recorded := {Identified(read.oid, read.owner)});
               && read.oid !in s3.mine
               // the check before the DROP accepts it
               && (s3.catalog[n].oid, s3.catalog[n].owner, s3.catalog[n].marker) == (read.oid, read.owner, Of(StoreClient))
               && read.oid in Gone(s3, n, marked).dropped && ReadForeign(s3, read.oid)
  {
    var s0 := ServerState(map[], 0, map[], map[], map[], map[n := StoreClient], {}, {}, {}, {n}, map[], map[]);
    var s1 := Born(s0, n, 0, Unmarked, EMPTY, true);
    var events := [ForeignDrop(n), ForeignCreate(n, foreign, Unmarked, data)];
    assert events[..1] == [ForeignDrop(n)] && events[..1][..0] == [];
    assert ApplyAll(s1, events[..1]) == Apply(ApplyAll(s1, []), ForeignDrop(n));
    assert ApplyAll(s1, events) == Apply(ApplyAll(s1, events[..1]), events[1]);
  }
}
