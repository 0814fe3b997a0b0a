/** The clone backend (postgres/backend.py, `CloneBackend`): candidates are clones of the
    accepted database, and an accepted candidate takes its place. */
module CloneBackend {
  import opened Wrappers
  import opened Ordering
  import opened Schema
  import opened Server
  import opened Cancellation
  import opened Cluster
  import opened Cleanup
  import opened Tracking
  import opened Keeping
  import opened States
  import opened Verdicts
  import opened Steps
  import CloneStore
  import Oracle

  /** The candidate is recorded besides what was; nothing recorded before was touched. */
  ghost predicate Beside(v: View, w: View, candidate: OwnedDatabase) {
    && Keeps(v, w)
    && candidate.name !in v.owned && w.owned == v.owned[candidate.name := candidate] && w.unproven == v.unproven
  }

  lemma BesideCreated(v: View, w: View, candidate: OwnedDatabase)
    requires CreatesOnly(StoreClient, v, w, candidate.name) && candidate.name !in v.owned
    requires candidate.name in w.owned && w.owned[candidate.name] == candidate && w.unproven == v.unproven
    ensures Beside(v, w, candidate)
  {
    CreatingKeeps(v, w, candidate.name);
    hide Keeps, Moves, SameContent;
  }

  lemma BesideRecorded(v: View, w: View, candidate: OwnedDatabase)
    requires Beside(v, w, candidate)
    ensures Keeps(v, w) && candidate.name !in v.owned && candidate.name in w.owned && w.owned[candidate.name] == candidate
  {
    hide Keeps;
  }

  lemma BesideOther(v: View, w: View, candidate: OwnedDatabase, db: OwnedDatabase)
    requires Beside(v, w, candidate) && db.name in v.owned && v.owned[db.name] == db
    ensures db.name in w.owned && w.owned[db.name] == db
  {
    hide Keeps;
  }

  lemma BesideStays(v: View, w: View, x: View, candidate: OwnedDatabase)
    requires Beside(v, w, candidate) && Keeps(w, x) && Consistent(w.s) && x.owned == w.owned && x.unproven == w.unproven
    ensures Beside(v, x, candidate)
  {
    KeepsTransitive(v, w, x);
    hide Keeps, Consistent;
  }

  lemma BesideWritten(v: View, w: View, x: View, candidate: OwnedDatabase)
    requires Beside(v, w, candidate) && WritesOnly(w, x, candidate.name) && Consistent(w.s)
    ensures Beside(v, x, candidate)
  {
    WritingKeeps(v, w, x, candidate.name);
    hide Keeps, Moves, HoldsOn, Consistent;
  }

  /** Unless somebody took a name, a recorded database shows what it showed. */
  lemma ShowsStill(v: View, w: View, db: OwnedDatabase, data: Content)
    requires Keeps(v, w) && Consistent(v.s) && Tracked(StoreClient, v.owned, v.unproven, v.s)
    requires db.name in v.owned && v.owned[db.name] == db
    requires v.s.squatted == {} ==> Shows(v.s, db, data)
    ensures w.s.squatted == {} ==> Shows(w.s, db, data) && v.s.squatted == {}
  {
    if w.s.squatted == {} { Oracle.SourceKept(v, w, db); }
    hide Keeps, Consistent, Tracked;
  }

  class CloneBackend {
    const pg: Postgres
    const store: CloneStore.CloneStore
    const oracle: Oracle.Oracle
    const world: World
    ghost const initial: State
    ghost const missedBefore: nat
    var acceptedDb: OwnedDatabase
    var current: State
    var outcomes: map<Outcome, nat>
    var probes: nat
    var accepted: nat
    var constraintRejections: nat
    var raiseRejections: nat
    ghost var log: seq<Probe>
    /** The accepted content and identity that the probes from number `base` on lead on from. */
    ghost var base: nat
    ghost var start: Abstract

    ghost predicate Wired()
      reads store, oracle, pg, pg.control
    {
      && store.pg == pg && oracle.pg == pg
      && store.Valid() && oracle.Valid()
      && oracle.cfg == world.cfg && oracle.behaviour == world.behaviour
    }

    /** The accepted database is recorded and frozen, and holds the current state. */
    ghost predicate Synced()
      reads this`acceptedDb, this`current, store, pg
    {
      && acceptedDb.name in store.owned && store.owned[acceptedDb.name] == acceptedDb
      && acceptedDb.oid in store.frozen
      && current.Keys == world.tables
      && (pg.s.squatted == {} ==>
           acceptedDb.oid in pg.s.content && Reads(world.tables, pg.s.content[acceptedDb.oid], current))
    }

    ghost predicate Books()
      reads this`log, this`current, this`outcomes
    {
      Chain(log, initial, current) && Tallied(log, outcomes)
    }

    ghost function Score(): Counters
      reads this`accepted, this`constraintRejections, this`raiseRejections, this`outcomes
    {
      Counters(accepted, constraintRejections, raiseRejections, outcomes)
    }

    ghost predicate Undisturbed()
      reads pg, oracle
    {
      pg.s.squatted == {} && oracle.missed == missedBefore
    }

    /** Why each probe was answered as it was. */
    ghost predicate Reasoned()
      reads this`log, pg, oracle
    {
      Undisturbed() ==> AllExplained(world, oracle.calls, log)
    }

    /** The books, with every counter that of the log. */
    ghost predicate Kept()
      reads this`log, this`current, this`outcomes, this`accepted, this`constraintRejections, this`raiseRejections
      reads pg, oracle
    {
      Books() && Reasoned() && Score() == CountersOf(log)
    }

    /** Nothing goes wrong on the server or in the world, and the accepted database can be cloned. */
    ghost predicate Smooth()
      reads this`acceptedDb, store, pg, pg.control
    {
      pg.Peaceful() && store.Cloneable(pg.s, acceptedDb) && Robust(world)
    }

    ghost predicate Sound()
      reads this`acceptedDb, this`log, this`current, this`outcomes
      reads this`accepted, this`constraintRejections, this`raiseRejections
      reads store, oracle, pg, pg.control
    {
      Wired() && Synced() && Kept() && missedBefore <= oracle.missed
    }

    ghost predicate Valid()
      reads this, store, oracle, pg, pg.control
    {
      Sound() && base <= |log| && (Undisturbed() ==> Linked(log[base..], start, Store()))
    }

    /** With what `data` the accepted database is taken to hold. */
    ghost function At(data: Content): Moment
      reads this, oracle
    {
      Moment(log, current, Abstract(data, oracle.expected), probes, oracle.executions, oracle.lastOutcome)
    }

    ghost function Store(): Abstract
      reads this`acceptedDb, pg, oracle
    {
      Abstract(if acceptedDb.oid in pg.s.content then pg.s.content[acceptedDb.oid] else EMPTY, oracle.expected)
    }

    /** On an accepted, frozen database whose rows were read as `state`. */
    constructor (store: CloneStore.CloneStore, oracle: Oracle.Oracle, world: World, acceptedDb: OwnedDatabase,
                 state: State)
      requires store.Valid() && oracle.pg == store.pg && oracle.Valid()
      requires oracle.cfg == world.cfg && oracle.behaviour == world.behaviour
      requires acceptedDb.name in store.owned && store.owned[acceptedDb.name] == acceptedDb
      requires acceptedDb.oid in store.frozen && state.Keys == world.tables
      requires store.pg.s.squatted == {} ==>
        acceptedDb.oid in store.pg.s.content && Reads(world.tables, store.pg.s.content[acceptedDb.oid], state)
      ensures Valid() && this.store == store && this.oracle == oracle && this.pg == store.pg && this.world == world
      ensures this.acceptedDb == acceptedDb && current == state && initial == state && log == []
      ensures missedBefore == oracle.missed
    {
      hide Tracked, Consistent, SafeDrops, StateOf, Recalled;
      pg, this.store, this.oracle, this.world := store.pg, store, oracle, world;
      initial, missedBefore, this.acceptedDb, current := state, oracle.missed, acceptedDb, state;
      outcomes, probes, accepted, constraintRejections, raiseRejections := map[], 0, 0, 0, 0;
      log := [];
      base, start := 0, Abstract(if acceptedDb.oid in store.pg.s.content then store.pg.s.content[acceptedDb.oid] else EMPTY,
                                 oracle.expected);
    }

    ghost predicate Held(v: View, candidate: OwnedDatabase, data: Content)
      reads store, pg, pg.control
    {
      && store.pg == pg && store.Valid() && Beside(v, store.View(), candidate)
      && (pg.s.squatted == {} ==> Shows(pg.s, candidate, data))
    }

    // ---- the candidate ----

    /** Read the candidate. */
    method ReadCandidate(candidate: OwnedDatabase, ghost v: View, ghost data: Content) returns (r: Result<Content>)
      requires Held(v, candidate, data)
      modifies pg, pg.control
      ensures Held(v, candidate, data) && (pg.s.squatted == {} ==> old(pg.s.squatted) == {})
      ensures r.Returned? && pg.s.squatted == {} ==> r.value == data
      ensures old(pg.Peaceful()) && candidate.name in old(pg.s).catalog ==>
        pg.Peaceful() && r.Returned? && pg.s == old(pg.s)
    {
      hide Tracked, Moves, Consistent, SafeDrops, SameContent, Keeps, WaitsOnly, Recalled;
      ghost var w := store.View();
      r := store.ReadFrom(candidate);
      WaitedBeside(v, w, store.View(), candidate, data);
    }

    /** Still recorded, whatever else the store had to leave behind. */
    ghost predicate Recorded(v: View, candidate: OwnedDatabase)
      reads store, pg, pg.control
    {
      && store.pg == pg && store.Valid() && Keeps(v, store.View())
      && candidate.name !in v.owned && candidate.name in store.owned && store.owned[candidate.name] == candidate
    }

    /** A client leaves `data` in the candidate. */
    method WriteCandidate(candidate: OwnedDatabase, data: Content, ghost v: View, ghost before: Content)
      returns (r: Result<()>)
      requires Held(v, candidate, before)
      modifies pg, pg.control
      ensures Recorded(v, candidate) && (pg.s.squatted == {} ==> old(pg.s.squatted) == {})
      ensures r.Returned? ==> Held(v, candidate, data)
      ensures old(pg.Peaceful()) && candidate.name in old(pg.s).catalog ==>
        pg.Peaceful() && r.Returned? && pg.s.catalog == old(pg.s).catalog
    {
      hide Tracked, Moves, Consistent, SafeDrops, SameContent, Keeps, HoldsOn, Recalled;
      ghost var w := store.View();
      r := store.WriteInto(candidate, data);
      BesideWritten(v, w, store.View(), candidate);
      if pg.s.squatted == {} { SquattingGrows(w.s, pg.s, Some(StoreClient)); }
    }

    /** Delete the rows, with everything that refers to them, in the candidate. */
    method Prune(candidate: OwnedDatabase, table: TableKey, rows: seq<RowKey>, ghost v: View, ghost data: Content)
      returns (r: Try<Deletion>)
      requires Held(v, candidate, data)
      modifies pg, pg.control
      ensures Recorded(v, candidate) && (pg.s.squatted == {} ==> old(pg.s.squatted) == {})
      ensures r.Done? ==> !r.value.Broke? && Held(v, candidate, if r.value.Left? then r.value.data else data)
      ensures r.Done? && pg.s.squatted == {} ==>
        && world.tables <= data.rows.Keys && Present(StateOf(world.tables, data), table, rows)
        && r.value == world.deletion(probes, data, table, rows)
      ensures r.KeyError? && pg.s.squatted == {} ==>
        world.tables <= data.rows.Keys && !Present(StateOf(world.tables, data), table, rows)
      ensures old(pg.Peaceful()) && candidate.name in old(pg.s).catalog ==>
        && pg.Peaceful() && pg.s.catalog == old(pg.s).catalog
        && (pg.s.squatted == {} && world.tables <= data.rows.Keys && !world.deletion(probes, data, table, rows).Broke? ==>
             Present(StateOf(world.tables, data), table, rows) ==> r.Done?)
    {
      hide Tracked, Moves, Consistent, SafeDrops, SameContent, Keeps, HoldsOn, StateOf, Present,
           CloneStore.CloneStore.Valid, Recalled;
      var content := ReadCandidate(candidate, v, data);
      if content.Raised? {
        return Passed(content.e);
      }
      var state := ReadRows(world.tables, content.value);
      if state.Raised? {
        return Passed(state.e);
      }
      if !Present(state.value, table, rows) {
        return KeyError;
      }
      var deletion := world.deletion(probes, content.value, table, rows);
      if deletion.Broke? {
        return Passed(Psycopg(deletion.fault));
      }
      if deletion.Left? {
        var left := WriteCandidate(candidate, deletion.data, v, data);
        if left.Raised? {
          return Passed(left.e);
        }
      }
      r := Done(deletion);
    }

    /** `store.freeze(candidate_db)` */
    method FreezeCandidate(candidate: OwnedDatabase, ghost v: View, ghost data: Content) returns (r: Result<()>)
      requires Held(v, candidate, data)
      modifies store, pg, pg.control
      ensures Held(v, candidate, data) && (pg.s.squatted == {} ==> old(pg.s.squatted) == {})
      ensures r.Returned? ==> candidate.oid in store.frozen
      ensures old(pg.Peaceful()) && old(Undamaged(candidate, false, acceptedDb)) ==>
        pg.Peaceful() && r.Returned? && store.Cloneable(pg.s, candidate) && Undamaged(candidate, false, acceptedDb)
    {
      hide Tracked, Moves, Consistent, SafeDrops, SameContent, Keeps, HoldsOn, WaitsOnly, Recalled;
      ghost var w := store.View();
      r := store.Freeze(candidate);
      FrozenBeside(v, w, store.View(), candidate, data);
    }

    /** Ask the oracle about clones of the candidate. `ground` is the outcome the answer rests on. */
    method AskOracle(candidate: OwnedDatabase, ghost v: View, ghost data: Content)
      returns (r: Result<bool>, ghost ground: Outcome)
      requires Wired() && Held(v, candidate, data) && candidate.oid in store.frozen && missedBefore <= oracle.missed
      requires Reasoned()
      modifies store, oracle, pg, pg.control
      ensures Wired() && missedBefore <= oracle.missed && Recorded(v, candidate) && Reasoned()
      ensures Undisturbed() ==> old(Undisturbed())
      ensures pg.s.squatted == {} ==> old(pg.s.squatted) == {}
      ensures r.Returned? ==>
        && Held(v, candidate, data) && candidate.oid in store.frozen
        && oracle.lastOutcome == Some(ground) && old(oracle.executions) < oracle.executions
        && (if r.value then ground.SameFailure? else Refusing(ground))
      ensures r.Returned? && Undisturbed() ==> Rests(world, oracle.calls, data, data, ground, false)
      ensures r.Returned? && Undisturbed() && Deterministic(world) ==>
        Told(world, old(oracle.expected), data, r.value, oracle.expected)
      ensures old(pg.Peaceful()) && old(store.Cloneable(pg.s, candidate)) && old(Undamaged(candidate, false, acceptedDb)) ==>
        && pg.Peaceful() && store.Cloneable(pg.s, candidate) && Undamaged(candidate, false, acceptedDb)
        && oracle.missed == old(oracle.missed)
        && (pg.s.squatted == {} && Oracle.Decisive(world.cfg, world.behaviour, data) ==> r.Returned?)
    {
      hide Tracked, Moves, Consistent, SafeDrops, SameContent, Classify, Deterministic, AllExplained, Oracle.Ran,
           Oracle.Worked, Oracle.Follows, Keeps, Oracle.Consulted, Oracle.Decides, Oracle.Steady, Oracle.InOrder,
           Oracle.Oracle.Valid, Recalled;
      ghost var s, w := oracle.Now(), store.View();
      r := oracle.Fails(Oracle.InClone(store, candidate));
      WorkedBeside(v, w, store.View(), candidate, data, r.Returned?);
      Oracle.FollowsMeans(s, oracle.Now());
      if Undisturbed() { ExplainedStill(world, s.calls, oracle.calls, log); }
      ground := SameFailure;
      if r.Returned? {
        Oracle.ConsultedOutcome(s, oracle.Now(), oracle.confirm, r.value);
        ground := oracle.lastOutcome.value;
        if Undisturbed() && Deterministic(world) {
          SteadyWorld(world, data);
          Oracle.DecidesMeans(world.cfg, s, oracle.Now(), world.behaviour(0, data), r.value);
        }
      }
    }

    // ---- promotion and refusal ----

    /** Write the probe down. */
    ghost method Note(p: Probe)
      requires Books() && Reasoned() && Coherent(p) && p.before == current
      requires p.answer.OracleRefused? ==> Tally(outcomes, p.answer.outcome) > 0
      requires Undisturbed() ==> Explained(world, oracle.calls, p)
      modifies this`log
      ensures log == old(log) + [p] && Chain(log, initial, p.after) && Tallied(log, outcomes) && Reasoned()
      ensures CountersOf(log) == CountersOf(old(log)).Plus(p.answer)
    {
      hide Coherent, Chain, Explained, AllExplained;
      ChainSnoc(log, initial, p);
      CountersSnoc(log, p);
      TalliedMore(log, outcomes, p, None);
      if Undisturbed() { ExplainedMore(world, oracle.calls, log, p); }
      log := log + [p];
    }

    /** Write a candidate down that has no fewer rows. */
    ghost method NoteUnshrunk(table: TableKey, rows: seq<RowKey>, a: Abstract, left: Content, candidate: State)
      requires Kept() && Deleted(a, table, rows, Left(left)) && table in current && Size(candidate) >= Size(current)
      requires a.expected == oracle.expected && (pg.s.squatted == {} ==> Reads(world.tables, left, candidate))
      modifies this`log
      ensures Kept() && Noted(old(At(a.data)), At(a.data), table, rows, false)
    {
      hide Chain, Tallied, Size, Coherent, Present, Reads, AllExplained, CountersOf;
      var p := Probe(probes, a, current, table, rows, current, a, NoShrink(left, candidate));
      VerdictRefusal(p);
      Note(p);
    }

    /** The deletion asked for gave `d` on the accepted content. */
    ghost predicate Deleted(a: Abstract, table: TableKey, rows: seq<RowKey>, d: Deletion)
      reads this`current, this`probes, pg
    {
      pg.s.squatted == {} ==>
        && Reads(world.tables, a.data, current) && Present(current, table, rows)
        && world.deletion(probes, a.data, table, rows) == d
    }

    /** The candidate becomes the accepted database, and the old one is dropped. A signal that
        comes before the last of the assignments leaves the candidate unpromoted. */
    method Promote(candidate: OwnedDatabase, state: State, ghost p: Probe, ghost v: View, ghost data: Content)
      returns (r: Try<bool>, promoted: bool)
      requires Wired() && Books() && Reasoned() && Held(v, candidate, data) && candidate.oid in store.frozen
      requires acceptedDb.name in v.owned && v.owned[acceptedDb.name] == acceptedDb
      requires current.Keys == world.tables == state.Keys && Size(state) < Size(current) && p.table in current
      requires pg.s.squatted == {} ==> Reads(world.tables, data, state)
      requires p.before == current && p.after == state && p.answer.Accepted?
      requires Score() == CountersOf(log).Heard(SameFailure, p.answer.cached)
      requires Undisturbed() ==> Explained(world, oracle.calls, p)
      modifies this`acceptedDb, this`current, this`accepted, this`log, store, pg, pg.control
      ensures Wired() && Books() && Reasoned() && (pg.s.squatted == {} ==> old(pg.s.squatted) == {})
      ensures !promoted ==>
        r == Passed(Cancelled) && pg.control.delivered && Recorded(v, candidate)
      ensures promoted ==>
        && Synced() && Kept() && acceptedDb == candidate && current == state && !r.KeyError? && (r.Done? ==> r.value)
        && log == old(log) + [p]
        && (pg.s.squatted == {} ==> Shows(pg.s, candidate, data))
        && (r.Done? ==> store.unproven == v.unproven
                        && store.owned == v.owned[candidate.name := candidate] - {old(acceptedDb).name})
      ensures old(pg.Peaceful()) && Intact(StoreClient, old(pg.s), old(acceptedDb))
              && old(store.Cloneable(pg.s, candidate)) ==>
        && pg.Peaceful() && r.Done?
        && (if promoted then store.Cloneable(pg.s, acceptedDb) else pg.s == old(pg.s))
    {
      hide CountersOf, Books, Coherent, Reads, SameContent, Tracked, Moves, Consistent, SafeDrops, Chain, Tallied,
           StateOf, Size, Keeps, Beside, Explained, AllExplained, CloneStore.CloneStore.Valid,
           Oracle.Oracle.Valid, Recalled;
      var replaced := acceptedDb;
      var raised := Assign(candidate, state, p, v, data);
      if raised {
        return Passed(Cancelled), false;
      }
      promoted := true;
      var dropped := DropReplaced(replaced, candidate, v, data);
      r := if dropped.Raised? then Passed(dropped.e) else Done(true);
    }

    /** The assignments: a signal can come between any two of them. */
    method Assign(candidate: OwnedDatabase, state: State, ghost p: Probe, ghost v: View, ghost data: Content)
      returns (raised: bool)
      requires Wired() && Books() && Reasoned() && Held(v, candidate, data)
      requires state.Keys == current.Keys && Size(state) < Size(current) && p.table in current
      requires p.before == current && p.after == state && p.answer.Accepted?
      requires Score() == CountersOf(log).Heard(SameFailure, p.answer.cached)
      requires Undisturbed() ==> Explained(world, oracle.calls, p)
      modifies this`acceptedDb, this`current, this`accepted, this`log, pg, pg.control
      ensures Wired() && Books() && Reasoned() && (pg.s.squatted == {} ==> old(pg.s.squatted) == {})
      ensures raised ==> pg.control.delivered && Recorded(v, candidate)
      ensures !raised ==>
        && Kept() && Held(v, candidate, data) && acceptedDb == candidate && current == state && log == old(log) + [p]
      ensures old(pg.Peaceful()) ==> pg.Peaceful() && !raised && pg.s == old(pg.s)
    {
      hide CountersOf, Books, Wired, Reasoned, Undisturbed, Held, Recorded, Coherent, Size, Chain, Tallied,
           Explained;
      acceptedDb := candidate;
      raised := Interrupted(candidate, v, data);
      if raised {
        return;
      }
      Adopt(state, p);
      raised := Interrupted(candidate, v, data);
      if raised {
        return;
      }
      accepted := accepted + 1;
      raised := Interrupted(candidate, v, data);
    }

    method Interrupted(candidate: OwnedDatabase, ghost v: View, ghost data: Content) returns (raised: bool)
      requires Wired() && Reasoned() && Held(v, candidate, data)
      modifies pg, pg.control
      ensures Wired() && Reasoned() && Held(v, candidate, data) && Recorded(v, candidate)
      ensures (Undisturbed() ==> old(Undisturbed())) && (pg.s.squatted == {} ==> old(pg.s.squatted) == {})
      ensures raised ==> pg.control.delivered
      ensures old(pg.Peaceful()) ==> pg.Peaceful() && !raised && pg.s == old(pg.s)
    {
      hide Tracked, Moves, Consistent, SafeDrops, Keeps, Beside, Shows, AllExplained, CloneStore.CloneStore.Valid,
           Oracle.Oracle.Valid, Recalled;
      raised := Wait(candidate, v, data);
      BesideRecorded(v, store.View(), candidate);
    }

    /** The candidate's rows are the current state now. */
    method Adopt(state: State, ghost p: Probe)
      requires Books() && Reasoned() && p.before == current && p.after == state && p.answer.Accepted?
      requires p.table in current && state.Keys == current.Keys && Size(state) < Size(current)
      requires Score() == CountersOf(log).Heard(SameFailure, p.answer.cached)
      requires Undisturbed() ==> Explained(world, oracle.calls, p)
      modifies this`current, this`log
      ensures Books() && Reasoned() && current == state && log == old(log) + [p]
      ensures Score().(accepted := accepted + 1) == CountersOf(log)
    {
      hide CountersOf, Chain, Tallied, Size, Explained, AllExplained;
      Note(p);
      current := state;
    }

    method Wait(candidate: OwnedDatabase, ghost v: View, ghost data: Content) returns (raised: bool)
      requires Held(v, candidate, data)
      modifies pg, pg.control
      ensures Held(v, candidate, data) && (pg.s.squatted == {} ==> old(pg.s.squatted) == {})
      ensures raised || old(pg.control.delivered) ==> pg.control.delivered
      ensures pg.calm ==> !raised && pg.s == old(pg.s) && pg.control.State() == old(pg.control.State())
    {
      hide Tracked, Moves, Consistent, SafeDrops, SameContent, Keeps, HoldsOn, WaitsOnly, Beside, Recalled;
      ghost var w := store.View();
      raised := store.Pause();
      PausedWaits(w, store.View(), raised);
      WaitedBeside(v, w, store.View(), candidate, data);
    }

    method DropReplaced(replaced: OwnedDatabase, candidate: OwnedDatabase, ghost v: View, ghost data: Content)
      returns (r: Result<()>)
      requires Held(v, candidate, data) && replaced.name in v.owned
      modifies store, pg, pg.control
      ensures store.Valid() && (pg.s.squatted == {} ==> old(pg.s.squatted) == {} && Shows(pg.s, candidate, data))
      ensures candidate.name in store.owned && store.owned[candidate.name] == candidate && store.frozen == old(store.frozen)
      ensures r.Returned? ==>
        store.unproven == v.unproven && store.owned == v.owned[candidate.name := candidate] - {replaced.name}
      ensures old(pg.Peaceful()) && v.owned[replaced.name] == replaced && Intact(StoreClient, old(pg.s), replaced) ==>
        pg.Peaceful() && r.Returned? && pg.s.catalog == old(pg.s).catalog - {replaced.name}
    {
      hide Tracked, Moves, Consistent, SafeDrops, SameContent, Keeps, HoldsOn, DropsAtMost, Beside, Recalled;
      ghost var w := store.View();
      if v.owned[replaced.name] == replaced { BesideOther(v, w, candidate, replaced); }
      r := store.Drop(replaced);
      ReplacedDropped(v, w, store.View(), replaced, candidate, data);
    }

    // ---- the attempt ----

    /** Where an attempt on a candidate got: the candidate took over, or it is still to be
        dropped and the accepted database is as before. */
    ghost predicate Settled(v: View, candidate: OwnedDatabase, r: Try<bool>, promoted: bool, former: OwnedDatabase)
      reads this`acceptedDb, this`current, store, pg, pg.control
    {
      && (promoted ==> !r.KeyError? && (r.Done? ==> r.value))
      && (promoted ==> acceptedDb == candidate && Synced())
      && (promoted && r.Done? ==>
           store.unproven == v.unproven && store.owned == v.owned[candidate.name := candidate] - {former.name})
      && (!promoted ==> Recorded(v, candidate) && (r.Done? ==> !r.value && Beside(v, store.View(), candidate)))
      && (!promoted && (r.Done? || !pg.control.delivered) ==> acceptedDb == former)
    }

    /** What was there still is: the candidate and the accepted database, or the candidate that
        took its place. */
    ghost predicate Undamaged(candidate: OwnedDatabase, promoted: bool, former: OwnedDatabase)
      reads this`acceptedDb, store, pg
    {
      if promoted then store.Cloneable(pg.s, acceptedDb)
      else acceptedDb == former && store.Cloneable(pg.s, former) && Intact(StoreClient, pg.s, candidate)
    }

    /** The inner `try`, from the deletion on. */
    method Decide(candidate: OwnedDatabase, table: TableKey, rows: seq<RowKey>, deletion: Deletion,
                  ghost v: View, ghost a: Abstract) returns (r: Try<bool>, promoted: bool)
      requires Wired() && Kept() && Held(v, candidate, if deletion.Left? then deletion.data else a.data) && !deletion.Broke?
      requires acceptedDb.name in v.owned && v.owned[acceptedDb.name] == acceptedDb && missedBefore <= oracle.missed
      requires table in current && current.Keys == world.tables && Deleted(a, table, rows, deletion)
      requires a.expected == oracle.expected
      modifies this`acceptedDb, this`current, this`accepted, this`log, this`outcomes,
               this`constraintRejections, this`raiseRejections,
               store, oracle, pg, pg.control
      ensures Wired() && Books() && Reasoned() && missedBefore <= oracle.missed && !r.KeyError?
      ensures r.Done? || !pg.control.delivered ==> Kept()
      ensures Undisturbed() ==> old(Undisturbed())
      ensures pg.s.squatted == {} ==> old(pg.s.squatted) == {}
      ensures Settled(v, candidate, r, promoted, old(acceptedDb))
      ensures !promoted && (r.Done? || !pg.control.delivered) ==> current == old(current)
      ensures r == Done(true) ==> deletion.Left?
      ensures r.Done? ==>
        Noted(old(At(a.data)), At(if r.value then deletion.data else a.data), table, rows, r.value)
      ensures r == Done(true) && pg.s.squatted == {} ==> Shows(pg.s, acceptedDb, deletion.data)
      ensures old(pg.Peaceful()) && Intact(StoreClient, old(pg.s), candidate) && old(store.Cloneable(pg.s, acceptedDb)) ==>
        && pg.Peaceful() && Undamaged(candidate, promoted, old(acceptedDb)) && oracle.missed == old(oracle.missed)
        && (deletion.Left? && pg.s.squatted == {} && world.tables <= deletion.data.rows.Keys ==>
             Oracle.Decisive(world.cfg, world.behaviour, deletion.data) ==> r.Done?)
      ensures !deletion.Left? ==> r == Done(false)
    {
      hide CountersOf, Tracked, Moves, Consistent, SafeDrops, Chain, Tallied, StateOf, Size, Keeps, Beside,
           Coherent, Present, Reads, Deterministic, Classify, AllExplained, CloneStore.CloneStore.Valid,
           Oracle.Oracle.Valid, Recalled;
      BesideRecorded(v, store.View(), candidate);
      match deletion {
        case ConstraintViolated =>
          constraintRejections := constraintRejections + 1;
          ghost var p := Probe(probes, a, current, table, rows, current, a, ConstraintRefused);
          ServerRefusal(p);
          Note(p);
          r, promoted := Done(false), false;
        case RaisedByTrigger =>
          raiseRejections := raiseRejections + 1;
          ghost var p := Probe(probes, a, current, table, rows, current, a, TriggerRefused);
          ServerRefusal(p);
          Note(p);
          r, promoted := Done(false), false;
        case Left(left) =>
          r, promoted := Judgement(candidate, table, rows, v, a, left);
      }
    }

    /** Read the candidate, compare, freeze, ask, promote. */
    method Judgement(candidate: OwnedDatabase, table: TableKey, rows: seq<RowKey>,
                     ghost v: View, ghost a: Abstract, ghost left: Content) returns (r: Try<bool>, promoted: bool)
      requires Wired() && Kept() && Held(v, candidate, left)
      requires acceptedDb.name in v.owned && v.owned[acceptedDb.name] == acceptedDb && missedBefore <= oracle.missed
      requires table in current && current.Keys == world.tables && Deleted(a, table, rows, Left(left))
      requires a.expected == oracle.expected
      modifies this`acceptedDb, this`current, this`accepted, this`log, this`outcomes,
               store, oracle, pg, pg.control
      ensures Wired() && Books() && Reasoned() && missedBefore <= oracle.missed && !r.KeyError?
      ensures r.Done? || !pg.control.delivered ==> Kept()
      ensures Undisturbed() ==> old(Undisturbed())
      ensures pg.s.squatted == {} ==> old(pg.s.squatted) == {}
      ensures Settled(v, candidate, r, promoted, old(acceptedDb))
      ensures !promoted && (r.Done? || !pg.control.delivered) ==> current == old(current)
      ensures r.Done? ==> Noted(old(At(a.data)), At(if r.value then left else a.data), table, rows, r.value)
      ensures r == Done(true) && pg.s.squatted == {} ==> Shows(pg.s, acceptedDb, left)
      ensures old(pg.Peaceful()) && Intact(StoreClient, old(pg.s), candidate) && old(store.Cloneable(pg.s, acceptedDb)) ==>
        && pg.Peaceful() && Undamaged(candidate, promoted, old(acceptedDb)) && oracle.missed == old(oracle.missed)
        && (pg.s.squatted == {} && world.tables <= left.rows.Keys ==>
             Oracle.Decisive(world.cfg, world.behaviour, left) ==> r.Done?)
    {
      hide CountersOf, Tracked, Moves, Consistent, SafeDrops, Chain, Tallied, StateOf, Size, Keeps, Beside,
           Coherent, Present, Deterministic, Classify, AllExplained, CloneStore.CloneStore.Valid,
           Oracle.Oracle.Valid, Explained, Noted, Books, Shows, Recalled;
      var content := ReadCandidate(candidate, v, left);
      BesideRecorded(v, store.View(), candidate);
      if content.Raised? {
        return Passed(content.e), false;
      }
      var state := ReadRows(world.tables, content.value);
      if state.Raised? {
        return Passed(state.e), false;
      }
      if Size(state.value) >= Size(current) {
        NoteUnshrunk(table, rows, a, left, state.value);
        return Done(false), false;
      }
      r, promoted := FreezeAndAsk(candidate, state.value, table, rows, v, a, left);
    }

    method FreezeAndAsk(candidate: OwnedDatabase, state: State, table: TableKey, rows: seq<RowKey>,
                        ghost v: View, ghost a: Abstract, ghost left: Content) returns (r: Try<bool>, promoted: bool)
      requires Wired() && Kept() && Held(v, candidate, left)
      requires acceptedDb.name in v.owned && v.owned[acceptedDb.name] == acceptedDb && missedBefore <= oracle.missed
      requires table in current && current.Keys == world.tables == state.Keys && Size(state) < Size(current)
      requires Deleted(a, table, rows, Left(left)) && a.expected == oracle.expected
      requires pg.s.squatted == {} ==> Reads(world.tables, left, state)
      modifies this`acceptedDb, this`current, this`accepted, this`log, this`outcomes,
               store, oracle, pg, pg.control
      ensures Wired() && Books() && Reasoned() && missedBefore <= oracle.missed && !r.KeyError?
      ensures r.Done? || !pg.control.delivered ==> Kept()
      ensures Undisturbed() ==> old(Undisturbed())
      ensures pg.s.squatted == {} ==> old(pg.s.squatted) == {}
      ensures Settled(v, candidate, r, promoted, old(acceptedDb))
      ensures !promoted && (r.Done? || !pg.control.delivered) ==> current == old(current)
      ensures r.Done? ==> Noted(old(At(a.data)), At(if r.value then left else a.data), table, rows, r.value)
      ensures r == Done(true) && pg.s.squatted == {} ==> Shows(pg.s, acceptedDb, left)
      ensures old(pg.Peaceful()) && Intact(StoreClient, old(pg.s), candidate) && old(store.Cloneable(pg.s, acceptedDb)) ==>
        && pg.Peaceful() && Undamaged(candidate, promoted, old(acceptedDb)) && oracle.missed == old(oracle.missed)
        && (pg.s.squatted == {} && Oracle.Decisive(world.cfg, world.behaviour, left) ==> r.Done?)
    {
      hide CountersOf, Tracked, Moves, Consistent, SafeDrops, Chain, Tallied, StateOf, Size, Keeps, Beside,
           Coherent, Present, Deterministic, Classify, Told, Rests, Reads, AllExplained,
           CloneStore.CloneStore.Valid, Oracle.Oracle.Valid, Shows, Explained, Books, Synced, Recalled;
      ghost var former := acceptedDb;
      var frozen := FreezeCandidate(candidate, v, left);
      BesideRecorded(v, store.View(), candidate);
      if frozen.Raised? {
        return Passed(frozen.e), false;
      }
      var answer;
      ghost var ground;
      answer, ground := AskOracle(candidate, v, left);
      StillRecorded(v, store.View(), acceptedDb);
      if answer.Raised? {
        return Passed(answer.e), false;
      }
      r, promoted := Answer(answer.value, candidate, state, table, rows, v, a, left, ground);
      if !promoted { StillRecorded(v, store.View(), former); }
    }

    /** Count the outcome, then promote or refuse. */
    method Answer(answer: bool, candidate: OwnedDatabase, state: State, table: TableKey, rows: seq<RowKey>,
                  ghost v: View, ghost a: Abstract, ghost left: Content, ghost ground: Outcome)
      returns (r: Try<bool>, promoted: bool)
      requires Wired() && Kept() && Held(v, candidate, left) && candidate.oid in store.frozen
      requires acceptedDb.name in v.owned && v.owned[acceptedDb.name] == acceptedDb && missedBefore <= oracle.missed
      requires table in current && current.Keys == world.tables == state.Keys && Size(state) < Size(current)
      requires Deleted(a, table, rows, Left(left)) && (pg.s.squatted == {} ==> Reads(world.tables, left, state))
      requires oracle.lastOutcome == Some(ground) && (if answer then ground.SameFailure? else Refusing(ground))
      requires Undisturbed() ==> Rests(world, oracle.calls, left, left, ground, false)
      requires Undisturbed() && Deterministic(world) ==> Told(world, a.expected, left, answer, oracle.expected)
      modifies this`acceptedDb, this`current, this`accepted, this`log, this`outcomes,
               store, pg, pg.control
      ensures Wired() && Books() && Reasoned() && !r.KeyError?
      ensures r.Done? || !pg.control.delivered ==> Kept()
      ensures pg.s.squatted == {} ==> old(pg.s.squatted) == {}
      ensures Settled(v, candidate, r, promoted, old(acceptedDb))
      ensures !promoted && (r.Done? || !pg.control.delivered) ==> current == old(current)
      ensures r.Done? ==>
        && r.value == answer && |log| == |old(log)| + 1 && log[..|old(log)|] == old(log)
        && var p := log[|old(log)|];
           && p == Probe(probes, a, old(current), table, rows, current,
                         Abstract(if answer then left else a.data, oracle.expected), p.answer)
           && (answer <==> p.answer.Accepted?) && p.answer.Asked() && p.answer.Ground() == ground
      ensures r == Done(true) && pg.s.squatted == {} ==> Shows(pg.s, acceptedDb, left)
      ensures old(pg.Peaceful()) && Intact(StoreClient, old(pg.s), old(acceptedDb))
              && old(store.Cloneable(pg.s, candidate)) ==>
        && pg.Peaceful() && r.Done?
        && (if promoted then store.Cloneable(pg.s, acceptedDb) else pg.s == old(pg.s))
    {
      hide CountersOf, Tracked, Moves, Consistent, SafeDrops, Chain, Tallied, StateOf, Size, Keeps, Beside,
           Coherent, Present, Deterministic, Told, Rests, AllExplained, CloneStore.CloneStore.Valid,
           Oracle.Oracle.Valid, Recalled;
      TalliedCounted(log, outcomes, ground);
      outcomes := Counted(outcomes, oracle.lastOutcome.value);
      if answer {
        ghost var p := Probe(probes, a, current, table, rows, state, Abstract(left, oracle.expected),
                             Accepted(left, left, false));
        r, promoted := Promote(candidate, state, p, v, left);
      } else {
        BesideRecorded(v, store.View(), candidate);
        ghost var p := Probe(probes, a, current, table, rows, current, Abstract(a.data, oracle.expected),
                             OracleRefused(left, left, ground, false));
        if Undisturbed() { ShrinksIs(world, left, state, current); }
        VerdictRefusal(p);
        Note(p);
        r, promoted := Done(false), false;
      }
    }

    method Checkpoint() returns (raised: bool)
      requires Sound()
      modifies pg.control
      ensures Sound()
      ensures old(pg.Peaceful()) ==> pg.Peaceful() && !raised
      ensures pg.s == old(pg.s)
    {
      hide CountersOf, Tracked, Moves, Consistent, SafeDrops, Chain, Tallied, StateOf, AllExplained,
           Oracle.InOrder, Recalled;
      raised := pg.control.CheckpointHere();
    }

    /** `store.clone(accepted_db)`; what it holds is what the accepted database holds. */
    method CloneAccepted() returns (r: Result<OwnedDatabase>)
      requires Wired() && Synced()
      modifies store, pg, pg.control
      ensures Wired() && (pg.s.squatted == {} ==> old(pg.s.squatted) == {})
      ensures r.Returned? ==> Held(old(store.View()), r.value, old(Store()).data)
      ensures r.Raised? ==> Keeps(old(store.View()), store.View())
      ensures old(pg.Peaceful()) && old(store.Cloneable(pg.s, acceptedDb)) ==>
        && pg.Peaceful() && r.Returned? && store.Cloneable(pg.s, acceptedDb)
        && Intact(StoreClient, pg.s, r.value)
    {
      hide Tracked, Moves, Consistent, SafeDrops, SameContent, Keeps, CreatesOnly, Beside, StateOf,
           Oracle.Oracle.Valid, Recalled;
      ghost var v, before := store.View(), Store().data;
      r := store.Clone(acceptedDb);
      if r.Returned? {
        BesideCreated(v, store.View(), r.value);
        BesideOther(v, store.View(), r.value, acceptedDb);
        if pg.s.squatted == {} { KeepsSquatting(v, store.View(), r.value); }
        r := Handed(r.value, v, before);
      } else {
        ghost var n :| CreatesOnly(StoreClient, v, store.View(), n);
        CreatingKeeps(v, store.View(), n);
        if pg.s.squatted == {} { KeptSquatting(v, store.View()); }
      }
    }

    /** A signal that comes with the candidate: it stays recorded in the store. */
    method Handed(candidate: OwnedDatabase, ghost v: View, ghost data: Content) returns (r: Result<OwnedDatabase>)
      requires Held(v, candidate, data)
      modifies pg, pg.control
      ensures store.Valid() && Keeps(v, store.View()) && (pg.s.squatted == {} ==> old(pg.s.squatted) == {})
      ensures r.Returned? ==> r.value == candidate && Held(v, candidate, data)
      ensures pg.calm ==> r.Returned? && pg.s == old(pg.s) && pg.control.State() == old(pg.control.State())
    {
      hide Tracked, Moves, Consistent, SafeDrops, Keeps, Beside, Shows, CloneStore.CloneStore.Valid, Recalled;
      var raised := Wait(candidate, v, data);
      BesideRecorded(v, store.View(), candidate);
      r := if raised then Raised(Cancelled) else Returned(candidate);
    }

    /** `attempt`: true if the candidate without these rows was accepted. On a normal return
        the store records what it recorded before, but for an accepted candidate in place of
        the old accepted database. Only a delivered `Cancelled` can leave the backend out of order. */
    method Attempt(table: TableKey, rows: seq<RowKey>) returns (r: Try<bool>)
      requires Valid() && table in current
      modifies this, store, oracle, pg, pg.control
      ensures r.Done? || !pg.control.delivered ==> Valid()
      ensures Wired() && Books() && Reasoned()
      ensures Undisturbed() ==> old(Undisturbed())
      ensures r.Done? ==> base == old(base) && store.unproven == old(store.unproven) && probes == old(probes) + 1
      ensures r.Done? ==> exists data :: Noted(old(At(Store().data)), At(data), table, rows, r.value)
                                         && (Undisturbed() ==> data == Store().data)
      ensures r == Done(false) ==> store.owned == old(store.owned) && acceptedDb == old(acceptedDb)
      ensures r == Done(true) ==>
        && acceptedDb.name !in old(store.owned)
        && store.owned == old(store.owned)[acceptedDb.name := acceptedDb] - {old(acceptedDb).name}
      ensures r.KeyError? && Present(old(current), table, rows) ==> pg.s.squatted != {}
      ensures r.Done? && Undisturbed() && Deterministic(world) ==>
        Step(world, old(Store()), table, rows) == Some((r.value, Store()))
      ensures old(pg.Peaceful()) && old(store.Cloneable(pg.s, acceptedDb)) ==>
        && pg.Peaceful() && oracle.missed == old(oracle.missed)
        && (pg.s.squatted == {} && Robust(world) && Present(old(current), table, rows) ==>
             r.Done? && store.Cloneable(pg.s, acceptedDb))
      ensures pg.s.squatted == {} ==> old(pg.s.squatted) == {}
    {
      hide Sound, Noted, Explained, Coherent, Chain, Step, Deterministic, Tracked, Moves, Consistent, SafeDrops,
           Robust, Present, Linked, Books, Reasoned, CloneStore.CloneStore.Valid, Oracle.Oracle.Valid, Recalled;
      ghost var data := Store().data;
      ghost var g := At(data);
      ghost var after;
      r, after := Proceed(table, rows);
      if r.Done? {
        NotedLinks(g, At(after), table, rows, r.value, base, start, Undisturbed());
        if Undisturbed() && Deterministic(world) { LastStep(); }
      } else {
        base, start := |log|, Store();
        LinkedNothing(log, start);
      }
    }

    /** The last probe was the abstract step. */
    lemma LastStep()
      requires Sound() && Undisturbed() && Deterministic(world) && log != []
      ensures var p := log[|log| - 1]; Step(world, p.store, p.table, p.rows) == Some((p.answer.Accepted?, p.next))
    {
      hide Explained, Coherent, Step, Deterministic, Tracked, Consistent, SafeDrops, Tallied, CountersOf,
           CloneStore.CloneStore.Valid, Oracle.Oracle.Valid, Recalled;
      LastCoherent(log, initial, current);
      ExplainedSteps(world, oracle.calls, log[|log| - 1]);
    }

    /** The statements of `attempt`; `after` is what the accepted database then holds. */
    method Proceed(table: TableKey, rows: seq<RowKey>) returns (r: Try<bool>, ghost after: Content)
      requires Sound() && table in current
      modifies this`probes, this`acceptedDb, this`current, this`accepted, this`log, this`outcomes,
               this`constraintRejections, this`raiseRejections,
               store, oracle, pg, pg.control
      ensures r.Done? || !pg.control.delivered ==> Sound()
      ensures Wired() && Books() && Reasoned()
      ensures Undisturbed() ==> old(Undisturbed())
      ensures r.Done? ==> Noted(old(At(Store().data)), At(after), table, rows, r.value) && probes == old(probes) + 1
      ensures r.Done? && pg.s.squatted == {} ==> after == Store().data
      ensures r.Done? ==> store.unproven == old(store.unproven)
      ensures r == Done(false) ==> store.owned == old(store.owned) && acceptedDb == old(acceptedDb)
      ensures r == Done(true) ==>
        && acceptedDb.name !in old(store.owned)
        && store.owned == old(store.owned)[acceptedDb.name := acceptedDb] - {old(acceptedDb).name}
      ensures r.KeyError? && Present(old(current), table, rows) ==> pg.s.squatted != {}
      ensures old(pg.Peaceful()) && old(store.Cloneable(pg.s, acceptedDb)) ==>
        && pg.Peaceful() && oracle.missed == old(oracle.missed)
        && (pg.s.squatted == {} && Robust(world) && Present(old(current), table, rows) ==>
             r.Done? && store.Cloneable(pg.s, acceptedDb))
      ensures pg.s.squatted == {} ==> old(pg.s.squatted) == {}
    {
      hide Books, Score, Explained, Reads, HoldsOn, CreatesOnly, Noted, CountersOf, Robust, Tracked, Moves,
           Consistent, SafeDrops, Chain, Tallied, StateOf, Size, Keeps, Beside, Coherent, Present, AllExplained,
           CloneStore.CloneStore.Valid, Oracle.Oracle.Valid, Recalled;
      ghost var g := At(Store().data);
      var raised := Checkpoint();
      after := Store().data;
      if raised {
        return Passed(Cancelled), after;
      }
      probes := probes + 1;
      ghost var v, data := store.View(), Store().data;
      ghost var now := At(data);
      Begin();
      var made := CloneAccepted();
      if made.Raised? {
        SyncedStays(v, store.View(), acceptedDb, data);
        return Passed(made.e), after;
      }
      r, after := OnCandidate(made.value, table, rows, v, data);
      if r.Done? { NotedLater(g, now, At(after), table, rows, r.value); }
    }

    /** The accepted database as it was when the attempt began. */
    ghost predicate Began(db: OwnedDatabase, v: View, data: Content) {
      && Consistent(v.s) && Tracked(StoreClient, v.owned, v.unproven, v.s)
      && db.name in v.owned && v.owned[db.name] == db && db.oid in v.frozen
      && (v.s.squatted == {} ==> Shows(v.s, db, data))
    }

    /** The current state is that of the accepted content. */
    ghost predicate Current(v: View, data: Content)
      reads this`current
    {
      current.Keys == world.tables && (v.s.squatted == {} ==> Reads(world.tables, data, current))
    }

    ghost method Begin()
      requires Sound()
      ensures Began(acceptedDb, store.View(), Store().data) && Current(store.View(), Store().data)
    {
      hide Tracked, Consistent, StateOf, Chain, Tallied, Recalled;
    }

    method DropCandidate(candidate: OwnedDatabase, ghost former: OwnedDatabase, ghost v: View, ghost data: Content)
      returns (r: Result<()>)
      requires Recorded(v, candidate) && Began(former, v, data)
      modifies store, pg, pg.control
      ensures store.Valid() && (acceptedDb == former && Current(v, data) ==> Synced())
      ensures pg.s.squatted == {} ==> old(pg.s.squatted) == {} && Shows(pg.s, former, data)
      ensures former.name in store.owned && store.owned[former.name] == former
      ensures r.Returned? ==> candidate.name !in store.owned
      ensures r.Raised? && r.e != Cancelled ==> store.LeftBehind(candidate)
      ensures r.Returned? && Beside(v, old(store.View()), candidate) ==>
        store.owned == v.owned && store.unproven == v.unproven
      ensures old(pg.control.delivered) ==> pg.control.delivered
      ensures old(pg.Peaceful()) && old(Undamaged(candidate, false, former)) ==>
        pg.Peaceful() && r.Returned? && store.Cloneable(pg.s, former)
    {
      hide Tracked, Moves, Consistent, SafeDrops, SameContent, Keeps, Recalled;
      ghost var w := store.View();
      r := store.Drop(candidate);
      DroppingKeeps(v, w, store.View(), candidate);
      DropsMoves(StoreClient, w, store.View(), candidate);
      if pg.s.squatted == {} { SquattingGrows(w.s, pg.s, Some(StoreClient)); }
      SyncedStays(v, store.View(), former, data);
    }

    /** From the recorded candidate on: unless it was promoted it is dropped on every way out
        but `Cancelled`, or the store says that the drop did not succeed. */
    method OnCandidate(candidate: OwnedDatabase, table: TableKey, rows: seq<RowKey>, ghost v: View, ghost data: Content)
      returns (r: Try<bool>, ghost after: Content)
      requires Wired() && Kept() && Held(v, candidate, data) && Began(acceptedDb, v, data) && Current(v, data)
      requires table in current && missedBefore <= oracle.missed
      modifies this`acceptedDb, this`current, this`accepted, this`log, this`outcomes,
               this`constraintRejections, this`raiseRejections,
               store, oracle, pg, pg.control
      ensures r.Done? || !pg.control.delivered ==> Sound()
      ensures Wired() && Books() && Reasoned()
      ensures Undisturbed() ==> old(Undisturbed())
      ensures r.Done? ==> Noted(old(At(data)), At(after), table, rows, r.value)
      ensures r.Done? && pg.s.squatted == {} ==> after == Store().data
      ensures r.Done? ==> store.unproven == v.unproven
      ensures r == Done(false) ==> store.owned == v.owned && acceptedDb == old(acceptedDb)
      ensures r == Done(true) ==>
        acceptedDb.name !in v.owned && store.owned == v.owned[acceptedDb.name := acceptedDb] - {old(acceptedDb).name}
      ensures r != Passed(Cancelled) ==>
        candidate.name !in store.owned || acceptedDb == candidate || store.LeftBehind(candidate)
      ensures r.KeyError? && Present(old(current), table, rows) ==> pg.s.squatted != {}
      ensures old(pg.Peaceful()) && Intact(StoreClient, old(pg.s), candidate) && old(store.Cloneable(pg.s, acceptedDb)) ==>
        && pg.Peaceful() && oracle.missed == old(oracle.missed)
        && (pg.s.squatted == {} && Robust(world) && Present(old(current), table, rows) ==>
             r.Done? && store.Cloneable(pg.s, acceptedDb))
      ensures pg.s.squatted == {} ==> old(pg.s.squatted) == {}
    {
      hide Noted, WaitsOnly, HoldsOn, CountersOf, Robust, Tracked, Moves, Consistent, SafeDrops, Intact, Recorded,
           Chain, Tallied, StateOf, Size, Keeps, Beside, Coherent, Reads, Present, AllExplained, Books,
           CloneStore.CloneStore.Valid, CloneStore.CloneStore.Cloneable, Oracle.Oracle.Valid, Synced, Explained,
           Recalled, Classify, Deterministic;
      ghost var before := acceptedDb;
      after := data;
      BesideRecorded(v, store.View(), candidate);
      var promoted;
      r, promoted, after := TryCandidate(candidate, table, rows, v, data);
      if !promoted {
        var dropped := DropCandidate(candidate, before, v, data);
        if dropped.Raised? {
          r := Passed(dropped.e);
        }
      }
    }

    method TryCandidate(candidate: OwnedDatabase, table: TableKey, rows: seq<RowKey>, ghost v: View,
                        ghost data: Content)
      returns (r: Try<bool>, promoted: bool, ghost after: Content)
      requires Wired() && Kept() && Held(v, candidate, data) && Began(acceptedDb, v, data) && Current(v, data)
      requires table in current && missedBefore <= oracle.missed
      modifies this`acceptedDb, this`current, this`accepted, this`log, this`outcomes,
               this`constraintRejections, this`raiseRejections,
               store, oracle, pg, pg.control
      ensures Wired() && Books() && Reasoned() && missedBefore <= oracle.missed
      ensures r.Done? || !pg.control.delivered ==> Kept()
      ensures Undisturbed() ==> old(Undisturbed())
      ensures Settled(v, candidate, r, promoted, old(acceptedDb))
      ensures !promoted && (r.Done? || !pg.control.delivered) ==> current == old(current)
      ensures r.Done? ==> Noted(old(At(data)), At(after), table, rows, r.value)
      ensures r == Done(false) ==> after == data
      ensures r == Done(true) && pg.s.squatted == {} ==> Shows(pg.s, acceptedDb, after)
      ensures r.KeyError? && Present(old(current), table, rows) ==> pg.s.squatted != {}
      ensures old(pg.Peaceful()) && Intact(StoreClient, old(pg.s), candidate) && old(store.Cloneable(pg.s, acceptedDb)) ==>
        && pg.Peaceful() && Undamaged(candidate, promoted, old(acceptedDb)) && oracle.missed == old(oracle.missed)
        && (pg.s.squatted == {} && Robust(world) && Present(old(current), table, rows) ==> r.Done?)
      ensures pg.s.squatted == {} ==> old(pg.s.squatted) == {}
    {
      hide Noted, CountersOf, Tracked, Moves, Consistent, SafeDrops, Chain, Tallied, StateOf, Size, Keeps, Beside,
           Coherent, Present, Robust, Oracle.Decisive, AllExplained, Books, CloneStore.CloneStore.Valid,
           Oracle.Oracle.Valid, Recalled;
      after := data;
      RobustAt(world, probes, data, table, rows);
      var deletion := Prune(candidate, table, rows, v, data);
      if deletion.Done? && deletion.value.Left? { RobustAt(world, probes, deletion.value.data, table, rows); }
      if pg.s.squatted == {} { KeptSquatting(v, store.View()); }
      match deletion {
        case Passed(e) => return Passed(e), false, after;
        case KeyError => return KeyError, false, after;
        case Done(d) =>
          r, promoted := Decide(candidate, table, rows, d, v, Abstract(data, oracle.expected));
          after := if r == Done(true) then d.data else data;
      }
    }

    /** `confirm_initial_state`: ask the oracle about disposable clones of the accepted database. */
    method ConfirmInitialState() returns (r: Result<bool>)
      requires Valid()
      modifies this`base, this`start, store, oracle, pg, pg.control
      ensures Valid() && (r.Returned? ==> store.owned == old(store.owned) && store.unproven == old(store.unproven))
      ensures log == old(log) && current == old(current) && (Undisturbed() ==> old(Undisturbed()))
      ensures r.Returned? && Undisturbed() && Deterministic(world) ==>
        && Store().data == old(Store()).data
        && Reproduced(world.cfg, old(oracle.expected), world.behaviour(0, Store().data)) == Some(r.value)
        && (r.value ==> Failing())
    {
      hide Sound, Reproduced, Deterministic, Linked;
      r := AskAccepted();
      base, start := |log|, Store();
      LinkedNothing(log, start);
    }

    /** Ask the oracle about clones of the accepted database. */
    method AskAccepted() returns (r: Result<bool>)
      requires Sound()
      modifies store, oracle, pg, pg.control
      ensures Sound() && (r.Returned? ==> store.owned == old(store.owned) && store.unproven == old(store.unproven))
      ensures Undisturbed() ==> old(Undisturbed())
      ensures r.Returned? && Undisturbed() && Deterministic(world) ==>
        && Store().data == old(Store()).data
        && Reproduced(world.cfg, old(oracle.expected), world.behaviour(0, Store().data)) == Some(r.value)
        && (r.value ==> Failing())
    {
      hide CountersOf, AllExplained, Tracked, Moves, Consistent, SafeDrops, SameContent, Classify, Deterministic,
           Oracle.Worked, Oracle.Follows, Keeps, Chain, Tallied, StateOf, Oracle.Consulted, Oracle.Decides,
           Oracle.Steady, Oracle.InOrder, Oracle.Oracle.Valid, Recalled;
      ghost var s, v, data := oracle.Now(), store.View(), Store().data;
      r := oracle.Fails(Oracle.InClone(store, acceptedDb));
      Oracle.SourceStays(v, store.View(), acceptedDb, r.Returned?);
      SyncedStays(v, store.View(), acceptedDb, data);
      Oracle.FollowsMeans(s, oracle.Now());
      if Undisturbed() { ExplainedStill(world, s.calls, oracle.calls, log); }
      if r.Returned? {
        RestoredMeans(v, store.View());
        if Undisturbed() && Deterministic(world) {
          SteadyWorld(world, data);
          Oracle.DecidesMeans(world.cfg, s, oracle.Now(), world.behaviour(0, data), r.value);
          if r.value { LockedDecides(world.cfg, s.expected, world.behaviour(0, data)); }
        }
      }
    }

    /** The accepted content reproduces the expected failure. */
    ghost predicate Failing()
      reads this, pg, oracle
    {
      Reproduced(world.cfg, oracle.expected, world.behaviour(0, Store().data)) == Some(true)
    }

    /** A run of attempts, as far as it gets without an exception: to its end where nothing goes
        wrong and every request asks for rows that are there. */
    method AttemptAll(requests: seq<Request>) returns (answers: seq<bool>, complete: bool)
      requires Valid() && forall i :: 0 <= i < |requests| ==> requests[i].0 in world.tables
      modifies this, store, oracle, pg, pg.control
      ensures complete ==> Valid() && |answers| == |requests| && store.unproven == old(store.unproven)
      ensures complete && true !in answers ==> store.owned == old(store.owned)
      ensures complete ==> |store.owned| == |old(store.owned)|
      ensures complete && Undisturbed() && Deterministic(world) ==>
        RunOf(world, old(Store()), requests) == Some((answers, Store()))
      ensures old(Smooth()) && old(Undisturbed()) && Deterministic(world) && PresentAlong(world, old(Store()), requests) ==>
        complete && Undisturbed()
    {
      hide Noted, Sound, Linked, Tracked, Moves, Consistent, SafeDrops, Chain, Tallied, StateOf, Deterministic,
           Step, Classify, Robust, Present, PresentAlong, PresentIn, RunOf, CloneStore.CloneStore.Valid,
           Oracle.Oracle.Valid, Recalled;
      ghost var a := Store();
      ghost var fine := Smooth() && Undisturbed() && Deterministic(world) && PresentAlong(world, a, requests);
      answers := [];
      RunNothing(world, a, requests);
      StateKeys();
      for i := 0 to |requests|
        invariant Valid() && |answers| == i && store.unproven == old(store.unproven) && current.Keys == world.tables
        invariant acceptedDb.name in store.owned
        invariant true !in answers ==> store.owned == old(store.owned)
        invariant |store.owned| == |old(store.owned)|
        invariant Undisturbed() && Deterministic(world) ==> RunOf(world, a, requests[..i]) == Some((answers, Store()))
        invariant fine ==> Smooth() && Undisturbed()
      {
        ghost var b, owned, replaced, before := Store(), store.owned, acceptedDb, answers;
        if fine { PresentNow(a, requests, i, answers); }
        var r := Attempt(requests[i].0, requests[i].1);
        if fine { CalmUntaken(); }
        if !r.Done? {
          return answers, false;
        }
        if Undisturbed() && Deterministic(world) { RunNext(world, a, requests, i, answers, b, r.value, Store()); }
        if r.value { SwapSize(owned, acceptedDb.name, acceptedDb, replaced.name); }
        answers := answers + [r.value];
        assert answers[|before|] == r.value && forall x :: x in before ==> x in answers;
        StateKeys();
      }
      assert requests[..|requests|] == requests;
      complete := true;
    }

    lemma CalmUntaken()
      requires Wired()
      ensures pg.calm ==> pg.s.squatted == {}
    {
      hide Tracked, Consistent, SafeDrops, Oracle.Oracle.Valid, Recalled;
    }

    lemma StateKeys()
      requires Sound()
      ensures current.Keys == world.tables && acceptedDb.name in store.owned
    {
      hide Wired, Kept, StateOf, CountersOf;
    }

    lemma PresentNow(a: Abstract, requests: seq<Request>, i: nat, answers: seq<bool>)
      requires Sound() && Undisturbed() && PresentAlong(world, a, requests) && i < |requests|
      requires RunOf(world, a, requests[..i]) == Some((answers, Store()))
      ensures Present(current, requests[i].0, requests[i].1)
    {
      hide Wired, Kept, StateOf, CountersOf, Present, RunOf, PresentAlong;
      PresentAt(world, a, requests, i);
    }
  }

  lemma WaitedBeside(v: View, w: View, x: View, candidate: OwnedDatabase, data: Content)
    requires Beside(v, w, candidate) && WaitsOnly(w, x)
    requires Consistent(w.s) && Tracked(StoreClient, w.owned, w.unproven, w.s)
    requires w.s.squatted == {} ==> Shows(w.s, candidate, data)
    ensures Beside(v, x, candidate)
    ensures x.s.squatted == {} ==> Shows(x.s, candidate, data) && w.s.squatted == {}
  {
    hide Moves, SameContent, Keeps, Consistent, Tracked;
    WaitingKeeps(w, x);
    BesideStays(v, w, x, candidate);
    ShowsStill(w, x, candidate, data);
  }

  lemma FrozenBeside(v: View, w: View, x: View, candidate: OwnedDatabase, data: Content)
    requires Beside(v, w, candidate) && WaitsOnly(w, x.(frozen := w.frozen)) && w.frozen <= x.frozen
    requires Consistent(w.s) && Tracked(StoreClient, w.owned, w.unproven, w.s)
    requires w.s.squatted == {} ==> Shows(w.s, candidate, data)
    ensures Beside(v, x, candidate)
    ensures x.s.squatted == {} ==> Shows(x.s, candidate, data) && w.s.squatted == {}
  {
    hide Moves, SameContent, Keeps, Consistent, Tracked;
    FreezingKeeps(w, x);
    BesideStays(v, w, x, candidate);
    ShowsStill(w, x, candidate, data);
  }

  lemma WorkedBeside(v: View, w: View, x: View, candidate: OwnedDatabase, data: Content, settled: bool)
    requires Beside(v, w, candidate) && Oracle.Worked(true, w, x, settled)
    requires Consistent(w.s) && Tracked(StoreClient, w.owned, w.unproven, w.s)
    requires w.s.squatted == {} ==> Shows(w.s, candidate, data)
    ensures Keeps(v, x) && candidate.name in x.owned && x.owned[candidate.name] == candidate
    ensures settled ==> Beside(v, x, candidate) && x.frozen == w.frozen
    ensures w.frozen <= x.frozen && forall n :: n in w.owned ==> n in x.owned && x.owned[n] == w.owned[n]
    ensures x.s.squatted == {} ==> Shows(x.s, candidate, data) && w.s.squatted == {}
  {
    Oracle.SourceStays(w, x, candidate, settled);
    KeepsTransitive(v, w, x);
    ShowsStill(w, x, candidate, data);
    hide Moves, SameContent, Keeps, Consistent, Tracked;
  }

  lemma PausedWaits(v: View, w: View, raised: bool)
    requires Moves(v.s, w.s, None) && SameContent(v.s, w.s)
    requires w == v.(s := w.s, control := w.control) && Signals(v.control, w.control, raised)
    ensures WaitsOnly(v, w)
  {
    hide Moves, SameContent;
  }

  lemma ReplacedDropped(v: View, w: View, x: View, replaced: OwnedDatabase, candidate: OwnedDatabase, data: Content)
    requires Beside(v, w, candidate) && DropsAtMost(StoreClient, w, x, replaced)
    requires replaced.name in v.owned && Consistent(w.s) && Tracked(StoreClient, w.owned, w.unproven, w.s)
    requires w.s.squatted == {} ==> Shows(w.s, candidate, data)
    ensures candidate.name in x.owned && x.owned[candidate.name] == candidate && x.unproven == v.unproven
    ensures x.frozen == w.frozen && (candidate.oid in w.s.content)
    ensures x.s.squatted == {} ==> Shows(x.s, candidate, data) && w.s.squatted == {}
    ensures x.owned == w.owned - {replaced.name} ==> x.owned == v.owned[candidate.name := candidate] - {replaced.name}
  {
    RecordedFacts(StoreClient, w.owned, w.unproven, w.s, candidate.name);
    RecordedHasContent(StoreClient, w.owned, w.unproven, w.s, candidate.name);
    if x.s.squatted == {} { SquattingGrows(w.s, x.s, Some(StoreClient)); }
    hide Moves, Keeps, Consistent, Tracked, DropsOnly;
  }

  lemma KeepsSquatting(v: View, w: View, candidate: OwnedDatabase)
    requires Beside(v, w, candidate) && w.s.squatted == {}
    ensures v.s.squatted == {}
  {
    SquattingGrows(v.s, w.s, Some(StoreClient));
    hide Moves;
  }

  lemma KeptSquatting(v: View, w: View)
    requires Keeps(v, w) && w.s.squatted == {}
    ensures v.s.squatted == {}
  {
    SquattingGrows(v.s, w.s, Some(StoreClient));
    hide Moves;
  }

  /** The accepted database stays recorded, frozen and as it was. */
  lemma SyncedStays(v: View, w: View, db: OwnedDatabase, data: Content)
    requires Keeps(v, w) && Consistent(v.s) && Tracked(StoreClient, v.owned, v.unproven, v.s)
    requires db.name in v.owned && v.owned[db.name] == db
    ensures db.name in w.owned && w.owned[db.name] == db && v.frozen <= w.frozen
    requires v.s.squatted == {} ==> Shows(v.s, db, data)
    ensures w.s.squatted == {} ==> v.s.squatted == {} && Shows(w.s, db, data)
  {
    if w.s.squatted == {} {
      KeptSquatting(v, w);
      Oracle.SourceKept(v, w, db);
    }
    hide Moves, Consistent, Tracked;
  }

  lemma RestoredMeans(v: View, w: View)
    requires Oracle.Worked(true, v, w, true)
    ensures w.owned == v.owned && w.unproven == v.unproven && w.frozen == v.frozen
  {
    hide Keeps;
  }

  lemma SwapSize(owned: map<Name, OwnedDatabase>, n: Name, db: OwnedDatabase, gone: Name)
    requires n !in owned && gone in owned
    ensures |owned[n := db] - {gone}| == |owned|
  {
    SizeWithout(owned[n := db], gone);
    assert owned[n := db].Keys == owned.Keys + {n};
  }

  /** `create_initial`: a database restored from the snapshot, read and frozen - what the
      backend starts on. */
  method CreateInitial(store: CloneStore.CloneStore, tables: set<TableKey>, snapshot: Content)
    returns (r: Result<(OwnedDatabase, State)>)
    requires store.Valid()
    modifies store, store.pg, store.pg.control
    ensures store.Valid()
    ensures r.Returned? ==>
      && r.value.0.name in store.owned && store.owned[r.value.0.name] == r.value.0 && r.value.0.oid in store.frozen
      && r.value.1.Keys == tables
      && (store.pg.s.squatted == {} ==> Shows(store.pg.s, r.value.0, snapshot) && Reads(tables, snapshot, r.value.1))
  {
    hide Tracked, Moves, Consistent, SafeDrops, SameContent, Keeps, WaitsOnly, WritesOnly, CreatesOnly, StateOf;
    var made := store.Create(None);
    if made.Raised? {
      return Raised(made.e);
    }
    ghost var u := store.View();
    var restored := store.WriteInto(made.value, snapshot);
    WrittenRecorded(u, store.View(), made.value);
    if restored.Raised? {
      return Raised(restored.e);
    }
    ghost var w := store.View();
    var content := store.ReadFrom(made.value);
    WaitingKeeps(w, store.View());
    StillRecorded(w, store.View(), made.value);
    ShowsStill(w, store.View(), made.value, snapshot);
    if content.Raised? {
      return Raised(content.e);
    }
    var state := ReadRows(tables, content.value);
    if state.Raised? {
      return Raised(state.e);
    }
    w := store.View();
    var frozen := store.Freeze(made.value);
    FreezingKeeps(w, store.View());
    StillRecorded(w, store.View(), made.value);
    ShowsStill(w, store.View(), made.value, snapshot);
    if frozen.Raised? {
      return Raised(frozen.e);
    }
    r := Returned((made.value, state.value));
  }

  lemma WrittenRecorded(v: View, w: View, db: OwnedDatabase)
    requires WritesOnly(v, w, db.name) && db.name in v.owned && v.owned[db.name] == db
    ensures db.name in w.owned && w.owned[db.name] == db
  {
    hide Moves, HoldsOn;
  }

  lemma StillRecorded(v: View, w: View, db: OwnedDatabase)
    requires Keeps(v, w) && db.name in v.owned && v.owned[db.name] == db
    ensures db.name in w.owned && w.owned[db.name] == db
  {
    hide Moves, HoldsOn;
  }
}
