/** The dump-and-restore backend (postgres/backend.py, `PostgresBackend`). */
module SnapshotBackend {
  import opened Wrappers
  import opened Ordering
  import opened Schema
  import opened Server
  import opened Cancellation
  import opened Cluster
  import opened Tracking
  import opened States
  import opened Verdicts
  import opened Steps
  import Workspace
  import Oracle
  import Caching

  class PostgresBackend {
    const pg: Postgres
    const workspace: Workspace.Workspace
    const oracle: Oracle.Oracle
    const cache: Caching.Cache<Digest>
    const world: World
    ghost const initial: State
    ghost const missedBefore: nat
    var snapshot: Content  // the accepted archive
    var current: State
    var outcomes: map<Outcome, nat>
    var probes: nat
    var accepted: nat
    var constraintRejections: nat
    var raiseRejections: nat
    ghost var log: seq<Probe>
    ghost var grounds: map<Digest, Ground>
    /** The accepted content and identity that the probes from number `base` on lead on from. */
    ghost var base: nat
    ghost var start: Abstract

    ghost predicate Wired()
      reads workspace, oracle, pg, pg.control
    {
      && workspace.pg == pg && oracle.pg == pg
      && workspace.Valid() && oracle.Valid()
      && oracle.cfg == world.cfg && oracle.behaviour == world.behaviour
    }

    /** The accepted archive holds the current state. */
    ghost predicate Synced()
      reads this`snapshot, this`current, pg
    {
      && current.Keys == world.tables
      && (pg.s.squatted == {} ==> Reads(world.tables, snapshot, current))
    }

    ghost predicate Books()
      reads this`log, this`current, this`outcomes, this`grounds, cache
    {
      && cache.Valid()
      && Chain(log, initial, current) && Tallied(log, outcomes)
      && Grounded(world.digest, cache.results, grounds, outcomes)
    }

    /** Nobody took a name and every execution reached its database. */
    ghost predicate Undisturbed()
      reads pg, oracle
    {
      pg.s.squatted == {} && oracle.missed == missedBefore
    }

    /** Nothing goes wrong on the server or in the world, and the workspace is as it should be. */
    ghost predicate Smooth()
      reads workspace, pg, pg.control
    {
      workspace.pg == pg && pg.Peaceful() && workspace.Healthy() && Robust(world)
    }

    ghost predicate Trusted()
      reads this`grounds, pg, oracle, cache
    {
      Undisturbed() && Deterministic(world) ==> Faithful(world, cache.results, grounds, oracle.expected)
    }

    /** Why each probe was answered as it was. */
    ghost predicate Reasoned()
      reads this`log, this`grounds, pg, oracle, cache
    {
      Undisturbed() ==> AllExplained(world, oracle.calls, log) && Backed(oracle.calls, cache.results, grounds)
    }

    ghost predicate Sound()
      reads this`snapshot, this`current, this`log, this`grounds
      reads this`accepted, this`constraintRejections, this`raiseRejections, this`outcomes
      reads workspace, oracle, cache, pg, pg.control
    {
      && Wired() && Synced() && Books() && Trusted() && Reasoned() && missedBefore <= oracle.missed
      && Score() == CountersOf(log)
    }

    ghost predicate Valid()
      reads this, workspace, oracle, cache, pg, pg.control
    {
      Sound() && base <= |log| && (Undisturbed() ==> Linked(log[base..], start, Store()))
    }

    ghost function Score(): Counters
      reads this`accepted, this`constraintRejections, this`raiseRejections, this`outcomes
    {
      Counters(accepted, constraintRejections, raiseRejections, outcomes)
    }

    ghost function Now(): Moment
      reads this, oracle
    {
      Moment(log, current, Store(), probes, oracle.executions, oracle.lastOutcome)
    }

    ghost function Store(): Abstract
      reads this, oracle
    {
      Abstract(snapshot, oracle.expected)
    }

    /** On a workspace just restored from `snapshot`, with an empty cache; `state` is what
        reading the workspace gave. */
    constructor (workspace: Workspace.Workspace, oracle: Oracle.Oracle, cache: Caching.Cache<Digest>,
                 world: World, snapshot: Content, state: State)
      requires workspace.Valid() && oracle.pg == workspace.pg && oracle.Valid()
      requires oracle.cfg == world.cfg && oracle.behaviour == world.behaviour
      requires cache.Valid() && cache.results == map[]
      requires state.Keys == world.tables && (workspace.pg.s.squatted == {} ==> Reads(world.tables, snapshot, state))
      ensures Valid() && this.workspace == workspace && this.oracle == oracle && this.cache == cache
      ensures this.pg == workspace.pg && this.world == world && this.snapshot == snapshot && this.current == state
      ensures initial == state && missedBefore == oracle.missed && log == [] && probes == 0
    {
      hide Tracked, Consistent, SafeDrops, StateOf, Recalled;
      pg, this.workspace, this.oracle, this.cache, this.world := workspace.pg, workspace, oracle, cache, world;
      initial, missedBefore, this.snapshot, current := state, oracle.missed, snapshot, state;
      base, start := 0, Abstract(snapshot, oracle.expected);
      outcomes, probes, accepted, constraintRejections, raiseRejections := map[], 0, 0, 0, 0;
      log, grounds := [], map[];
    }

    // ---- the pieces of an attempt ----

    /** `workspace.reset(archive)` */
    method Restore(archive: Content) returns (r: Result<()>)
      requires workspace.pg == pg && workspace.Valid()
      modifies workspace, pg, pg.control
      ensures workspace.Valid() && (pg.s.squatted == {} ==> old(pg.s.squatted) == {})
      ensures r.Returned? ==> workspace.created && (pg.s.squatted == {} ==> workspace.Holds(archive))
      ensures old(pg.Peaceful()) && old(workspace.Healthy()) ==> pg.Peaceful() && workspace.Alive() && r.Returned?
    {
      hide Tracked, Moves, Consistent, SafeDrops, SameContent, Recalled;
      ghost var w := pg.s;
      r := workspace.Reset(Workspace.Restores(archive));
      if pg.s.squatted == {} { SquattingGrows(w, pg.s, Some(WorkspaceClient)); }
    }

    /** Dump or read the whole workspace; `data` is what it holds. */
    method Dump(ghost data: Content) returns (r: Result<Content>)
      requires workspace.pg == pg && workspace.Valid() && workspace.created
      requires pg.s.squatted == {} ==> workspace.Holds(data)
      modifies workspace, pg, pg.control
      ensures workspace.Valid() && workspace.created && (pg.s.squatted == {} ==> old(pg.s.squatted) == {})
      ensures pg.s.squatted == {} ==> workspace.Holds(data)
      ensures r.Returned? && pg.s.squatted == {} ==> r.value == data
      ensures old(pg.Peaceful()) && old(workspace.Alive()) ==> pg.Peaceful() && workspace.Alive() && r.Returned?
    {
      hide Tracked, Moves, Consistent, SafeDrops, SameContent, Recalled;
      ghost var w := pg.s;
      r := workspace.Read();
      if pg.s.squatted == {} { SquattingGrows(w, pg.s, None); }
    }

    /** Restore the accepted archive and delete the rows with everything that refers to them. */
    method Candidate(table: TableKey, rows: seq<RowKey>) returns (r: Try<Deletion>)
      requires workspace.pg == pg && workspace.Valid()
      modifies workspace, pg, pg.control
      ensures workspace.Valid() && (pg.s.squatted == {} ==> old(pg.s.squatted) == {})
      ensures r.Done? ==> !r.value.Broke? && workspace.created
      ensures r.Done? && pg.s.squatted == {} ==>
        && world.tables <= snapshot.rows.Keys && Present(StateOf(world.tables, snapshot), table, rows)
        && r.value == world.deletion(probes, snapshot, table, rows)
        && (r.value.Left? ==> workspace.Holds(r.value.data))
      ensures r.KeyError? && pg.s.squatted == {} ==>
        world.tables <= snapshot.rows.Keys && !Present(StateOf(world.tables, snapshot), table, rows)
      ensures old(pg.Peaceful()) && old(workspace.Healthy()) ==>
        && pg.Peaceful() && workspace.Healthy() && (r.Done? ==> workspace.Alive())
        && (pg.s.squatted == {} && world.tables <= snapshot.rows.Keys
            && !world.deletion(probes, snapshot, table, rows).Broke? ==>
             Present(StateOf(world.tables, snapshot), table, rows) ==> r.Done?)
    {
      hide Tracked, Moves, Consistent, SafeDrops, SameContent, StateOf, Present, Recalled;
      var restored := Restore(snapshot);
      if restored.Raised? {
        return Passed(restored.e);
      }
      var content := Dump(snapshot);
      if content.Raised? {
        return Passed(content.e);
      }
      var state := ReadRows(world.tables, content.value);
      if state.Raised? {
        return Passed(state.e);
      }
      if !Present(state.value, table, rows) {
        return KeyError;
      }
      var deletion := world.deletion(probes, content.value, table, rows);
      if deletion.Broke? {
        return Passed(Psycopg(deletion.fault));
      }
      if deletion.Left? {
        var left := Write(deletion.data);
        if left.Raised? {
          return Passed(left.e);
        }
      }
      r := Done(deletion);
    }

    method Write(data: Content) returns (r: Result<()>)
      requires workspace.pg == pg && workspace.Valid() && workspace.created
      modifies workspace, pg, pg.control
      ensures workspace.Valid() && workspace.created && (pg.s.squatted == {} ==> old(pg.s.squatted) == {})
      ensures r.Returned? && pg.s.squatted == {} ==> workspace.Holds(data)
      ensures old(pg.Peaceful()) && old(workspace.Alive()) ==> pg.Peaceful() && workspace.Alive() && r.Returned?
    {
      hide Tracked, Moves, Consistent, SafeDrops, SameContent, Recalled;
      ghost var w := pg.s;
      r := workspace.Overwrite(data);
      if pg.s.squatted == {} { SquattingGrows(w, pg.s, Some(WorkspaceClient)); }
    }

    /** Dump the candidate, restore the dump, and read its rows. */
    method Reconstruct(ghost left: Content) returns (r: Result<(Content, State)>)
      requires workspace.pg == pg && workspace.Valid() && workspace.created
      requires pg.s.squatted == {} ==> workspace.Holds(left)
      modifies workspace, pg, pg.control
      ensures workspace.Valid() && (pg.s.squatted == {} ==> old(pg.s.squatted) == {})
      ensures r.Returned? ==> workspace.created && r.value.1.Keys == world.tables
      ensures r.Returned? && pg.s.squatted == {} ==>
        r.value.0 == left && workspace.Holds(left) && Reads(world.tables, left, r.value.1)
      ensures old(pg.Peaceful()) && old(workspace.Alive()) ==>
        && pg.Peaceful() && workspace.Alive()
        && (pg.s.squatted == {} && world.tables <= left.rows.Keys ==> r.Returned?)
    {
      hide Tracked, Moves, Consistent, SafeDrops, SameContent, StateOf, Recalled;
      var dumped := Dump(left);
      if dumped.Raised? {
        return Raised(dumped.e);
      }
      var restored := Restore(dumped.value);
      if restored.Raised? {
        return Raised(restored.e);
      }
      var content := Dump(dumped.value);
      if content.Raised? {
        return Raised(content.e);
      }
      var state := ReadRows(world.tables, content.value);
      if state.Raised? {
        return Raised(state.e);
      }
      r := Returned((dumped.value, state.value));
    }

    // ---- the verdict ----

    /** Look the candidate up in the cache; ask the oracle only if it is not there. The answer
        rests on the outcome `ground` of an execution on `judged`. */
    method Consult(data: Content)
      returns (r: Result<bool>, ghost cached: bool, ghost judged: Content, ghost ground: Outcome)
      requires Wired() && Books() && Trusted() && Reasoned() && missedBefore <= oracle.missed && workspace.created
      requires pg.s.squatted == {} ==> workspace.Holds(data)
      modifies this`outcomes, this`grounds, workspace, oracle, cache, pg, pg.control
      ensures Wired() && Books() && Trusted() && Reasoned() && missedBefore <= oracle.missed
      ensures Undisturbed() ==> old(Undisturbed())
      ensures pg.s.squatted == {} ==> old(pg.s.squatted) == {}
      ensures r.Returned? ==>
        && Tally(outcomes, ground) > 0 && Score() == old(Score()).Heard(ground, cached)
        && (if r.value then ground.SameFailure? else Refusing(ground))
        && (cached <==> oracle.executions == old(oracle.executions)) && old(oracle.executions) <= oracle.executions
        && (!cached ==> oracle.lastOutcome == Some(ground))
      ensures r.Raised? ==> Score() == old(Score())
      ensures r.Returned? && Undisturbed() ==> Rests(world, oracle.calls, data, judged, ground, cached)
      ensures r.Returned? && Undisturbed() && Deterministic(world) ==>
        Told(world, old(oracle.expected), data, r.value, oracle.expected)
      ensures old(pg.Peaceful()) && old(workspace.Alive()) ==>
        && pg.Peaceful() && workspace.Healthy() && oracle.missed == old(oracle.missed)
        && (Oracle.Decisive(world.cfg, world.behaviour, data) ==> r.Returned?)
    {
      hide Tracked, Moves, Consistent, SafeDrops, SameContent, Classify, Chain, Tallied, Grounded, Faithful,
           Deterministic, AllExplained, Backed, Oracle.Ran, Recalled;
      cached, judged, ground := false, data, SameFailure;
      var printed := Dump(data);
      if printed.Raised? {
        return Raised(printed.e), false, data, SameFailure;
      }
      var key := world.digest(printed.value);
      var hit := cache.Get(key);
      if hit.Some? {
        HitGround(world.digest, cache.results, grounds, outcomes, key);
        if Undisturbed() {
          HitRan(oracle.calls, cache.results, grounds, key);
          if Deterministic(world) { HitAnswers(world, cache.results, grounds, outcomes, oracle.expected, data); }
        }
        return Returned(hit.value), true, grounds[key].0, grounds[key].1;
      }
      r, ground := Ask(data, printed.value);
    }

    method Ask(data: Content, printed: Content) returns (r: Result<bool>, ghost ground: Outcome)
      requires Wired() && Books() && Trusted() && Reasoned() && missedBefore <= oracle.missed && workspace.created
      requires pg.s.squatted == {} ==> printed == data
      modifies this`outcomes, this`grounds, workspace, oracle, cache, pg, pg.control
      ensures Wired() && Books() && Trusted() && Reasoned() && missedBefore <= oracle.missed
      ensures Undisturbed() ==> old(Undisturbed())
      ensures pg.s.squatted == {} ==> old(pg.s.squatted) == {}
      ensures r.Returned? ==>
        && Tally(outcomes, ground) > 0 && Score() == old(Score()).Heard(ground, false)
        && (if r.value then ground.SameFailure? else Refusing(ground))
        && old(oracle.executions) < oracle.executions && oracle.lastOutcome == Some(ground)
      ensures r.Raised? ==> Score() == old(Score())
      ensures r.Returned? && Undisturbed() ==> Rests(world, oracle.calls, data, data, ground, false)
      ensures r.Returned? && Undisturbed() && Deterministic(world) ==>
        Told(world, old(oracle.expected), data, r.value, oracle.expected)
      ensures old(pg.Peaceful()) && old(workspace.Alive()) ==>
        && pg.Peaceful() && workspace.Healthy() && oracle.missed == old(oracle.missed)
        && (Oracle.Decisive(world.cfg, world.behaviour, data) ==> r.Returned?)
    {
      hide Tracked, Moves, Consistent, SafeDrops, SameContent, Classify, Chain, Tallied, Grounded, Faithful,
           Deterministic, AllExplained, Backed, Oracle.Ran, Oracle.InOrder, Workspace.Workspace.Valid,
           Oracle.Oracle.Valid, Recalled;
      ghost var expected, calls := oracle.expected, oracle.calls;
      r, ground := AskOracle(data);
      if Undisturbed() {
        ExplainedStill(world, calls, oracle.calls, log);
        BackedStill(calls, oracle.calls, cache.results, grounds);
      }
      if r.Returned? {
        if Undisturbed() {
          BackedMore(oracle.calls, cache.results, grounds, world.digest(printed), r.value, printed, ground);
          if Deterministic(world) {
            FaithfulMore(world, cache.results, grounds, expected, data, r.value, ground);
          }
        }
        GroundedMore(world.digest, cache.results, grounds, outcomes, printed, ground);
        TalliedCounted(log, outcomes, ground);
        outcomes := Counted(outcomes, oracle.lastOutcome.value);
        cache.results := cache.results[world.digest(printed) := r.value];
        grounds := grounds[world.digest(printed) := (printed, ground)];
      } else if Undisturbed() && Deterministic(world) {
        FaithfulStays(world, cache.results, grounds, expected, oracle.expected);
      }
    }

    method AskOracle(data: Content) returns (r: Result<bool>, ghost ground: Outcome)
      requires Wired() && missedBefore <= oracle.missed && workspace.created
      modifies workspace, oracle, pg, pg.control
      ensures Wired() && missedBefore <= oracle.missed && old(oracle.calls) <= oracle.calls
      ensures Undisturbed() ==> old(Undisturbed())
      ensures pg.s.squatted == {} ==> old(pg.s.squatted) == {}
      ensures old(oracle.expected).Some? ==> oracle.expected == old(oracle.expected)
      ensures r.Returned? ==>
        && oracle.lastOutcome == Some(ground) && old(oracle.executions) < oracle.executions
        && (if r.value then ground.SameFailure? else Refusing(ground))
      ensures r.Returned? && Undisturbed() ==> Oracle.Ran(oracle.calls, data, ground)
      ensures r.Returned? && Undisturbed() && Deterministic(world) ==>
        Told(world, old(oracle.expected), data, r.value, oracle.expected)
      ensures old(pg.Peaceful()) && old(workspace.Alive()) ==>
        && pg.Peaceful() && workspace.Healthy() && oracle.missed == old(oracle.missed)
        && (Oracle.Decisive(world.cfg, world.behaviour, data) ==> r.Returned?)
    {
      hide Tracked, Moves, Consistent, SafeDrops, SameContent, Classify, Deterministic, Oracle.Ran, Oracle.Worked,
           Oracle.Follows, Oracle.Consulted, Oracle.Decides, Oracle.Steady, Oracle.InOrder,
           Workspace.Workspace.Valid, Oracle.Oracle.Valid, Recalled;
      ghost var s, v := oracle.Now(), workspace.View();
      r := oracle.Fails(Oracle.InWorkspace(workspace, Workspace.Restores(data)));
      Oracle.WorkspaceWorked(v, workspace.View(), r.Returned?);
      if pg.s.squatted == {} { SquattingGrows(v.s, pg.s, Some(WorkspaceClient)); }
      Oracle.FollowsMeans(s, oracle.Now());
      CalmUntaken();
      ground := SameFailure;
      if r.Returned? {
        Oracle.ConsultedOutcome(s, oracle.Now(), oracle.confirm, r.value);
        ground := oracle.lastOutcome.value;
        if Undisturbed() && Deterministic(world) {
          SteadyWorld(world, data);
          Oracle.DecidesMeans(world.cfg, s, oracle.Now(), world.behaviour(0, data), r.value);
        }
      }
    }

    lemma CalmUntaken()
      requires Wired()
      ensures pg.calm ==> pg.s.squatted == {}
    {
      hide Tracked, Consistent, SafeDrops, Oracle.Oracle.Valid, Recalled;
    }

    // ---- promotion and refusal ----

    /** Write the probe down. */
    ghost method Note(p: Probe)
      requires Books() && Reasoned() && Coherent(p) && p.before == current
      requires p.answer.OracleRefused? ==> Tally(outcomes, p.answer.outcome) > 0
      requires Undisturbed() ==> Explained(world, oracle.calls, p)
      modifies this`log
      ensures log == old(log) + [p] && Chain(log, initial, p.after) && Tallied(log, outcomes) && Reasoned()
      ensures CountersOf(log) == CountersOf(old(log)).Plus(p.answer)
    {
      hide Coherent, Chain, Grounded, Explained, AllExplained, Backed;
      ChainSnoc(log, initial, p);
      CountersSnoc(log, p);
      TalliedMore(log, outcomes, p, None);
      if Undisturbed() { ExplainedMore(world, oracle.calls, log, p); }
      log := log + [p];
    }

    /** The deletion asked for gave `d`. */
    ghost predicate Deleted(table: TableKey, rows: seq<RowKey>, d: Deletion)
      reads this, pg
    {
      pg.s.squatted == {} ==> Present(current, table, rows) && world.deletion(probes, snapshot, table, rows) == d
    }

    /** The candidate becomes the accepted archive, then the current state. */
    method Promote(table: TableKey, rows: seq<RowKey>, data: Content, state: State, ghost p: Probe)
      returns (r: Try<bool>)
      requires Wired() && Books() && Trusted() && Reasoned() && missedBefore <= oracle.missed
      requires table in current && current.Keys == world.tables == state.Keys && Size(state) < Size(current)
      requires pg.s.squatted == {} ==> Reads(world.tables, data, state)
      requires p.answer.Accepted? && Score() == CountersOf(log).Heard(SameFailure, p.answer.cached)
      requires p == Probe(probes, p.store, current, table, rows, state, Abstract(data, oracle.expected), p.answer)
      requires Undisturbed() ==> Explained(world, oracle.calls, p)
      modifies this`accepted, this`snapshot, this`current, this`log,
               pg, pg.control
      ensures Wired() && Books()
      ensures r == Done(true) || r == Passed(Cancelled)
      ensures r == Done(true) ==> Sound() && snapshot == data && current == state && log == old(log) + [p]
      ensures r != Done(true) ==> log == old(log)
      ensures pg.s.squatted == {} ==> old(pg.s.squatted) == {}
      ensures old(pg.Peaceful()) ==> pg.Peaceful() && r.Done? && pg.s == old(pg.s)
    {
      hide CountersOf, Tracked, Moves, Consistent, SafeDrops, Chain, Tallied, Grounded, Trusted, StateOf, Size,
           Explained, AllExplained, Backed, Reads, Present, Signals, Told, Rests, Oracle.InOrder,
           Workspace.Workspace.Valid, Oracle.Oracle.Valid, Recalled, Wired, Reasoned, Undisturbed, Books;
      accepted := accepted + 1;
      var raised := Between();
      if raised {
        return Passed(Cancelled);
      }
      snapshot := data;
      raised := Between();
      if raised {
        return Passed(Cancelled);
      }
      Adopt(state, p);
      r := Done(true);
    }

    /** The candidate's rows are the current state now. */
    method Adopt(state: State, ghost p: Probe)
      requires Books() && Reasoned() && p.before == current && p.after == state && p.answer.Accepted?
      requires p.table in current && state.Keys == current.Keys && Size(state) < Size(current)
      requires var c := CountersOf(log).Heard(SameFailure, p.answer.cached); Score() == c.(accepted := c.accepted + 1)
      requires Undisturbed() ==> Explained(world, oracle.calls, p)
      modifies this`current, this`log
      ensures Books() && Reasoned() && current == state && log == old(log) + [p] && Score() == CountersOf(log)
    {
      hide CountersOf, Chain, Tallied, Size, Explained, AllExplained, Grounded, Backed;
      Note(p);
      current := state;
    }

    /** Between two assignments a signal can come. */
    method Between() returns (raised: bool)
      requires Wired() && Trusted() && Reasoned()
      modifies pg, pg.control
      ensures Wired() && Trusted() && Reasoned()
      ensures pg.s.squatted == {} ==> old(pg.s.squatted) == {}
      ensures Undisturbed() ==> old(Undisturbed())
      ensures old(pg.Peaceful()) ==> pg.Peaceful() && !raised && pg.s == old(pg.s)
    {
      hide Tracked, Moves, Consistent, SafeDrops, SameContent, Faithful, Deterministic, AllExplained, Backed,
           Workspace.Workspace.Valid, Oracle.Oracle.Valid, Recalled;
      ghost var w := pg.s;
      raised := workspace.Pause();
      if pg.s.squatted == {} { SquattingGrows(w, pg.s, None); }
    }

    /** From the deletion on: reconstruct, compare, ask, promote. */
    method Verdict(table: TableKey, rows: seq<RowKey>, ghost left: Content) returns (r: Try<bool>)
      requires Sound() && table in current && workspace.created
      requires Deleted(table, rows, Left(left)) && (pg.s.squatted == {} ==> workspace.Holds(left))
      modifies this`accepted, this`snapshot, this`current, this`log, this`outcomes, this`grounds,
               workspace, oracle, cache, pg, pg.control
      ensures r != Passed(Cancelled) ==> Sound()
      ensures Wired() && Books() && !r.KeyError?
      ensures Undisturbed() ==> old(Undisturbed())
      ensures r.Done? ==> Noted(old(Now()), Now(), table, rows, r.value)
      ensures !r.Done? ==> log == old(log)
      ensures old(pg.Peaceful()) && old(workspace.Alive()) ==>
        && pg.Peaceful() && workspace.Healthy() && oracle.missed == old(oracle.missed)
        && (world.tables <= left.rows.Keys && Oracle.Decisive(world.cfg, world.behaviour, left) ==> r.Done?)
      ensures pg.s.squatted == {} ==> old(pg.s.squatted) == {}
    {
      hide CountersOf, Tracked, Moves, Consistent, SafeDrops, SameContent, Classify, Chain, Tallied, Grounded,
           Faithful, Deterministic, StateOf, Size, Coherent, Noted, AllExplained, Backed, Present, Oracle.InOrder,
           Workspace.Workspace.Valid, Oracle.Oracle.Valid, Recalled;
      var rebuilt := Reconstruct(left);
      CalmUntaken();
      if rebuilt.Raised? {
        return Passed(rebuilt.e);
      }
      r := Weigh(table, rows, rebuilt.value.0, rebuilt.value.1);
    }

    /** Compare, ask, promote. */
    method Weigh(table: TableKey, rows: seq<RowKey>, data: Content, state: State) returns (r: Try<bool>)
      requires Sound() && table in current && workspace.created && state.Keys == world.tables
      requires Deleted(table, rows, Left(data))
      requires pg.s.squatted == {} ==> workspace.Holds(data) && Reads(world.tables, data, state)
      modifies this`accepted, this`snapshot, this`current, this`log, this`outcomes, this`grounds,
               workspace, oracle, cache, pg, pg.control
      ensures r != Passed(Cancelled) ==> Sound()
      ensures Wired() && Books() && !r.KeyError?
      ensures Undisturbed() ==> old(Undisturbed())
      ensures r.Done? ==> Noted(old(Now()), Now(), table, rows, r.value)
      ensures !r.Done? ==> log == old(log)
      ensures old(pg.Peaceful()) && old(workspace.Alive()) ==>
        && pg.Peaceful() && workspace.Healthy() && oracle.missed == old(oracle.missed)
        && (Oracle.Decisive(world.cfg, world.behaviour, data) ==> r.Done?)
      ensures pg.s.squatted == {} ==> old(pg.s.squatted) == {}
    {
      hide CountersOf, Tracked, Moves, Consistent, SafeDrops, SameContent, Classify, Chain, Tallied, Grounded,
           Faithful, Deterministic, StateOf, Size, Coherent, AllExplained, Backed, Present, Told, Oracle.Ran,
           Oracle.InOrder, Workspace.Workspace.Valid, Oracle.Oracle.Valid, Recalled;
      ghost var a := Store();
      if Size(state) >= Size(current) {
        ghost var p := Probe(probes, a, current, table, rows, current, a, NoShrink(data, state));
        VerdictRefusal(p);
        Note(p);
        return Done(false);
      }
      var answer;
      ghost var cached, judged, ground;
      answer, cached, judged, ground := Consult(data);
      if answer.Raised? {
        return Passed(answer.e);
      }
      r := Answer(answer.value, table, rows, data, state, a, judged, ground, cached);
    }

    /** Promote or refuse. */
    method Answer(answer: bool, table: TableKey, rows: seq<RowKey>, data: Content, state: State,
                  ghost a: Abstract, ghost judged: Content, ghost ground: Outcome, ghost cached: bool) returns (r: Try<bool>)
      requires Wired() && Synced() && Books() && Trusted() && Reasoned() && missedBefore <= oracle.missed
      requires Score() == CountersOf(log).Heard(ground, cached) && a.data == snapshot
      requires table in current && state.Keys == world.tables && Size(state) < Size(current)
      requires Deleted(table, rows, Left(data)) && (pg.s.squatted == {} ==> Reads(world.tables, data, state))
      requires Tally(outcomes, ground) > 0 && (if answer then ground.SameFailure? else Refusing(ground))
      requires Undisturbed() ==> Rests(world, oracle.calls, data, judged, ground, cached)
      requires Undisturbed() && Deterministic(world) ==> Told(world, a.expected, data, answer, oracle.expected)
      modifies this`accepted, this`snapshot, this`current, this`log,
               pg, pg.control
      ensures r != Passed(Cancelled) ==> Sound()
      ensures Wired() && Books() && !r.KeyError? && (pg.s.squatted == {} ==> old(pg.s.squatted) == {})
      ensures r.Done? ==> r.value == answer && snapshot == if answer then data else old(snapshot)
      ensures r.Done? ==>
        && |log| == |old(log)| + 1 && log[..|old(log)|] == old(log)
        && var p := log[|old(log)|];
           && p == Probe(probes, a, old(current), table, rows, current, Store(), p.answer)
           && (answer <==> p.answer.Accepted?) && (p.answer.Asked() <==> !cached)
           && (!cached ==> p.answer.Ground() == ground)
      ensures !r.Done? ==> log == old(log)
      ensures old(pg.Peaceful()) ==> pg.Peaceful() && r.Done? && pg.s == old(pg.s)
    {
      hide CountersOf, Tracked, Moves, Consistent, SafeDrops, Chain, Tallied, Grounded, Faithful, Deterministic,
           StateOf, Size, Coherent, AllExplained, Backed, Present, Told, Oracle.Ran, Workspace.Workspace.Valid,
           Oracle.Oracle.Valid, Recalled;
      if answer {
        ghost var p := Probe(probes, a, current, table, rows, state, Abstract(data, oracle.expected),
                             Accepted(data, judged, cached));
        r := Promote(table, rows, data, state, p);
      } else {
        ghost var p := Probe(probes, a, current, table, rows, current, Store(), OracleRefused(data, judged, ground, cached));
        if Undisturbed() { ShrinksIs(world, data, state, current); }
        VerdictRefusal(p);
        Note(p);
        r := Done(false);
      }
    }

    // ---- the attempt ----

    method Checkpoint() returns (raised: bool)
      requires Sound()
      modifies pg.control
      ensures Sound()
      ensures old(pg.Peaceful()) ==> pg.Peaceful() && !raised
    {
      hide CountersOf, Tracked, Moves, Consistent, SafeDrops, Chain, Tallied, Grounded, Faithful, Deterministic,
           StateOf, AllExplained, Backed, Oracle.InOrder, Recalled;
      raised := pg.control.CheckpointHere();
    }

    /** `attempt`: true if the candidate without these rows was accepted. Only `Cancelled`,
        delivered while a candidate is promoted, can leave the archive and the state apart. */
    method Attempt(table: TableKey, rows: seq<RowKey>) returns (r: Try<bool>)
      requires Valid() && table in current
      modifies this, workspace, oracle, cache, pg, pg.control
      ensures r != Passed(Cancelled) ==> Valid()
      ensures Wired() && Books()
      ensures Undisturbed() ==> old(Undisturbed())
      ensures r.Done? ==> Noted(old(Now()), Now(), table, rows, r.value) && base == old(base)
      ensures r.Done? ==> probes == old(probes) + 1
      ensures !r.Done? ==> log == old(log)
      ensures r.KeyError? && Present(old(current), table, rows) ==> pg.s.squatted != {}
      ensures r.Done? && Undisturbed() && Deterministic(world) ==>
        Step(world, old(Store()), table, rows) == Some((r.value, Store()))
      ensures old(pg.Peaceful()) && old(workspace.Healthy()) ==>
        && pg.Peaceful() && workspace.Healthy() && oracle.missed == old(oracle.missed)
        && (Robust(world) && Present(old(current), table, rows) ==> r.Done?)
      ensures pg.s.squatted == {} ==> old(pg.s.squatted) == {}
    {
      hide Sound, Noted, Explained, Coherent, Chain, Step, Deterministic, Tracked, Moves, Consistent, SafeDrops,
           SameContent, Robust, Oracle.Decisive, Present, Linked, Workspace.Workspace.Valid, Oracle.Oracle.Valid,
           Recalled;
      ghost var g := Now();
      r := Proceed(table, rows);
      if r.Done? {
        NotedLinks(g, Now(), table, rows, r.value, base, start, Undisturbed());
        if Undisturbed() && Deterministic(world) { LastStep(table, rows); }
      } else {
        base, start := |log|, Store();
        LinkedNothing(log, start);
      }
    }

    /** The last probe was the abstract step. */
    lemma LastStep(table: TableKey, rows: seq<RowKey>)
      requires Sound() && Undisturbed() && Deterministic(world) && log != []
      ensures var p := log[|log| - 1]; Step(world, p.store, p.table, p.rows) == Some((p.answer.Accepted?, p.next))
    {
      hide Explained, Coherent, Step, Deterministic, Tracked, Consistent, SafeDrops, Grounded, Faithful, Tallied,
           Backed, CountersOf, Workspace.Workspace.Valid, Oracle.Oracle.Valid, Recalled;
      LastCoherent(log, initial, current);
      ExplainedSteps(world, oracle.calls, log[|log| - 1]);
    }

    /** The statements of `attempt`. */
    method Proceed(table: TableKey, rows: seq<RowKey>) returns (r: Try<bool>)
      requires Sound() && table in current
      modifies this`probes, this`accepted, this`snapshot, this`current, this`log, this`outcomes, this`grounds,
               this`constraintRejections, this`raiseRejections,
               workspace, oracle, cache, pg, pg.control
      ensures r != Passed(Cancelled) ==> Sound()
      ensures Wired() && Books()
      ensures Undisturbed() ==> old(Undisturbed())
      ensures r.Done? ==> Noted(old(Now()), Now(), table, rows, r.value) && probes == old(probes) + 1
      ensures !r.Done? ==> log == old(log)
      ensures r.KeyError? && Present(old(current), table, rows) ==> pg.s.squatted != {}
      ensures old(pg.Peaceful()) && old(workspace.Healthy()) ==>
        && pg.Peaceful() && workspace.Healthy() && oracle.missed == old(oracle.missed)
        && (Robust(world) && Present(old(current), table, rows) ==> r.Done?)
      ensures pg.s.squatted == {} ==> old(pg.s.squatted) == {}
    {
      hide CountersOf, Tracked, Moves, Consistent, SafeDrops, SameContent, Classify, Chain, Tallied, Grounded,
           Faithful, Deterministic, StateOf, Size, Robust, Oracle.Decisive, Present, Coherent, AllExplained,
           Backed, Books, Score, Oracle.InOrder, Workspace.Workspace.Valid, Oracle.Oracle.Valid, Recalled;
      var raised := Checkpoint();
      if raised {
        return Passed(Cancelled);
      }
      probes := probes + 1;
      RobustAt(world, probes, snapshot, table, rows);
      var deletion := Candidate(table, rows);
      CalmUntaken();
      if deletion.Done? && deletion.value.Left? { RobustAt(world, probes, deletion.value.data, table, rows); }
      match deletion {
        case Passed(e) => return Passed(e);
        case KeyError => return KeyError;
        case Done(d) => r := Conclude(table, rows, d);
      }
    }

    /** A refused deletion, or a candidate to judge. */
    method Conclude(table: TableKey, rows: seq<RowKey>, deletion: Deletion) returns (r: Try<bool>)
      requires Sound() && table in current && !deletion.Broke? && workspace.created && Deleted(table, rows, deletion)
      requires deletion.Left? && pg.s.squatted == {} ==> workspace.Holds(deletion.data)
      modifies this`accepted, this`snapshot, this`current, this`log, this`outcomes, this`grounds,
               this`constraintRejections, this`raiseRejections,
               workspace, oracle, cache, pg, pg.control
      ensures r != Passed(Cancelled) ==> Sound()
      ensures Wired() && Books() && !r.KeyError?
      ensures Undisturbed() ==> old(Undisturbed())
      ensures r.Done? ==> Noted(old(Now()), Now(), table, rows, r.value)
      ensures !r.Done? ==> log == old(log)
      ensures old(pg.Peaceful()) && old(workspace.Alive()) ==>
        && pg.Peaceful() && workspace.Healthy() && oracle.missed == old(oracle.missed)
        && (deletion.Left? && world.tables <= deletion.data.rows.Keys ==>
             Oracle.Decisive(world.cfg, world.behaviour, deletion.data) ==> r.Done?)
      ensures !deletion.Left? ==> r.Done?
      ensures pg.s.squatted == {} ==> old(pg.s.squatted) == {}
    {
      hide CountersOf, Tracked, Moves, Consistent, SafeDrops, SameContent, Classify, Chain, Tallied, Grounded,
           Faithful, Deterministic, StateOf, Size, Coherent, AllExplained, Backed, Present, Oracle.InOrder,
           Workspace.Workspace.Valid, Oracle.Oracle.Valid, Recalled;
      ghost var a := Store();
      match deletion {
        case ConstraintViolated =>
          constraintRejections := constraintRejections + 1;
          ghost var p := Probe(probes, a, current, table, rows, current, a, ConstraintRefused);
          ServerRefusal(p);
          Note(p);
          r := Done(false);
        case RaisedByTrigger =>
          raiseRejections := raiseRejections + 1;
          ghost var p := Probe(probes, a, current, table, rows, current, a, TriggerRefused);
          ServerRefusal(p);
          Note(p);
          r := Done(false);
        case Left(data) =>
          r := Verdict(table, rows, data);
      }
    }

    /** The accepted content reproduces the expected failure. */
    ghost predicate Failing()
      reads this, oracle
    {
      Reproduced(world.cfg, oracle.expected, world.behaviour(0, snapshot)) == Some(true)
    }

    /** A run of attempts, as far as it gets without an exception: to its end where nothing goes
        wrong and every request asks for rows that are there. */
    method AttemptAll(requests: seq<Request>) returns (answers: seq<bool>, complete: bool)
      requires Valid() && forall i :: 0 <= i < |requests| ==> requests[i].0 in world.tables
      modifies this, workspace, oracle, cache, pg, pg.control
      ensures complete ==> Valid() && |answers| == |requests|
      ensures complete && Undisturbed() && Deterministic(world) ==>
        RunOf(world, old(Store()), requests) == Some((answers, Store()))
      ensures old(Smooth()) && old(Undisturbed()) && Deterministic(world) && PresentAlong(world, old(Store()), requests) ==>
        complete && Undisturbed()
    {
      hide Noted, Sound, Linked, Tracked, Moves, Consistent, SafeDrops, SameContent, Classify, Chain, Tallied,
           Grounded, Faithful, Deterministic, StateOf, Step, Robust, Present, PresentAlong, PresentIn, RunOf,
           Oracle.InOrder, Workspace.Workspace.Valid, Oracle.Oracle.Valid, Recalled;
      ghost var a := Store();
      ghost var fine := Smooth() && Undisturbed() && Deterministic(world) && PresentAlong(world, a, requests);
      answers := [];
      RunNothing(world, a, requests);
      StateKeys();
      for i := 0 to |requests|
        invariant Valid() && |answers| == i && current.Keys == world.tables
        invariant Undisturbed() && Deterministic(world) ==> RunOf(world, a, requests[..i]) == Some((answers, Store()))
        invariant fine ==> Smooth() && Undisturbed()
      {
        ghost var b := Store();
        if fine { PresentNow(a, requests, i, answers); }
        var r := Attempt(requests[i].0, requests[i].1);
        if fine { CalmUntaken(); }
        if !r.Done? {
          return answers, false;
        }
        if Undisturbed() && Deterministic(world) { RunNext(world, a, requests, i, answers, b, r.value, Store()); }
        answers := answers + [r.value];
        StateKeys();
      }
      assert requests[..|requests|] == requests;
      complete := true;
    }

    lemma StateKeys()
      requires Sound()
      ensures current.Keys == world.tables
    {
      hide Wired, Books, Trusted, Reasoned, StateOf, CountersOf;
    }

    lemma PresentNow(a: Abstract, requests: seq<Request>, i: nat, answers: seq<bool>)
      requires Sound() && Undisturbed() && PresentAlong(world, a, requests) && i < |requests|
      requires RunOf(world, a, requests[..i]) == Some((answers, Store()))
      ensures Present(current, requests[i].0, requests[i].1)
    {
      hide Wired, Books, Trusted, Reasoned, StateOf, CountersOf, Present, RunOf, PresentAlong;
      PresentAt(world, a, requests, i);
    }
  }

  /** `workspace.reset(snapshot)` and the reading in the constructor. */
  method ReadInitial(workspace: Workspace.Workspace, tables: set<TableKey>, snapshot: Content)
    returns (r: Result<State>)
    requires workspace.Valid()
    modifies workspace, workspace.pg, workspace.pg.control
    ensures workspace.Valid()
    ensures r.Returned? ==>
      r.value.Keys == tables && (workspace.pg.s.squatted == {} ==> Reads(tables, snapshot, r.value))
  {
    hide Tracked, Moves, Consistent, SafeDrops, SameContent, StateOf;
    var restored := workspace.Reset(Workspace.Restores(snapshot));
    if restored.Raised? {
      return Raised(restored.e);
    }
    ghost var w := workspace.pg.s;
    var content := workspace.Read();
    if workspace.pg.s.squatted == {} { SquattingGrows(w, workspace.pg.s, None); }
    if content.Raised? {
      return Raised(content.e);
    }
    r := ReadRows(tables, content.value);
  }
}
