/** The two backends side by side: one interface for the engine, and the proof that they give
    the same answers. */
module Backends {
  import opened Wrappers
  import opened Ordering
  import opened Schema
  import opened Server
  import opened Cancellation
  import opened Tracking
  import opened States
  import opened Verdicts
  import opened Steps
  import opened Oracle
  import S = SnapshotBackend
  import C = CloneBackend

  /** What matters of a backend between attempts. `undisturbed`: nobody took a name and every
      execution reached its database; `failing`: the accepted content reproduces the failure;
      `smooth`: nothing will go wrong, and what the backend works on is there. The probes from
      number `base` on lead on from one accepted content to the next. */
  datatype Glance = Glance(log: seq<Probe>, base: nat, state: State, store: Abstract, world: World, calls: seq<Call>,
                           undisturbed: bool, failing: bool, untaken: bool, smooth: bool)
  {
    ghost predicate Exact() {
      undisturbed && Deterministic(world)
    }
  }

  datatype Backend = Snapshot(snapshot: S.PostgresBackend) | Clone(clone: C.CloneBackend)
  {
    function Footprint(): set<object> {
      match this
      case Snapshot(p) => {p, p.workspace, p.oracle, p.cache, p.pg, p.pg.control}
      case Clone(c) => {c, c.store, c.oracle, c.pg, c.pg.control}
    }

    ghost predicate Valid()
      reads Footprint()
    {
      match this
      case Snapshot(p) => p.Valid()
      case Clone(c) => c.Valid()
    }

    function State(): State
      reads Footprint()
    {
      match this
      case Snapshot(p) => p.current
      case Clone(c) => c.current
    }

    /** `backend.outcomes` */
    function Outcomes(): map<Outcome, nat>
      reads Footprint()
    {
      match this
      case Snapshot(p) => p.outcomes
      case Clone(c) => c.outcomes
    }

    ghost function Initial(): State {
      match this
      case Snapshot(p) => p.initial
      case Clone(c) => c.initial
    }

    ghost function Look(): Glance
      reads Footprint()
    {
      match this
      case Snapshot(p) =>
        Glance(p.log, p.base, p.current, p.Store(), p.world, p.oracle.calls,
               p.Undisturbed(), p.Failing(), p.pg.s.squatted == {}, p.Smooth())
      case Clone(c) =>
        Glance(c.log, c.base, c.current, c.Store(), c.world, c.oracle.calls,
               c.Undisturbed(), c.Failing(), c.pg.s.squatted == {}, c.Smooth())
    }

    /** Where the probes from number `base` on start. */
    ghost function Start(): Abstract
      reads Footprint()
    {
      match this
      case Snapshot(p) => p.start
      case Clone(c) => c.start
    }
  }

  /** The log of a backend in order tells why each probe was answered as it was, and how the
      accepted content came about. */
  ghost predicate Accounted(g: Glance, start: Abstract) {
    && g.base <= |g.log|
    && (g.undisturbed ==>
         && Reads(g.world.tables, g.store.data, g.state)
         && AllExplained(g.world, g.calls, g.log) && Linked(g.log[g.base..], start, g.store))
  }

  lemma ValidAccounts(b: Backend)
    requires b.Valid()
    ensures Accounted(b.Look(), b.Start()) && Chain(b.Look().log, b.Initial(), b.State())
    ensures Tallied(b.Look().log, b.Outcomes())
    ensures b.Look().state == b.State()
  {
    hide Chain, Tallied, AllExplained, Linked, StateOf, Tracked, Consistent, SafeDrops, Grounded, Faithful,
         Backed, CountersOf, Deterministic, Robust;
  }

  /** From `g` to `h` the probes `h.log[|g.log|..]` were made; staying undisturbed keeps the failure. */
  ghost predicate Went(g: Glance, h: Glance) {
    && |g.log| <= |h.log| && h.log[..|g.log|] == g.log
    && Chain(h.log[|g.log|..], g.state, h.state)
    && h.world == g.world && h.base == g.base
    && (h.undisturbed ==> g.undisturbed) && (h.Exact() && g.failing ==> h.failing)
  }

  lemma WentRefl(g: Glance)
    ensures Went(g, g)
  {
    assert g.log[|g.log|..] == [];
  }

  lemma WentTransitive(g: Glance, h: Glance, i: Glance)
    requires Went(g, h) && Went(h, i)
    ensures Went(g, i) && i.log[|g.log|..] == h.log[|g.log|..] + i.log[|h.log|..]
  {
    hide Chain;
    assert i.log[|g.log|..] == h.log[|g.log|..] + i.log[|h.log|..];
    ChainConcat(h.log[|g.log|..], i.log[|h.log|..], g.state, h.state, i.state);
  }

  /** One probe: the one asked for, and exactly the abstract step if nothing disturbed it. */
  ghost predicate Probed(g: Glance, h: Glance, table: TableKey, rows: seq<RowKey>, accepted: bool) {
    && |h.log| == |g.log| + 1 && h.log[..|g.log|] == g.log
    && h.world == g.world && h.base == g.base
    && var p := h.log[|g.log|];
       && p == Probe(p.index, p.store, g.state, table, rows, h.state, p.next, p.answer)
       && Coherent(p) && (accepted <==> p.answer.Accepted?)
       && (h.undisturbed ==> g.undisturbed && p.store == g.store && p.next == h.store && Explained(h.world, h.calls, p))
       && (h.Exact() ==> Step(h.world, g.store, table, rows) == Some((accepted, h.store)))
       && (h.Exact() && g.failing ==> h.failing)
  }

  lemma ProbedWent(g: Glance, h: Glance, table: TableKey, rows: seq<RowKey>, accepted: bool)
    requires Probed(g, h, table, rows, accepted)
    ensures Went(g, h) && h.log[|g.log|..] == [h.log[|g.log|]]
  {
    hide Coherent, Explained, Step, Deterministic;
    var p := h.log[|g.log|];
    assert h.log[|g.log|..] == [p] && [p][..0] == [];
    assert Chain([], g.state, g.state);
  }

  /** `backend.attempt(table, rows)` */
  method Attempt(b: Backend, table: TableKey, rows: seq<RowKey>) returns (r: Try<bool>)
    requires b.Valid() && table in b.State()
    modifies b.Footprint()
    ensures r.Done? ==> b.Valid() && Probed(old(b.Look()), b.Look(), table, rows, r.value)
    ensures r.KeyError? && Present(old(b.State()), table, rows) ==> !b.Look().untaken
    ensures old(b.Look()).smooth && Present(old(b.State()), table, rows) ==> b.Look().smooth && r.Done?
  {
    hide Tracked, Moves, Consistent, SafeDrops, Deterministic, Step, Classify, StateOf, Present, Chain, Coherent;
    match b {
      case Snapshot(p) => r := OnSnapshot(p, table, rows);
      case Clone(c) => r := OnClone(c, table, rows);
    }
  }

  method OnSnapshot(p: S.PostgresBackend, table: TableKey, rows: seq<RowKey>) returns (r: Try<bool>)
    requires p.Valid() && table in p.current
    modifies p, p.workspace, p.oracle, p.cache, p.pg, p.pg.control
    ensures r.Done? ==> p.Valid()
    ensures r.Done? ==> Probed(old(Snapshot(p).Look()), Snapshot(p).Look(), table, rows, r.value)
    ensures r.KeyError? && Present(old(p.current), table, rows) ==> p.pg.s.squatted != {}
    ensures old(p.Smooth()) && Present(old(p.current), table, rows) ==> p.Smooth() && r.Done?
  {
    hide Tracked, Moves, Consistent, SafeDrops, Deterministic, Step, Classify, StateOf, Present, Chain, Coherent,
         Reproduced, Explained, AllExplained, Linked, Grounded, Faithful, Backed, CountersOf, Tallied, Robust,
         Noted, Probed;
    ghost var g, was := p.Now(), Snapshot(p).Look();
    r := p.Attempt(table, rows);
    if r.Done? {
      p.CalmUntaken();
      if p.Undisturbed() && Deterministic(p.world) && was.failing { StepKeepsFailing(p.world, g.store, table, rows); }
      NotedProbed(was, Snapshot(p).Look(), g, p.Now(), p.initial, table, rows, r.value);
    }
  }

  method OnClone(c: C.CloneBackend, table: TableKey, rows: seq<RowKey>) returns (r: Try<bool>)
    requires c.Valid() && table in c.current
    modifies c, c.store, c.oracle, c.pg, c.pg.control
    ensures r.Done? ==> c.Valid()
    ensures r.Done? ==> Probed(old(Clone(c).Look()), Clone(c).Look(), table, rows, r.value)
    ensures r.KeyError? && Present(old(c.current), table, rows) ==> c.pg.s.squatted != {}
    ensures old(c.Smooth()) && Present(old(c.current), table, rows) ==> c.Smooth() && r.Done?
  {
    hide Tracked, Moves, Consistent, SafeDrops, Deterministic, Step, Classify, StateOf, Present, Chain, Coherent,
         Reproduced, Explained, AllExplained, Linked, CountersOf, Tallied, Robust, Noted, Probed;
    ghost var a, was := c.Store(), Clone(c).Look();
    ghost var g := c.At(a.data);
    r := c.Attempt(table, rows);
    if r.Done? {
      c.CalmUntaken();
      if c.Undisturbed() && Deterministic(c.world) && was.failing { StepKeepsFailing(c.world, a, table, rows); }
      ghost var left :| Noted(g, c.At(left), table, rows, r.value) && (c.Undisturbed() ==> left == c.Store().data);
      NotedProbed(was, Clone(c).Look(), g, c.At(left), c.initial, table, rows, r.value);
    }
  }

  lemma NotedProbed(g: Glance, h: Glance, a: Moment, b: Moment, initial: State, table: TableKey, rows: seq<RowKey>,
                    accepted: bool)
    requires Noted(a, b, table, rows, accepted)
    requires (g.log, g.state) == (a.log, a.state) && (h.log, h.state) == (b.log, b.state)
    requires h.world == g.world && h.base == g.base && Chain(h.log, initial, h.state)
    requires h.undisturbed ==>
      g.undisturbed && a.store == g.store && b.store == h.store && AllExplained(h.world, h.calls, h.log)
    requires h.Exact() ==> Step(h.world, g.store, table, rows) == Some((accepted, h.store))
    requires h.Exact() && g.failing ==> h.failing
    ensures Probed(g, h, table, rows, accepted)
  {
    hide Chain, Coherent, Explained, Step, Deterministic;
    LastCoherent(h.log, initial, h.state);
  }

  /** Both backends, each on its own server, from equal contents: with deterministic deletion
      and oracle, nobody taking their names and every execution reaching its database, any run
      of attempts that completes on both gives the same answers and the same state. Where
      nothing goes wrong and the rows asked for are there, it does complete on both. */
  method BothAgree(p: S.PostgresBackend, c: C.CloneBackend, requests: seq<Request>)
    returns (snapshotAnswers: seq<bool>, cloneAnswers: seq<bool>, complete: bool)
    requires p.Valid() && c.Valid() && p.world == c.world && p.Store() == c.Store()
    requires p.pg != c.pg && p.pg.control != c.pg.control && p.oracle != c.oracle
    requires forall i :: 0 <= i < |requests| ==> requests[i].0 in p.world.tables
    modifies p, p.workspace, p.oracle, p.cache, p.pg, p.pg.control
    modifies c, c.store, c.oracle, c.pg, c.pg.control
    ensures complete && p.Undisturbed() && c.Undisturbed() && Deterministic(p.world) ==>
      && snapshotAnswers == cloneAnswers && p.Store() == c.Store() && p.current == c.current
    ensures old(p.Smooth() && c.Smooth() && p.Undisturbed() && c.Undisturbed()) && Deterministic(p.world)
            && PresentAlong(p.world, old(p.Store()), requests) ==>
      complete && p.Undisturbed() && c.Undisturbed()
  {
    hide Tracked, Moves, Consistent, SafeDrops, Deterministic, Step, RunOf, Classify, StateOf, Chain,
         PresentAlong, Robust, Linked, AllExplained, Grounded, Faithful, Backed, CountersOf, Tallied;
    var first, second;
    snapshotAnswers, first := p.AttemptAll(requests);
    cloneAnswers, second := c.AttemptAll(requests);
    complete := first && second;
  }
}
