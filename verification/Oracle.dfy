/** Running the oracle until a failure is confirmed (oracle/runner.py, `fails`): each execution
    gets a freshly prepared database, and the first reproduced identity is kept for good. */
module Oracle {
  import opened Wrappers
  import opened Schema
  import opened Server
  import opened Cancellation
  import opened Cluster
  import opened Cleanup
  import opened Tracking
  import opened Keeping
  import opened Verdicts
  import Workspace
  import CloneStore

  /** What `prepare` and `cleanup` are for one call of `fails`: restore an archive into the
      workspace and leave it there, or clone a database and drop the clone. */
  datatype Target =
    | InWorkspace(workspace: Workspace.Workspace, restoration: Workspace.Restoration)
    | InClone(store: CloneStore.CloneStore, source: OwnedDatabase)
  {
    function Footprint(): set<object> {
      match this
      case InWorkspace(w, _) => {w}
      case InClone(s, _) => {s}
    }

    function Client(): Client {
      if InWorkspace? then WorkspaceClient else StoreClient
    }

    ghost predicate Ready(pg: Postgres)
      reads Footprint(), pg, pg.control
    {
      match this
      case InWorkspace(w, _) => w.pg == pg && w.Valid()
      case InClone(s, _) => s.pg == pg && s.Valid()
    }

    /** Ready to be restored into, or cloned from, if nothing goes wrong. */
    ghost predicate Fit(pg: Postgres)
      reads Footprint(), pg
    {
      match this
      case InWorkspace(w, _) => w.pg == pg && w.Healthy()
      case InClone(s, source) => s.Cloneable(pg.s, source) && source.oid in s.frozen
    }

    predicate Restorable() {
      InWorkspace? ==> restoration.Restores?
    }

    ghost function View(): View
      reads Footprint(), PgOf(), PgOf().control
    {
      match this
      case InWorkspace(w, _) => w.View()
      case InClone(s, _) => s.View()
    }

    function PgOf(): Postgres {
      match this
      case InWorkspace(w, _) => w.pg
      case InClone(s, _) => s.pg
    }

    /** The content each execution is meant to see. */
    ghost function Data(pg: Postgres): Content
      reads pg
    {
      match this
      case InWorkspace(_, restoration) => if restoration.Restores? then restoration.data else EMPTY
      case InClone(_, source) => if source.oid in pg.s.content then pg.s.content[source.oid] else EMPTY
    }
  }

  lemma WorkspaceWorked(v: View, w: View, settled: bool)
    requires Worked(false, v, w, settled)
    ensures Moves(v.s, w.s, Some(WorkspaceClient))
  {
    hide Moves;
  }

  /** What one client did between two moments; on clones, whether it left nothing behind. */
  ghost predicate Worked(clone: bool, v: View, w: View, settled: bool) {
    if clone then Keeps(v, w) && (settled ==> Restored(v, w))
    else Moves(v.s, w.s, Some(WorkspaceClient)) && SameSection(v.control, w.control)
  }

  lemma WorkedTransitive(clone: bool, v: View, w: View, x: View, settled: bool)
    requires Worked(clone, v, w, true) && Worked(clone, w, x, settled) && Consistent(w.s)
    ensures Worked(clone, v, x, settled)
  {
    if clone { KeepsTransitive(v, w, x); } else { MovesTransitive(v.s, w.s, x.s, Some(WorkspaceClient)); }
    hide Keeps, Moves, Consistent;
  }

  lemma CheckpointWorks(clone: bool, v: View, w: View, x: View, settled: bool)
    requires Worked(clone, v, w, true) && SameSection(w.control, x.control) && x == w.(control := x.control)
    ensures Worked(clone, v, x, settled)
  {
    hide Moves;
  }

  lemma WorkspaceWaited(v: View, w: View, x: View)
    requires Worked(false, v, w, true) && Moves(w.s, x.s, None) && Consistent(w.s) && SameSection(w.control, x.control)
    ensures Worked(false, v, x, true)
  {
    MovesThenAlone(v.s, w.s, x.s, Some(WorkspaceClient));
    hide Moves;
  }

  lemma CloneWaited(v: View, w: View, x: View)
    requires Worked(true, v, w, true) && WaitsOnly(w, x) && Consistent(w.s)
    ensures Worked(true, v, x, true)
  {
    WaitingKeeps(w, x);
    KeepsTransitive(v, w, x);
    hide Keeps, Moves, SameContent;
  }

  /** Where nobody took a name, the content of a recorded database is kept. */
  lemma SourceKept(v: View, w: View, source: OwnedDatabase)
    requires Keeps(v, w) && w.s.squatted == {} && Consistent(v.s) && Tracked(StoreClient, v.owned, v.unproven, v.s)
    requires source.name in v.owned && v.owned[source.name] == source
    ensures source.oid in v.s.content && source.oid in w.s.content
    ensures w.s.content[source.oid] == v.s.content[source.oid]
    ensures v.s.squatted == {}
  {
    SquattingGrows(v.s, w.s, Some(StoreClient));
    RecordedFacts(StoreClient, v.owned, v.unproven, v.s, source.name);
    RecordedHasContent(StoreClient, v.owned, v.unproven, v.s, source.name);
    assert HoldsOn(v.owned, v.s, w.s, source.name);
    hide Moves, Tracked, Consistent;
  }

  lemma SourceStays(v: View, w: View, source: OwnedDatabase, settled: bool)
    requires Worked(true, v, w, settled)
    ensures Keeps(v, w)
    ensures source.name in v.owned && v.owned[source.name] == source ==>
      source.name in w.owned && w.owned[source.name] == source
  {
    hide Moves;
  }

  lemma WorkedSquatting(clone: bool, v: View, w: View, settled: bool)
    requires Worked(clone, v, w, settled) && w.s.squatted == {}
    ensures v.s.squatted == {}
  {
    SquattingGrows(v.s, w.s, Some(if clone then StoreClient else WorkspaceClient));
    hide Moves;
  }

  lemma Unsettled(clone: bool, v: View, w: View)
    requires Worked(clone, v, w, true)
    ensures Worked(clone, v, w, false)
  {
  }

  lemma WorkedRefl(clone: bool, v: View)
    ensures Worked(clone, v, v, true)
  {
    KeepsRefl(v);
    MovesRefl(v.s, Some(WorkspaceClient));
  }

  /** What the oracle's callbacks and its process did, in order. An execution that was cut
      short has no verdict. */
  datatype Call =
    | Prepare(clone: bool, ok: bool)
    | Execute(clone: bool, seen: Option<Content>, verdict: Option<Classified>)
    | Cleanup

  /** Call i directly follows a successful `prepare`, and on a clone `cleanup` directly follows it. */
  ghost predicate InPlace(calls: seq<Call>, i: nat)
    requires i < |calls| && calls[i].Execute?
  {
    && i > 0 && calls[i - 1] == Prepare(calls[i].clone, true)
    && (calls[i].clone ==> i + 1 < |calls| && calls[i + 1].Cleanup?)
  }

  /** Every execution is in place. */
  ghost predicate Orderly(calls: seq<Call>) {
    forall i :: 0 <= i < |calls| && calls[i].Execute? ==> InPlace(calls, i)
  }

  ghost function Executions(calls: seq<Call>): nat {
    if calls == [] then 0
    else Executions(calls[..|calls| - 1]) + if calls[|calls| - 1].Execute? then 1 else 0
  }

  lemma {:induction false} ExecutionsAppend(a: seq<Call>, b: seq<Call>)
    ensures Executions(a + b) == Executions(a) + Executions(b)
  {
    if b == [] {
      assert a + b == a;
    } else {
      assert (a + b)[..|a + b| - 1] == a + b[..|b| - 1];
      ExecutionsAppend(a, b[..|b| - 1]);
    }
  }

  lemma OrderlyAppend(a: seq<Call>, b: seq<Call>)
    requires Orderly(a) && Orderly(b)
    ensures Orderly(a + b)
  {
    var c := a + b;
    forall i | 0 <= i < |c| && c[i].Execute? ensures InPlace(c, i) {
      if i < |a| {
        assert c[i] == a[i] && InPlace(a, i);
        assert c[i - 1] == a[i - 1] && (i + 1 < |a| ==> c[i + 1] == a[i + 1]);
      } else {
        var j := i - |a|;
        assert c[i] == b[j] && InPlace(b, j);
        assert c[i - 1] == b[j - 1] && (j + 1 < |b| ==> c[i + 1] == b[j + 1]);
      }
    }
  }

  function Total(outcomes: map<Outcome, nat>): nat {
    Tally(outcomes, SameFailure) + Tally(outcomes, NotReproduced) + Tally(outcomes, CandidateInvalid)
    + Tally(outcomes, DifferentFailure) + Tally(outcomes, InfrastructureError) + Tally(outcomes, TimedOut)
  }

  lemma TotalCounted(outcomes: map<Outcome, nat>, o: Outcome)
    ensures Total(Counted(outcomes, o)) == Total(outcomes) + 1
  {
  }

  /** The oracle's fields at one moment. */
  datatype Score = Score(executions: nat, outcomes: map<Outcome, nat>, lastOutcome: Option<Outcome>,
                         expected: Option<Identity>, finalSignature: Option<Identity>,
                         calls: seq<Call>, missed: nat, cutOff: nat)

  /** Every execution of `calls` after the first `from` reproduced the failure `id`. */
  ghost predicate AllSame(calls: seq<Call>, from: nat, id: Option<Identity>) {
    forall i :: from <= i < |calls| && calls[i].Execute? ==>
      calls[i].verdict == Some(Decided(SameFailure, id))
  }

  /** An execution that reached its database saw `data`; if `all` did, every decided one has. */
  ghost predicate Saw(seen: Option<Content>, verdict: Option<Classified>, data: Content, all: bool) {
    (seen.Some? ==> seen.value == data) && (all && verdict.Some? ==> seen.Some?)
  }

  /** So did every execution of `calls` after the first `from`. */
  ghost predicate SawOnly(calls: seq<Call>, from: nat, data: Content, all: bool) {
    forall i :: from <= i < |calls| && calls[i].Execute? ==> Saw(calls[i].seen, calls[i].verdict, data, all)
  }

  /** A verdict on a content is what some evidence of that content is classified as. */
  ghost predicate Honest(cfg: Config, behaviour: (nat, Content) -> Evidence,
                         seen: Option<Content>, verdict: Option<Classified>) {
    seen.Some? && verdict.Some? ==> exists e, n :: verdict.value == Classify(cfg, e, behaviour(n, seen.value))
  }

  ghost predicate AllHonest(cfg: Config, behaviour: (nat, Content) -> Evidence, calls: seq<Call>) {
    forall i :: 0 <= i < |calls| && calls[i].Execute? ==> Honest(cfg, behaviour, calls[i].seen, calls[i].verdict)
  }

  lemma RoundExecutes(clone: bool, x: Trial)
    ensures forall i :: 0 <= i < |RoundOf(clone, x)| && RoundOf(clone, x)[i].Execute? ==>
      x.Executed? && RoundOf(clone, x)[i].seen == x.seen && RoundOf(clone, x)[i].verdict == x.verdict
  {
  }

  lemma SawRound(calls: seq<Call>, from: nat, data: Content, all: bool, clone: bool, x: Trial)
    requires from <= |calls| && SawOnly(calls, from, data, all)
    requires x.Executed? ==> Saw(x.seen, x.verdict, data, all)
    ensures SawOnly(calls + RoundOf(clone, x), from, data, all)
  {
    RoundExecutes(clone, x);
    var round := RoundOf(clone, x);
    forall i | from <= i < |calls + round| && (calls + round)[i].Execute?
      ensures Saw((calls + round)[i].seen, (calls + round)[i].verdict, data, all)
    {
      if i >= |calls| { assert (calls + round)[i] == round[i - |calls|]; }
    }
  }

  lemma HonestRound(cfg: Config, behaviour: (nat, Content) -> Evidence, calls: seq<Call>, clone: bool, x: Trial)
    requires AllHonest(cfg, behaviour, calls) && (x.Executed? ==> Honest(cfg, behaviour, x.seen, x.verdict))
    ensures AllHonest(cfg, behaviour, calls + RoundOf(clone, x))
  {
    RoundExecutes(clone, x);
    hide Honest;
    var round := RoundOf(clone, x);
    forall i | 0 <= i < |calls + round| && (calls + round)[i].Execute?
      ensures Honest(cfg, behaviour, (calls + round)[i].seen, (calls + round)[i].verdict)
    {
      if i >= |calls| { assert (calls + round)[i] == round[i - |calls|]; }
    }
  }

  lemma SawNothing(calls: seq<Call>, data: Content, all: bool)
    ensures SawOnly(calls, |calls|, data, all)
  {
  }

  lemma SawBoth(a: seq<Call>, b: seq<Call>, from: nat, data: Content, first: bool, second: bool)
    requires a <= b && SawOnly(a, from, data, first) && SawOnly(b, |a|, data, second)
    ensures SawOnly(b, from, data, first && second)
  {
    assert forall i :: 0 <= i < |a| ==> b[i] == a[i];
  }

  /** The oracle executed on `data` with the verdict `o`. */
  ghost predicate Ran(calls: seq<Call>, data: Content, o: Outcome) {
    exists i, id :: 0 <= i < |calls| && RanAs(calls[i], data, o, id)
  }

  ghost predicate RanAs(call: Call, data: Content, o: Outcome, id: Option<Identity>) {
    call.Execute? && call.seen == Some(data) && call.verdict == Some(Decided(o, id))
  }

  lemma RanStill(a: seq<Call>, b: seq<Call>, data: Content, o: Outcome)
    requires a <= b && Ran(a, data, o)
    ensures Ran(b, data, o)
  {
    var i, id :| 0 <= i < |a| && RanAs(a[i], data, o, id);
    assert RanAs(b[i], data, o, id);
  }

  /** A returned call ran on what it was meant to see, with the outcome its answer rests on. */
  lemma ConsultedRan(s: Score, t: Score, confirm: nat, failed: bool, data: Content)
    requires Consulted(s, t, confirm, failed) && InOrder(s)
    ensures t.lastOutcome.Some? && t.executions > s.executions
    ensures SawOnly(t.calls, |s.calls|, data, true) ==> Ran(t.calls, data, t.lastOutcome.value)
  {
    if failed {
      ConfirmedSaid(s, t, confirm);
    } else {
      var n :| 0 <= n < confirm && Denied(s, t, n);
    }
    var c := Decided(t.lastOutcome.value, t.finalSignature);
    var i :| |s.calls| <= i < |t.calls| && t.calls[i].Execute? && t.calls[i].verdict == Some(c);
    if SawOnly(t.calls, |s.calls|, data, true) {
      assert RanAs(t.calls[i], data, t.lastOutcome.value, t.finalSignature);
    }
    hide Follows;
  }

  lemma ConfirmedSaid(s: Score, t: Score, n: nat)
    requires Confirming(s, t, n) && n > 0 && InOrder(s)
    ensures OneSaid(t.calls, |s.calls|, Decided(SameFailure, t.finalSignature))
  {
    assert t.calls[..|s.calls|] == s.calls && t.calls == s.calls + t.calls[|s.calls|..];
    ExecutionsAppend(s.calls, t.calls[|s.calls|..]);
    ExecutionExists(t.calls[|s.calls|..]);
    var i :| 0 <= i < |t.calls[|s.calls|..]| && t.calls[|s.calls|..][i].Execute?;
    assert t.calls[|s.calls| + i].Execute?;
  }

  /** What an honest run says: the outcome is that of the content's evidence. */
  lemma RanHonestly(cfg: Config, behaviour: (nat, Content) -> Evidence, calls: seq<Call>, data: Content, o: Outcome)
    requires AllHonest(cfg, behaviour, calls) && Ran(calls, data, o)
    ensures exists e, n, id :: Classify(cfg, e, behaviour(n, data)) == Decided(o, id)
  {
    var i, id :| 0 <= i < |calls| && RanAs(calls[i], data, o, id);
    assert Honest(cfg, behaviour, calls[i].seen, calls[i].verdict);
    var e, n :| calls[i].verdict.value == Classify(cfg, e, behaviour(n, data));
    hide Classify;
  }

  /** The score is in order: executions are the outcomes counted plus those cut off. */
  ghost predicate InOrder(s: Score) {
    && s.executions == Total(s.outcomes) + s.cutOff
    && s.executions == Executions(s.calls) && Orderly(s.calls)
  }

  /** What a call leaves of the score whatever happens: the identity is written at most once,
      the history only grows. */
  ghost predicate Follows(s: Score, t: Score) {
    && InOrder(t)
    && (s.expected.Some? ==> t.expected == s.expected)
    && s.calls <= t.calls && s.missed <= t.missed && s.executions <= t.executions
    && s.cutOff <= t.cutOff <= s.cutOff + 1
  }

  /** After `n` executions of a call, all of which reproduced the failure. */
  ghost predicate Confirming(s: Score, t: Score, n: nat) {
    && Follows(s, t) && t.cutOff == s.cutOff
    && t.executions == s.executions + n
    && Tally(t.outcomes, SameFailure) == Tally(s.outcomes, SameFailure) + n
    && (forall o :: o != SameFailure ==> Tally(t.outcomes, o) == Tally(s.outcomes, o))
    && AllSame(t.calls, |s.calls|, t.expected)
    && (n == 0 ==> t == s)
    && (n > 0 ==> t.expected.Some? && t.lastOutcome == Some(SameFailure) && t.finalSignature == t.expected)
  }

  /** The first `n` executions reproduced the failure, the next one did not. */
  ghost predicate Denied(s: Score, t: Score, n: nat) {
    && Follows(s, t) && t.cutOff == s.cutOff
    && t.executions == s.executions + n + 1
    && Tally(t.outcomes, SameFailure) == Tally(s.outcomes, SameFailure) + n
    && t.lastOutcome.Some? && !t.lastOutcome.value.SameFailure?
    && Refusing(t.lastOutcome.value)
    && Tally(t.outcomes, t.lastOutcome.value) == Tally(s.outcomes, t.lastOutcome.value) + 1
    && (n > 0 ==> t.expected.Some?)
    && OneSaid(t.calls, |s.calls|, Decided(t.lastOutcome.value, t.finalSignature))
  }

  /** An execution of `calls` after the first `from` gave the verdict `c`. */
  ghost predicate OneSaid(calls: seq<Call>, from: nat, c: Classified) {
    exists i :: from <= i < |calls| && calls[i].Execute? && calls[i].verdict == Some(c)
  }

  lemma {:induction false} ExecutionExists(calls: seq<Call>)
    requires Executions(calls) > 0
    ensures exists i :: 0 <= i < |calls| && calls[i].Execute?
  {
    var n := |calls| - 1;
    if !calls[n].Execute? {
      ExecutionExists(calls[..n]);
      var i :| 0 <= i < n && calls[..n][i].Execute?;
      assert calls[i].Execute?;
    }
  }

  lemma RoundSaid(t: Score, u: Score, from: nat, c: Classified, round: seq<Call>)
    requires OneRound(t, u, c, round) && from <= |t.calls|
    ensures OneSaid(u.calls, from, c)
  {
    ExecutionExists(round);
    var i :| 0 <= i < |round| && round[i].Execute?;
    assert u.calls[|t.calls| + i] == round[i];
    hide Orderly, Executions;
  }

  lemma ConfirmingFollows(s: Score, t: Score, n: nat)
    requires Confirming(s, t, n)
    ensures Follows(s, t) && t.cutOff == s.cutOff && s.missed <= t.missed
  {
  }

  lemma DeniedFollows(s: Score, t: Score, n: nat)
    requires Denied(s, t, n)
    ensures Follows(s, t) && t.cutOff == s.cutOff
  {
  }

  lemma FollowsTransitive(s: Score, t: Score, u: Score)
    requires Follows(s, t) && t.cutOff == s.cutOff && Follows(t, u)
    ensures Follows(s, u)
  {
    hide InOrder;
  }

  /** Over any sequence of calls the expected identity is written once, and executions are the
      outcomes counted plus those cut off. */
  lemma {:induction false} IdentityWrittenOnce(scores: seq<Score>, i: nat, j: nat)
    requires i <= j < |scores| && InOrder(scores[i])
    requires forall k :: 0 <= k < |scores| - 1 ==> Follows(scores[k], scores[k + 1])
    ensures scores[i].expected.Some? ==> scores[j].expected == scores[i].expected
    ensures scores[j].executions == Total(scores[j].outcomes) + scores[j].cutOff
    ensures scores[j].cutOff <= scores[i].cutOff + (j - i)
    decreases j
  {
    if i < j {
      IdentityWrittenOnce(scores, i, j - 1);
      assert Follows(scores[j - 1], scores[j - 1 + 1]);
    }
  }

  lemma FollowsInOrder(s: Score, t: Score)
    requires Follows(s, t)
    ensures InOrder(t)
  {
  }

  /** A decided round whose outcome was not counted. */
  lemma CutAfter(s: Score, t: Score, u: Score, c: Classified, round: seq<Call>)
    requires Follows(s, t) && t.cutOff == s.cutOff && OneRound(t, u, c, round)
    ensures Follows(s, u.(cutOff := u.cutOff + 1))
  {
    OrderlyAppend(t.calls, round);
    ExecutionsAppend(t.calls, round);
    hide Orderly, Executions, Total;
  }

  lemma ClassifiedFacts(cfg: Config, expected: Option<Identity>, c: Classified)
    requires c.Decided? && exists e :: c == Classify(cfg, expected, e)
    ensures c.outcome.SameFailure? ==> c.identity.Some? && (expected.Some? ==> c.identity == expected)
    ensures c.outcome.SameFailure? || Refusing(c.outcome)
  {
    var e :| c == Classify(cfg, expected, e);
    SameFailureHasIdentity(cfg, expected, e);
  }

  lemma OneRoundScore(s: Score, t: Score, c: Classified, round: seq<Call>)
    requires OneRound(s, t, c, round)
    ensures t.expected == s.expected && t.outcomes == s.outcomes && s.missed <= t.missed
    ensures t.executions == s.executions + 1
  {
  }

  lemma NothingYetDone(s: Score, t: Score)
    requires Confirming(s, t, 0)
    ensures t == s
  {
  }

  lemma StillDecided(cfg: Config, s: Score, t: Score, e: Evidence)
    requires Decides(cfg, s, t, e, true)
    ensures Classify(cfg, t.expected, e).Decided? && Reproduced(cfg, s.expected, e).Some?
  {
    LockedDecides(cfg, s.expected, e);
  }

  /** In a call on steady evidence only the first execution can be undecided. */
  lemma OnlyFirstUndecided(cfg: Config, s: Score, t: Score, e: Evidence, i: nat)
    requires Confirming(s, t, i)
    ensures (i == 0 || Decides(cfg, s, t, e, true)) && !Classify(cfg, t.expected, e).Decided? ==>
      t == s && Reproduced(cfg, s.expected, e).None?
  {
    if i == 0 { NothingYetDone(s, t); }
    if Decides(cfg, s, t, e, true) { StillDecided(cfg, s, t, e); }
    DecidedReproduced(cfg, s.expected, e);
    hide Confirming, Classify, Decides, Reproduced;
  }

  lemma DecidedReproduced(cfg: Config, expected: Option<Identity>, e: Evidence)
    ensures Reproduced(cfg, expected, e).Some? <==> Classify(cfg, expected, e).Decided?
  {
    hide Classify;
  }

  lemma ConfirmedConsults(s: Score, t: Score, confirm: nat)
    requires Confirming(s, t, confirm) && confirm > 0
    ensures Consulted(s, t, confirm, true) && t.lastOutcome == Some(SameFailure) && t.executions > s.executions
  {
  }

  lemma DeniedConsults(s: Score, t: Score, confirm: nat, i: nat)
    requires i < confirm
    ensures Denied(s, t, i) ==> Consulted(s, t, confirm, false)
  {
    hide Denied;
  }

  /** In a call on steady evidence the first execution decides whether there is an answer. */
  lemma FirstDecides(cfg: Config, s: Score, t: Score, u: Score, e: Evidence, i: nat)
    requires Confirming(s, t, i)
    ensures i == 0 || Decides(cfg, s, t, e, true) ==>
      (Classify(cfg, t.expected, e).Decided? <==> Reproduced(cfg, s.expected, e).Some?)
    ensures forall failed :: Decides(cfg, s, u, e, failed) ==> Reproduced(cfg, s.expected, e).Some?
  {
    if i == 0 { NothingYetDone(s, t); }
    if Decides(cfg, s, t, e, true) { StillDecided(cfg, s, t, e); }
    DecidedEither(cfg, s, u, e);
    hide Confirming, Classify, Decides;
  }

  lemma DecidedEither(cfg: Config, s: Score, t: Score, e: Evidence)
    ensures forall failed :: Decides(cfg, s, t, e, failed) ==> Reproduced(cfg, s.expected, e).Some?
    ensures Reproduced(cfg, s.expected, e).Some? <==> Classify(cfg, s.expected, e).Decided?
  {
  }

  lemma SameDecided(cfg: Config, s: Score, t: Score, u: Score, e: Evidence, c: Classified)
    requires c.Decided? && u.expected == t.expected && Decides(cfg, s, Scored(t, c), e, c.outcome.SameFailure?)
    ensures Decides(cfg, s, Scored(u, c), e, c.outcome.SameFailure?)
  {
  }

  lemma NothingDone(s: Score)
    requires InOrder(s)
    ensures Confirming(s, s, 0)
  {
  }

  /** What a returned call means. */
  ghost predicate Consulted(s: Score, t: Score, confirm: nat, failed: bool) {
    confirm > 0 && if failed then Confirming(s, t, confirm) else exists n :: 0 <= n < confirm && Denied(s, t, n)
  }

  lemma ConsultedOutcome(s: Score, t: Score, confirm: nat, failed: bool)
    requires Consulted(s, t, confirm, failed)
    ensures t.lastOutcome.Some? && Follows(s, t)
    ensures if failed then t.lastOutcome.value.SameFailure? else Refusing(t.lastOutcome.value)
  {
    if !failed {
      var n :| 0 <= n < confirm && Denied(s, t, n);
    }
    hide InOrder;
  }

  lemma FollowsMeans(s: Score, t: Score)
    requires Follows(s, t)
    ensures s.missed <= t.missed && (s.expected.Some? ==> t.expected == s.expected)
    ensures s.calls <= t.calls
  {
  }

  lemma DecidesMeans(cfg: Config, s: Score, t: Score, e: Evidence, failed: bool)
    requires Decides(cfg, s, t, e, failed)
    ensures Reproduced(cfg, s.expected, e) == Some(failed)
    ensures t.expected == Locked(s.expected, Classify(cfg, s.expected, e))
  {
  }

  /** One execution was decided. */
  ghost predicate OneRound(s: Score, t: Score, c: Classified, round: seq<Call>) {
    && t == s.(executions := s.executions + 1, calls := s.calls + round, missed := t.missed)
    && s.missed <= t.missed
    && Orderly(round) && Executions(round) == 1
    && (forall i :: 0 <= i < |round| && round[i].Execute? ==> round[i].verdict == Some(c))
  }

  lemma AllSameAppend(calls: seq<Call>, round: seq<Call>, from: nat, id: Option<Identity>, c: Classified)
    requires from <= |calls| && AllSame(calls, from, id) && c == Decided(SameFailure, id)
    requires forall i :: 0 <= i < |round| && round[i].Execute? ==> round[i].verdict == Some(c)
    ensures AllSame(calls + round, from, id)
  {
    var w := calls + round;
    forall i | from <= i < |w| && w[i].Execute? ensures w[i].verdict == Some(c) {
      if i >= |calls| { assert w[i] == round[i - |calls|]; }
    }
  }

  /** The oracle's fields after an outcome is counted and the identity kept. */
  function Scored(t: Score, c: Classified): Score
    requires c.Decided?
  {
    t.(lastOutcome := Some(c.outcome), outcomes := Counted(t.outcomes, c.outcome), finalSignature := c.identity,
       expected := if c.outcome.SameFailure? && t.expected.None? then c.identity else t.expected)
  }

  lemma RoundFollows(s: Score, t: Score, u: Score, c: Classified, round: seq<Call>)
    requires Follows(s, t) && t.cutOff == s.cutOff && OneRound(t, u, c, round) && c.Decided?
    ensures Follows(s, Scored(u, c))
  {
    TotalCounted(u.outcomes, c.outcome);
    OrderlyAppend(t.calls, round);
    ExecutionsAppend(t.calls, round);
    hide Orderly, Executions, Total;
  }

  lemma CallsKept(t: Score, u: Score, verdict: Result<Classified>, round: seq<Call>)
    requires if verdict.Raised? then Follows(t, u) else OneRound(t, u, verdict.value, round)
    ensures t.calls <= u.calls && t.missed <= u.missed
  {
    hide InOrder, Orderly;
  }

  lemma RoundScored(s: Score, t: Score, u: Score, n: nat, c: Classified, round: seq<Call>)
    requires Confirming(s, t, n) && OneRound(t, u, c, round) && c.Decided?
    requires c.outcome.SameFailure? ==> c.identity.Some? && (t.expected.Some? ==> c.identity == t.expected)
    requires c.outcome.SameFailure? || Refusing(c.outcome)
    ensures if c.outcome.SameFailure? then Confirming(s, Scored(u, c), n + 1) else Denied(s, Scored(u, c), n)
  {
    hide Orderly, Executions, Total, Follows, InOrder, AllSame, OneSaid;
    RoundFollows(s, t, u, c, round);
    SamePrefix(s, t);
    RoundSaid(t, u, |s.calls|, c, round);
    if c.outcome.SameFailure? {
      assert AllSame(t.calls, |s.calls|, c.identity) by { if t.expected.None? { NothingYet(t.calls, c.identity); } }
      AllSameAppend(t.calls, round, |s.calls|, c.identity, c);
    }
  }

  lemma NothingYet(calls: seq<Call>, id: Option<Identity>)
    ensures AllSame(calls, |calls|, id)
  {
  }

  lemma SamePrefix(s: Score, t: Score)
    requires Follows(s, t)
    ensures |s.calls| <= |t.calls|
  {
  }

  /** What a call does to the score and returns when every execution meets evidence `e`. */
  ghost predicate Decides(cfg: Config, s: Score, t: Score, e: Evidence, failed: bool) {
    && Reproduced(cfg, s.expected, e) == Some(failed)
    && t.expected == Locked(s.expected, Classify(cfg, s.expected, e))
    && t.lastOutcome == Some(Classify(cfg, s.expected, e).outcome)
  }

  lemma DecidedNow(cfg: Config, t: Score, u: Score, e: Evidence, c: Classified, failed: bool)
    requires c.Decided? && u.lastOutcome == Some(c.outcome) && u.expected == Locked(t.expected, c)
    requires failed <==> c.outcome.SameFailure?
    ensures c == Classify(cfg, t.expected, e) ==> Decides(cfg, t, u, e, failed)
  {
    hide Classify, Locked;
  }

  lemma DecidesAgain(cfg: Config, s: Score, t: Score, e: Evidence, c: Classified)
    requires t.expected == s.expected || Decides(cfg, s, t, e, true)
    requires c == Classify(cfg, t.expected, e) && c.Decided?
    ensures Decides(cfg, s, Scored(t, c), e, c.outcome.SameFailure?)
  {
    SameFailureHasIdentity(cfg, t.expected, e);
    if Decides(cfg, s, t, e, true) { LockedDecides(cfg, s.expected, e); }
  }

  /** An execution without a decision, and the outcome it was counted under. */
  predicate Broke(c: Classified, o: Option<Outcome>) {
    (c.DecidedTimeout? && o == Some(TimedOut)) || (c.DecidedError? && o == Some(InfrastructureError))
  }

  /** Every execution after number `from` up to number `to` showed the failure `id`. */
  ghost predicate AllShow(cfg: Config, behaviour: (nat, Content) -> Evidence, data: Content, from: nat, to: nat,
                          id: Identity)
  {
    forall k :: from < k <= to ==> ShowsFailure(cfg, behaviour(k, data), id)
  }

  /** The evidence is against the failure expected, and why. */
  ghost predicate Refutes(cfg: Config, expected: Option<Identity>, e: Evidence, o: Outcome) {
    || (o == NotReproduced && ShowsNone(cfg, e))
    || (o == CandidateInvalid && ShowsInvalid(cfg, e))
    || (o == DifferentFailure && ShowsDifferent(cfg, expected, e))
  }

  /** What `fails` answering `failed` on `data` says of its executions: all `confirm` of them
      showed one failure, the expected one; or the last of them did not, and those before did. */
  ghost predicate Witnessed(cfg: Config, behaviour: (nat, Content) -> Evidence, data: Content, s: Score, t: Score,
                            confirm: nat, failed: bool)
  {
    && (s.expected.Some? ==> t.expected == s.expected)
    && if failed then
         && t.executions == s.executions + confirm && t.expected.Some?
         && AllShow(cfg, behaviour, data, s.executions, t.executions, t.expected.value)
       else
         && s.executions < t.executions <= s.executions + confirm && t.lastOutcome.Some?
         && (t.executions > s.executions + 1 ==>
              t.expected.Some? && AllShow(cfg, behaviour, data, s.executions, t.executions - 1, t.expected.value))
         && Refutes(cfg, t.expected, behaviour(t.executions, data), t.lastOutcome.value)
  }

  /** Without a decision: the last execution ran out of time or showed nothing. */
  predicate BrokeOn(cfg: Config, e: Evidence, o: Option<Outcome>) {
    (ShowsTimeout(cfg, e) && o == Some(TimedOut)) || (ShowsNothing(cfg, e) && o == Some(InfrastructureError))
  }

  lemma BrokeUndecided(c: Classified, o: Option<Outcome>)
    ensures Broke(c, o) ==> !c.Decided?
  {
  }

  lemma BrokeMeans(cfg: Config, expected: Option<Identity>, e: Evidence, o: Option<Outcome>)
    ensures Broke(Classify(cfg, expected, e), o) ==> BrokeOn(cfg, e, o)
  {
    OutcomeIff(cfg, expected, e);
    hide Classify, ShowsTimeout, ShowsNothing;
  }

  /** One more execution. */
  lemma ShowsMore(cfg: Config, behaviour: (nat, Content) -> Evidence, data: Content, s: Score, t: Score, u: Score,
                  confirm: nat, i: nat, failed: bool)
    requires i < confirm && t.executions == s.executions + i
    ensures (if i == 0 then t.expected == s.expected else Witnessed(cfg, behaviour, data, s, t, i, true))
            && u.executions == t.executions + 1 && Decides(cfg, t, u, behaviour(u.executions, data), failed) ==>
      if failed then Witnessed(cfg, behaviour, data, s, u, i + 1, true)
      else Witnessed(cfg, behaviour, data, s, u, confirm, false)
  {
    var e := behaviour(u.executions, data);
    var c := Classify(cfg, t.expected, e);
    if c.Decided? { DecidedIff(cfg, t.expected, e, c.identity); }
    OutcomeIff(cfg, t.expected, e);
    hide Classify, ShowsFailure, ShowsNone, ShowsInvalid, ShowsDifferent, ShowsSame, ShowsTimeout, ShowsNothing;
  }

  /** Executing on the same content always meets the same evidence. */
  ghost predicate Steady(behaviour: (nat, Content) -> Evidence, data: Content) {
    forall i, j :: behaviour(i, data) == behaviour(j, data)
  }

  /** Whatever identity is expected, every execution on `data` is decided. */
  ghost predicate Decisive(cfg: Config, behaviour: (nat, Content) -> Evidence, data: Content) {
    forall expected, i :: Classify(cfg, expected, behaviour(i, data)).Decided?
  }

  lemma DecisiveAt(cfg: Config, behaviour: (nat, Content) -> Evidence, data: Content, expected: Option<Identity>,
                   i: nat)
    ensures Decisive(cfg, behaviour, data) ==> Classify(cfg, expected, behaviour(i, data)).Decided?
  {
  }

  lemma SameBehaviour(behaviour: (nat, Content) -> Evidence, data: Content, i: nat)
    ensures Steady(behaviour, data) ==> behaviour(i, data) == behaviour(0, data)
  {
  }

  /** How far one round got. */
  datatype Trial = NotPrepared | NotExecuted | Executed(seen: Option<Content>, verdict: Option<Classified>)

  ghost function RoundOf(clone: bool, x: Trial): seq<Call> {
    (match x
     case NotPrepared => [Prepare(clone, false)]
     case NotExecuted => [Prepare(clone, true)]
     case Executed(seen, verdict) => [Prepare(clone, true), Execute(clone, seen, verdict)])
    + (if clone then [Cleanup] else [])
  }

  lemma RoundFacts(clone: bool, x: Trial)
    ensures Orderly(RoundOf(clone, x)) && Executions(RoundOf(clone, x)) == if x.Executed? then 1 else 0
    ensures forall i :: 0 <= i < |RoundOf(clone, x)| && RoundOf(clone, x)[i].Execute? ==>
      x.Executed? && RoundOf(clone, x)[i].verdict == x.verdict
  {
    RoundOrderly(clone, x);
    RoundExecutions(clone, x);
    hide Orderly, Executions;
  }

  lemma RoundOrderly(clone: bool, x: Trial)
    ensures Orderly(RoundOf(clone, x))
  {
    var round := RoundOf(clone, x);
    forall i | 0 <= i < |round| && round[i].Execute? ensures InPlace(round, i) {
      assert i == 1 && round[0] == Prepare(clone, true);
    }
  }

  lemma RoundExecutions(clone: bool, x: Trial)
    ensures Executions(RoundOf(clone, x)) == if x.Executed? then 1 else 0
  {
    hide Executions;
    var p := Prepare(clone, !x.NotPrepared?);
    var rest := if clone then [Cleanup] else [];
    SingleExecution(p);
    NoExecution();
    SingleExecution(Cleanup);
    match x {
      case Executed(seen, verdict) =>
        var e := Execute(clone, seen, verdict);
        SingleExecution(e);
        assert [p, e] == [p] + [e];
        ExecutionsAppend([p], [e]);
        ExecutionsAppend([p, e], rest);
      case _ => ExecutionsAppend([p], rest);
    }
  }

  lemma NoExecution()
    ensures Executions([]) == 0
  {
  }

  /** What the part of a round before `cleanup` does to the score; it does not touch `calls`. */
  ghost predicate Tried(s: Score, t: Score, r: Result<Classified>, x: Trial) {
    && s.missed <= t.missed
    && match r
       case Returned(c) =>
         && c.Decided? && x.Executed? && x.verdict == Some(c)
         && t == s.(executions := s.executions + 1, missed := t.missed)
       case Raised(e) =>
         match x
         case Executed(_, Some(_)) =>
           && e == OracleError && t.lastOutcome.Some?
           && (t.lastOutcome.value.TimedOut? || t.lastOutcome.value.InfrastructureError?)
           && t == s.(executions := s.executions + 1, missed := t.missed, lastOutcome := t.lastOutcome,
                      outcomes := Counted(s.outcomes, t.lastOutcome.value))
         case Executed(_, None) =>
           e == Cancelled && t == s.(executions := s.executions + 1, missed := t.missed, cutOff := s.cutOff + 1)
         case _ => t == s
  }

  lemma CutShort(s: Score, t: Score, seen: Option<Content>)
    requires s.missed <= t.missed
    requires t == s.(executions := s.executions + 1, missed := t.missed, cutOff := s.cutOff + 1)
    ensures Tried(s, t, Raised(Cancelled), Executed(seen, None))
  {
  }

  lemma Concluded(s: Score, t: Score, c: Classified, r: Result<Classified>, seen: Option<Content>)
    requires s.missed <= t.missed
    requires t == s.(executions := s.executions + 1, missed := t.missed, lastOutcome := t.lastOutcome,
                     outcomes := t.outcomes)
    requires c.Decided? ==> r == Returned(c) && t.lastOutcome == s.lastOutcome && t.outcomes == s.outcomes
    requires !c.Decided? ==>
      && r == Raised(OracleError)
      && t.lastOutcome == Some(if c.DecidedTimeout? then TimedOut else InfrastructureError)
      && t.outcomes == Counted(s.outcomes, t.lastOutcome.value)
    ensures Tried(s, t, r, Executed(seen, Some(c)))
  {
  }

  lemma TriedCalls(s: Score, t: Score, r: Result<Classified>, x: Trial)
    requires Tried(s, t, r, x)
    ensures t.calls == s.calls && t.expected == s.expected && (r.Returned? ==> r.value.Decided?)
  {
  }

  lemma TriedFollows(s: Score, t: Score, r: Result<Classified>, x: Trial, clone: bool)
    requires InOrder(s) && Tried(s, t, r, x)
    ensures var u := t.(calls := s.calls + RoundOf(clone, x));
            && (r.Raised? ==> Follows(s, u) && (r.e != Cancelled ==> u.cutOff == s.cutOff))
            && (r.Returned? ==> OneRound(s, u, r.value, RoundOf(clone, x)) && Follows(s, u.(cutOff := u.cutOff + 1)))
  {
    var round := RoundOf(clone, x);
    RoundFacts(clone, x);
    OrderlyAppend(s.calls, round);
    ExecutionsAppend(s.calls, round);
    if t.lastOutcome.Some? { TotalCounted(s.outcomes, t.lastOutcome.value); }
    hide Orderly, Executions, Total, RoundOf;
    match r {
      case Returned(_) =>
      case Raised(_) =>
        match x {
          case Executed(_, Some(_)) =>
          case Executed(_, None) =>
          case _ =>
        }
    }
  }

  lemma SingleExecution(call: Call)
    ensures Executions([call]) == if call.Execute? then 1 else 0
  {
    assert [call][..0] == [];
  }

  class Oracle {
    const pg: Postgres
    const cfg: Config
    const confirm: nat
    /** What execution number i on a database shows; it need not always be the same. */
    const behaviour: (nat, Content) -> Evidence
    var executions: nat
    var outcomes: map<Outcome, nat>
    var lastOutcome: Option<Outcome>
    var expected: Option<Identity>
    var finalSignature: Option<Identity>
    // history
    ghost var calls: seq<Call>
    ghost var missed: nat  // executions that did not reach their database
    ghost var cutOff: nat  // executions without an outcome

    constructor (pg: Postgres, cfg: Config, confirm: nat, behaviour: (nat, Content) -> Evidence)
      requires confirm >= 1
      ensures this.pg == pg && this.cfg == cfg && this.confirm == confirm && this.behaviour == behaviour
      ensures Valid() && Now() == Score(0, map[], None, None, None, [], 0, 0)
    {
      this.pg, this.cfg, this.confirm, this.behaviour := pg, cfg, confirm, behaviour;
      executions, outcomes, lastOutcome, expected, finalSignature := 0, map[], None, None, None;
      calls, missed, cutOff := [], 0, 0;
    }

    ghost function Now(): Score
      reads this
    {
      Score(executions, outcomes, lastOutcome, expected, finalSignature, calls, missed, cutOff)
    }

    ghost predicate Valid()
      reads this
    {
      confirm >= 1 && InOrder(Now()) && AllHonest(cfg, behaviour, calls)
    }

    /** The command runs against database `n`: what it shows, and what it leaves there. */
    method Observe(n: Name) returns (seen: Option<Content>, c: Classified)
      modifies this`missed
      ensures exists e :: c == Classify(cfg, expected, e)
      ensures seen.Some? ==>
        && n in pg.s.catalog && pg.s.catalog[n].oid in pg.s.content
        && seen.value == pg.s.content[pg.s.catalog[n].oid]
        && c == Classify(cfg, expected, behaviour(executions, seen.value)) && missed == old(missed)
      ensures Honest(cfg, behaviour, seen, Some(c))
      ensures seen.None? ==> missed == old(missed) + 1
      ensures pg.calm && n in pg.s.catalog && pg.s.catalog[n].oid in pg.s.content ==> seen.Some?
    {
      var reached: bool, other: Evidence := *, *;
      if pg.calm {
        reached := true;
      }
      if reached && n in pg.s.catalog && pg.s.catalog[n].oid in pg.s.content {
        seen := Some(pg.s.content[pg.s.catalog[n].oid]);
        c := Classify(cfg, expected, behaviour(executions, seen.value));
      } else {
        seen := None;
        missed := missed + 1;
        c := Classify(cfg, expected, other);
      }
    }

    /** The `except` clauses around the run and its classification. */
    method Conclude(c: Classified) returns (r: Result<Classified>)
      modifies this`lastOutcome, this`outcomes
      ensures c.Decided? ==> r == Returned(c) && Now() == old(Now())
      ensures !c.Decided? ==>
        && r == Raised(OracleError)
        && lastOutcome == Some(if c.DecidedTimeout? then TimedOut else InfrastructureError)
        && Now() == old(Now()).(lastOutcome := lastOutcome, outcomes := Counted(old(outcomes), lastOutcome.value))
    {
      if c.Decided? {
        return Returned(c);
      }
      var o := if c.DecidedTimeout? then TimedOut else InfrastructureError;
      lastOutcome := Some(o);
      outcomes := Counted(outcomes, o);
      r := Raised(OracleError);
    }

    /** Where nothing goes wrong, execution k on `data` is decided or fails as its evidence says. */
    ghost predicate Settles(k: nat, data: Content, r: Result<Classified>)
      reads this`expected, pg`s
    {
      && (r.Raised? ==> r.e == OracleError)
      && (pg.s.squatted == {} ==> (r.Returned? <==> Classify(cfg, expected, behaviour(k, data)).Decided?))
    }

    // ---- on the workspace ----

    method TryInWorkspace(ws: Workspace.Workspace, restoration: Workspace.Restoration)
      returns (r: Result<Classified>, ghost x: Trial)
      requires ws.pg == pg && ws.Valid()
      modifies this, ws, pg, pg.control
      ensures ws.Valid() && Moves(old(pg.s), pg.s, Some(WorkspaceClient)) && ws.name == old(ws.name)
      ensures SameSection(old(pg.control.State()), pg.control.State())
      ensures r.Returned? ==> restoration.Restores?
      ensures Tried(old(Now()), Now(), r, x)
      ensures x.Executed? ==> restoration.Restores? && Honest(cfg, behaviour, x.seen, x.verdict)
      ensures x.Executed? && pg.s.squatted == {} ==> Saw(x.seen, x.verdict, restoration.data, missed == old(missed))
      ensures r == Raised(OracleError) ==> x.Executed?
      ensures r == Raised(OracleError) && missed == old(missed) && pg.s.squatted == {} ==>
        Broke(Classify(cfg, expected, behaviour(executions, restoration.data)), lastOutcome)
      ensures r.Returned? ==> exists e :: r.value == Classify(cfg, expected, e)
      ensures r.Returned? && missed == old(missed) && pg.s.squatted == {} ==>
        restoration.Restores? && r.value == Classify(cfg, expected, behaviour(executions, restoration.data))
      ensures old(pg.Peaceful()) && old(ws.Healthy()) ==>
        && pg.Peaceful() && ws.Healthy() && missed == old(missed)
        && if restoration.Restores? then Settles(old(executions) + 1, restoration.data, r)
           else r == Raised(ClientError(restoration.reason))
    {
      hide Tracked, Moves, Consistent, SafeDrops, SameContent, Recalled;
      ghost var before := pg.s;
      var prepared := ws.Reset(restoration);
      if prepared.Raised? {
        return Raised(prepared.e), NotPrepared;
      }
      var raised := WaitHere(ws, before, restoration.data);
      if raised {
        return Raised(Cancelled), NotExecuted;
      }
      r, x := ExecuteInWorkspace(ws, before, restoration.data);
    }

    method ExecuteInWorkspace(ws: Workspace.Workspace, ghost base: ServerState, ghost data: Content)
      returns (r: Result<Classified>, ghost x: Trial)
      requires ws.pg == pg && ws.Valid() && Moves(base, pg.s, Some(WorkspaceClient))
      requires pg.s.squatted == {} ==> ws.Holds(data)
      modifies this, pg, pg.control
      ensures ws.Valid() && Moves(base, pg.s, Some(WorkspaceClient))
      ensures SameSection(old(pg.control.State()), pg.control.State())
      ensures Tried(old(Now()), Now(), r, x)
      ensures x.Executed? && Honest(cfg, behaviour, x.seen, x.verdict)
      ensures pg.s.squatted == {} ==> Saw(x.seen, x.verdict, data, missed == old(missed))
      ensures r == Raised(OracleError) && missed == old(missed) && pg.s.squatted == {} ==>
        Broke(Classify(cfg, expected, behaviour(executions, data)), lastOutcome)
      ensures r.Returned? ==> exists e :: r.value == Classify(cfg, expected, e)
      ensures r.Returned? && missed == old(missed) && pg.s.squatted == {} ==>
        r.value == Classify(cfg, expected, behaviour(executions, data))
      ensures old(pg.Peaceful()) && old(ws.Alive()) ==>
        pg.Peaceful() && ws.Alive() && missed == old(missed) && Settles(old(executions) + 1, data, r)
    {
      hide Workspace.Workspace.Valid, InOrder, Tracked, Moves, Consistent, SafeDrops, SameContent, Classify,
           Tried, Recalled;
      ghost var s := Now();
      executions := executions + 1;
      var raised := WaitHere(ws, base, data);
      if raised {
        cutOff := cutOff + 1;
        CutShort(s, Now(), None);
        return Raised(Cancelled), Executed(None, None);
      }
      var seen, c := ObserveWorkspace(ws, data);
      var left := Scribble(ws, base);
      if left == Raised(Cancelled) {
        cutOff := cutOff + 1;
        CutShort(s, Now(), seen);
        return Raised(Cancelled), Executed(seen, None);
      }
      r := Conclude(c);
      x := Executed(seen, Some(c));
      Concluded(s, Now(), c, r, seen);
    }

    method ObserveWorkspace(ws: Workspace.Workspace, ghost data: Content)
      returns (seen: Option<Content>, c: Classified)
      requires ws.pg == pg && ws.Valid()
      requires pg.s.squatted == {} ==> ws.Holds(data)
      modifies this`missed
      ensures exists e :: c == Classify(cfg, expected, e)
      ensures Honest(cfg, behaviour, seen, Some(c))
      ensures pg.s.squatted == {} ==> Saw(seen, Some(c), data, missed == old(missed))
      ensures missed >= old(missed)
      ensures missed == old(missed) && pg.s.squatted == {} ==> c == Classify(cfg, expected, behaviour(executions, data))
      ensures pg.calm && ws.Alive() ==> missed == old(missed)
    {
      hide Tracked, Moves, Consistent, SafeDrops, SameContent, Classify, Recalled;
      CatalogContent(pg.s);
      if pg.s.squatted == {} { NamesItself(WorkspaceClient, ws.Owned(), ws.Unproven(), pg.s, ws.name); }
      seen, c := Observe(ws.name);
    }

    /** The command leaves anything in the workspace. */
    method Scribble(ws: Workspace.Workspace, ghost base: ServerState) returns (left: Result<()>)
      requires ws.pg == pg && ws.Valid() && Moves(base, pg.s, Some(WorkspaceClient))
      modifies pg, pg.control
      ensures ws.Valid() && Moves(base, pg.s, Some(WorkspaceClient))
      ensures SameSection(old(pg.control.State()), pg.control.State())
      ensures pg.s.squatted == {} ==> old(pg.s.squatted) == {}
      ensures old(pg.Peaceful()) && old(ws.Alive()) ==> pg.Peaceful() && left.Returned? && ws.Alive()
    {
      hide Tracked, Moves, Consistent, SafeDrops, SameContent, Recalled;
      ghost var w := pg.s;
      var remains: Content := *;
      left := ws.Overwrite(remains);
      MovesTransitive(base, w, pg.s, Some(WorkspaceClient));
      if pg.s.squatted == {} { SquattingGrows(w, pg.s, Some(WorkspaceClient)); }
    }

    method WaitHere(ws: Workspace.Workspace, ghost base: ServerState, ghost data: Content) returns (raised: bool)
      requires ws.pg == pg && ws.Valid() && Moves(base, pg.s, Some(WorkspaceClient))
      requires pg.s.squatted == {} ==> ws.Holds(data)
      modifies pg, pg.control
      ensures ws.Valid() && Moves(base, pg.s, Some(WorkspaceClient))
      ensures SameSection(old(pg.control.State()), pg.control.State())
      ensures pg.s.squatted == {} ==> ws.Holds(data)
      ensures pg.calm ==> !raised && pg.s == old(pg.s) && pg.control.State() == old(pg.control.State())
    {
      hide Tracked, Moves, Consistent, SafeDrops, SameContent, Recalled;
      ghost var w := pg.s;
      raised := ws.Pause();
      MovesThenAlone(base, w, pg.s, Some(WorkspaceClient));
      if pg.s.squatted == {} { SquattingGrows(w, pg.s, None); }
    }

    // ---- on a clone ----

    method TryInClone(store: CloneStore.CloneStore, source: OwnedDatabase)
      returns (r: Result<Classified>, ghost x: Trial, clone: Option<OwnedDatabase>)
      requires store.pg == pg && store.Valid()
      modifies this, store, pg, pg.control
      ensures store.Valid() && Keeps(old(store.View()), store.View())
      ensures clone.Some? ==>
        && Borrowed(old(store.View()), store.View(), clone.value)
        && source.name in old(store.owned) && old(store.owned)[source.name] == source
      ensures clone.None? && r != Raised(Cancelled) ==> store.owned == old(store.owned)
      ensures Tried(old(Now()), Now(), r, x) && (r.Returned? ==> clone.Some?)
      ensures x.Executed? ==> Honest(cfg, behaviour, x.seen, x.verdict) && source.oid in old(pg.s.content)
      ensures x.Executed? && pg.s.squatted == {} ==>
        Saw(x.seen, x.verdict, old(pg.s.content)[source.oid], missed == old(missed))
      ensures r == Raised(OracleError) ==> x.Executed?
      ensures r == Raised(OracleError) && missed == old(missed) && pg.s.squatted == {} ==>
        Broke(Classify(cfg, expected, behaviour(executions, old(pg.s.content)[source.oid])), lastOutcome)
      ensures r.Returned? ==> exists e :: r.value == Classify(cfg, expected, e)
      ensures r.Returned? && missed == old(missed) && pg.s.squatted == {} ==>
        && source.oid in old(pg.s.content)
        && r.value == Classify(cfg, expected, behaviour(executions, old(pg.s.content)[source.oid]))
      ensures old(pg.Peaceful()) && old(store.Cloneable(pg.s, source)) && source.oid in old(store.frozen) ==>
        && pg.Peaceful() && clone.Some? && Adds(StoreClient, old(pg.s), pg.s, clone.value) && missed == old(missed)
        && source.oid in old(pg.s.content) && Settles(old(executions) + 1, old(pg.s.content)[source.oid], r)
    {
      hide Tracked, Moves, Consistent, SafeDrops, SameContent, CreatesOnly, Keeps, HoldsOn, Recalled, Broke,
           Classify, Settles;
      ghost var v := store.View();
      var made := store.Clone(source);
      if made.Raised? {
        ghost var n :| CreatesOnly(StoreClient, v, store.View(), n);
        CreatingKeeps(v, store.View(), n);
        return Raised(made.e), NotPrepared, None;
      }
      CreatingKeeps(v, store.View(), made.value.name);
      BorrowedNow(v, store.View(), made.value);
      RecordedHasContent(StoreClient, v.owned, v.unproven, v.s, source.name);
      ghost var data := v.s.content[source.oid];
      var raised := WaitOn(store, made.value, v, data);
      if raised {
        return Raised(Cancelled), NotPrepared, None;
      }
      clone := Some(made.value);
      raised := WaitOn(store, made.value, v, data);
      if raised {
        return Raised(Cancelled), NotExecuted, clone;
      }
      r, x := ExecuteInClone(store, made.value, v, data);
    }

    method WaitOn(store: CloneStore.CloneStore, clone: OwnedDatabase, ghost v: View, ghost data: Content)
      returns (raised: bool)
      requires store.pg == pg && store.Valid() && Keeps(v, store.View()) && Borrowed(v, store.View(), clone)
      requires pg.s.squatted == {} ==> Shows(pg.s, clone, data)
      modifies pg, pg.control
      ensures store.Valid() && Keeps(v, store.View()) && Borrowed(v, store.View(), clone)
      ensures pg.s.squatted == {} ==> Shows(pg.s, clone, data)
      ensures pg.calm ==> !raised && pg.s == old(pg.s) && pg.control.State() == old(pg.control.State())
    {
      hide Tracked, Moves, Consistent, SafeDrops, SameContent, Keeps, HoldsOn, Recalled;
      ghost var w := store.View();
      raised := store.Pause();
      WaitingKeeps(w, store.View());
      KeepsTransitive(v, w, store.View());
      RecordedContent(StoreClient, store.owned, store.unproven, w.s, pg.s, clone.name);
      if pg.s.squatted == {} { SquattingGrows(w.s, pg.s, None); }
    }

    method ExecuteInClone(store: CloneStore.CloneStore, clone: OwnedDatabase, ghost v: View, ghost data: Content)
      returns (r: Result<Classified>, ghost x: Trial)
      requires store.pg == pg && store.Valid() && Keeps(v, store.View()) && Borrowed(v, store.View(), clone)
      requires pg.s.squatted == {} ==> Shows(pg.s, clone, data)
      modifies this, pg, pg.control
      ensures store.Valid() && Keeps(v, store.View()) && Borrowed(v, store.View(), clone)
      ensures Tried(old(Now()), Now(), r, x)
      ensures x.Executed? && Honest(cfg, behaviour, x.seen, x.verdict)
      ensures pg.s.squatted == {} ==> Saw(x.seen, x.verdict, data, missed == old(missed))
      ensures r == Raised(OracleError) && missed == old(missed) && pg.s.squatted == {} ==>
        Broke(Classify(cfg, expected, behaviour(executions, data)), lastOutcome)
      ensures r.Returned? ==> exists e :: r.value == Classify(cfg, expected, e)
      ensures r.Returned? && missed == old(missed) && pg.s.squatted == {} ==>
        r.value == Classify(cfg, expected, behaviour(executions, data))
      ensures old(pg.Peaceful()) && clone.name in old(pg.s).catalog ==>
        && pg.Peaceful() && pg.s.catalog == old(pg.s).catalog && pg.s.running == old(pg.s).running
        && missed == old(missed) && Settles(old(executions) + 1, data, r)
    {
      hide Tracked, Moves, Consistent, SafeDrops, SameContent, Keeps, Classify, Borrowed, Shows, Tried, Recalled,
           CloneStore.CloneStore.Valid;
      ghost var s := Now();
      executions := executions + 1;
      var raised := WaitOn(store, clone, v, data);
      if raised {
        cutOff := cutOff + 1;
        CutShort(s, Now(), None);
        return Raised(Cancelled), Executed(None, None);
      }
      var seen, c := ObserveClone(store, clone, v, data);
      var left := ScribbleOn(store, clone, v);
      if left == Raised(Cancelled) {
        cutOff := cutOff + 1;
        CutShort(s, Now(), seen);
        return Raised(Cancelled), Executed(seen, None);
      }
      r := Conclude(c);
      x := Executed(seen, Some(c));
      Concluded(s, Now(), c, r, seen);
    }

    method ObserveClone(store: CloneStore.CloneStore, clone: OwnedDatabase, ghost v: View, ghost data: Content)
      returns (seen: Option<Content>, c: Classified)
      requires store.pg == pg && store.Valid() && Borrowed(v, store.View(), clone)
      requires pg.s.squatted == {} ==> Shows(pg.s, clone, data)
      modifies this`missed
      ensures exists e :: c == Classify(cfg, expected, e)
      ensures Honest(cfg, behaviour, seen, Some(c))
      ensures pg.s.squatted == {} ==> Saw(seen, Some(c), data, missed == old(missed))
      ensures missed >= old(missed)
      ensures missed == old(missed) && pg.s.squatted == {} ==> c == Classify(cfg, expected, behaviour(executions, data))
      ensures pg.calm && clone.name in pg.s.catalog ==> missed == old(missed)
    {
      hide Tracked, Moves, Consistent, SafeDrops, SameContent, Classify, Recalled;
      CatalogContent(pg.s);
      NamesItself(StoreClient, store.owned, store.unproven, pg.s, clone.name);
      seen, c := Observe(clone.name);
    }

    /** The command leaves anything in the clone. */
    method ScribbleOn(store: CloneStore.CloneStore, clone: OwnedDatabase, ghost v: View) returns (left: Result<()>)
      requires store.pg == pg && store.Valid() && Keeps(v, store.View()) && Borrowed(v, store.View(), clone)
      modifies pg, pg.control
      ensures store.Valid() && Keeps(v, store.View()) && Borrowed(v, store.View(), clone)
      ensures pg.s.squatted == {} ==> old(pg.s.squatted) == {}
      ensures old(pg.Peaceful()) && clone.name in old(pg.s).catalog ==>
        pg.Peaceful() && left.Returned? && pg.s.catalog == old(pg.s).catalog && pg.s.running == old(pg.s).running
    {
      hide Tracked, Moves, Consistent, SafeDrops, SameContent, Keeps, HoldsOn, Recalled;
      ghost var w := store.View();
      var remains: Content := *;
      left := store.WriteInto(clone, remains);
      WritingKeeps(v, w, store.View(), clone.name);
      if pg.s.squatted == {} { SquattingGrows(w.s, pg.s, Some(StoreClient)); }
    }

    /** `cleanup`: drop the clone. */
    method CleanUp(store: CloneStore.CloneStore, clone: OwnedDatabase, ghost v: View) returns (r: Result<()>)
      requires store.pg == pg && store.Valid() && Keeps(v, store.View()) && Borrowed(v, store.View(), clone)
      modifies store, pg, pg.control
      ensures store.Valid() && Keeps(v, store.View())
      ensures r.Returned? ==> Restored(v, store.View())
      ensures r.Raised? ==> r.e != OracleError
      ensures pg.s.squatted == {} ==> old(pg.s.squatted) == {}
      ensures old(pg.Peaceful()) && Adds(StoreClient, v.s, old(pg.s), clone) ==>
        pg.Peaceful() && r.Returned? && pg.s.catalog == v.s.catalog && pg.s.running == v.s.running
    {
      hide Tracked, Moves, Consistent, SafeDrops, SameContent, Keeps, HoldsOn, DropsAtMost, Recalled;
      ghost var w := store.View();
      r := store.Drop(clone);
      DroppingKeeps(v, w, store.View(), clone);
      DropsMoves(StoreClient, w, store.View(), clone);
      if pg.s.squatted == {} { SquattingGrows(w.s, pg.s, Some(StoreClient)); }
      if r.Returned? { DroppedRestores(v, w, store.View(), clone); }
    }

    // ---- rounds ----

    /** One `try`/`finally` of the loop. */
    method Round(target: Target, ghost data: Content) returns (r: Result<Classified>, ghost round: seq<Call>)
      requires Valid() && target.Ready(pg) && data == target.Data(pg)
      modifies this, target.Footprint(), pg, pg.control
      ensures target.Ready(pg) && Worked(target.InClone?, old(target.View()), target.View(), r.Returned?)
      ensures target.InClone? && r.Returned? ==>
        target.source.name in old(target.store.owned) && old(target.store.owned)[target.source.name] == target.source
      ensures target.InWorkspace? && r.Returned? ==> target.restoration.Restores?
      ensures r.Raised? ==> Follows(old(Now()), Now()) && (r.e == OracleError ==> cutOff == old(cutOff))
      ensures r.Returned? ==> r.value.Decided? && OneRound(old(Now()), Now(), r.value, round)
      ensures AllHonest(cfg, behaviour, calls)
      ensures pg.s.squatted == {} ==> SawOnly(calls, |old(calls)|, data, missed == old(missed))
      ensures r == Raised(OracleError) && missed == old(missed) && pg.s.squatted == {} ==>
        Broke(Classify(cfg, expected, behaviour(executions, data)), lastOutcome)
      ensures r.Returned? ==> exists e :: r.value == Classify(cfg, expected, e)
      ensures r.Returned? && missed == old(missed) && pg.s.squatted == {} ==>
        r.value == Classify(cfg, expected, behaviour(executions, data))
      ensures old(pg.Peaceful()) && old(target.Fit(pg)) && target.Restorable() ==>
        pg.Peaceful() && target.Fit(pg) && missed == old(missed) && Settles(old(executions) + 1, data, r)
      ensures old(pg.Peaceful()) && old(target.Fit(pg)) && !target.Restorable() ==>
        pg.Peaceful() && target.Fit(pg) && r == Raised(ClientError(target.restoration.reason))
      ensures old(pg.Peaceful()) && old(target.Fit(pg)) && target.InClone? ==>
        pg.s.catalog == old(pg.s).catalog && Restored(old(target.store.View()), target.store.View())
      ensures expected == old(expected)
    {
      hide AllHonest, Tracked, Moves, Consistent, SafeDrops, SameContent, Keeps, Classify, Tried, Follows,
           OneRound, Recalled;
      match target {
        case InWorkspace(ws, restoration) => r, round := RoundInWorkspace(ws, restoration);
        case InClone(store, source) => r, round := RoundInClone(store, source);
      }
    }

    method RoundInWorkspace(ws: Workspace.Workspace, restoration: Workspace.Restoration)
      returns (r: Result<Classified>, ghost round: seq<Call>)
      requires Valid() && ws.pg == pg && ws.Valid()
      modifies this, ws, pg, pg.control
      ensures ws.Valid() && Moves(old(pg.s), pg.s, Some(WorkspaceClient)) && ws.name == old(ws.name)
      ensures SameSection(old(pg.control.State()), pg.control.State())
      ensures r.Returned? ==> restoration.Restores?
      ensures r.Raised? ==> Follows(old(Now()), Now()) && (r.e == OracleError ==> cutOff == old(cutOff))
      ensures r.Returned? ==> r.value.Decided? && OneRound(old(Now()), Now(), r.value, round)
      ensures AllHonest(cfg, behaviour, calls)
      ensures pg.s.squatted == {} ==>
        SawOnly(calls, |old(calls)|, if restoration.Restores? then restoration.data else EMPTY, missed == old(missed))
      ensures r == Raised(OracleError) && missed == old(missed) && pg.s.squatted == {} ==>
        restoration.Restores? && Broke(Classify(cfg, expected, behaviour(executions, restoration.data)), lastOutcome)
      ensures r.Returned? ==> exists e :: r.value == Classify(cfg, expected, e)
      ensures r.Returned? && missed == old(missed) && pg.s.squatted == {} ==>
        restoration.Restores? && r.value == Classify(cfg, expected, behaviour(executions, restoration.data))
      ensures old(pg.Peaceful()) && old(ws.Healthy()) ==>
        && pg.Peaceful() && ws.Healthy() && missed == old(missed)
        && if restoration.Restores? then Settles(old(executions) + 1, restoration.data, r)
           else r == Raised(ClientError(restoration.reason))
      ensures expected == old(expected)
    {
      hide Saw, AllHonest, Tracked, Moves, Consistent, SafeDrops, SameContent, Classify, Follows, OneRound, Tried,
           SawOnly, InOrder, Recalled;
      ghost var s, x := Now(), NotPrepared;
      r, x := TryInWorkspace(ws, restoration);
      TriedCalls(s, Now(), r, x);
      round := Book(s, r, x, false, if restoration.Restores? then restoration.data else EMPTY, missed == s.missed);
    }

    /** Write the round down. */
    ghost method Book(s: Score, r: Result<Classified>, x: Trial, clone: bool, data: Content, all: bool)
      returns (round: seq<Call>)
      requires InOrder(s) && Tried(s, Now(), r, x) && AllHonest(cfg, behaviour, calls)
      requires x.Executed? ==> Honest(cfg, behaviour, x.seen, x.verdict)
      modifies this`calls
      ensures calls == s.calls + round
      ensures r.Raised? ==> Follows(s, Now()) && (r.e == OracleError ==> cutOff == s.cutOff)
      ensures r.Returned? ==>
        r.value.Decided? && OneRound(s, Now(), r.value, round) && Follows(s, Now().(cutOff := cutOff + 1))
      ensures (x.Executed? ==> Saw(x.seen, x.verdict, data, all)) ==> SawOnly(calls, |s.calls|, data, all)
      ensures AllHonest(cfg, behaviour, calls)
    {
      hide Follows, OneRound, InOrder, SawOnly, RoundOf, Saw, AllHonest, Honest;
      TriedCalls(s, Now(), r, x);
      TriedFollows(s, Now(), r, x, clone);
      SawNothing(calls, data, all);
      round := RoundOf(clone, x);
      if x.Executed? ==> Saw(x.seen, x.verdict, data, all) { SawRound(calls, |calls|, data, all, clone, x); }
      HonestRound(cfg, behaviour, calls, clone, x);
      calls := calls + round;
    }

    method RoundInClone(store: CloneStore.CloneStore, source: OwnedDatabase)
      returns (r: Result<Classified>, ghost round: seq<Call>)
      requires Valid() && store.pg == pg && store.Valid()
      modifies this, store, pg, pg.control
      ensures store.Valid() && Keeps(old(store.View()), store.View())
      ensures r.Returned? ==> Restored(old(store.View()), store.View())
      ensures r.Returned? ==> source.name in old(store.owned) && old(store.owned)[source.name] == source
      ensures r.Raised? ==> Follows(old(Now()), Now()) && (r.e == OracleError ==> cutOff == old(cutOff))
      ensures r.Returned? ==> r.value.Decided? && OneRound(old(Now()), Now(), r.value, round)
      ensures AllHonest(cfg, behaviour, calls)
      ensures pg.s.squatted == {} ==>
        SawOnly(calls, |old(calls)|, if source.oid in old(pg.s.content) then old(pg.s.content)[source.oid] else EMPTY,
                missed == old(missed))
      ensures r == Raised(OracleError) && missed == old(missed) && pg.s.squatted == {} ==>
        && source.oid in old(pg.s.content)
        && Broke(Classify(cfg, expected, behaviour(executions, old(pg.s.content)[source.oid])), lastOutcome)
      ensures r.Returned? ==> exists e :: r.value == Classify(cfg, expected, e)
      ensures r.Returned? && missed == old(missed) && pg.s.squatted == {} ==>
        && source.oid in old(pg.s.content)
        && r.value == Classify(cfg, expected, behaviour(executions, old(pg.s.content)[source.oid]))
      ensures old(pg.Peaceful()) && old(store.Cloneable(pg.s, source)) && source.oid in old(store.frozen) ==>
        && pg.Peaceful() && pg.s.catalog == old(pg.s).catalog && pg.s.running == old(pg.s).running
        && Restored(old(store.View()), store.View()) && missed == old(missed)
        && source.oid in old(pg.s.content) && Settles(old(executions) + 1, old(pg.s.content)[source.oid], r)
      ensures expected == old(expected)
    {
      hide Honest, CloneStore.CloneStore.Valid, Target.Data, Saw, AllHonest, Tracked, Moves, Consistent,
           SafeDrops, SameContent, Keeps, Classify, Follows, OneRound, Borrowed, Restored, Tried, SawOnly,
           InOrder, RoundOf, Adds, Intact, Recalled, Broke;
      ghost var s, x, v := Now(), NotPrepared, store.View();
      var clone;
      r, x, clone := TryInClone(store, source);
      TriedCalls(s, Now(), r, x);
      round := Book(s, r, x, true, if source.oid in v.s.content then v.s.content[source.oid] else EMPTY,
                    missed == s.missed);
      if clone.Some? {
        var cleaned := CleanUp(store, clone.value, v);
        if cleaned.Raised? {
          if r.Returned? {
            cutOff := cutOff + 1;
          }
          r := Raised(cleaned.e);
        }
      }
    }

    /** `fails`: whether every one of `confirm` executions reproduces the expected failure. */
    method Fails(target: Target) returns (r: Result<bool>)
      requires Valid() && target.Ready(pg)
      modifies this, target.Footprint(), pg, pg.control
      ensures Valid() && target.Ready(pg)
      ensures Worked(target.InClone?, old(target.View()), target.View(), r.Returned?)
      ensures target.InWorkspace? && r.Returned? ==> target.restoration.Restores?
      ensures pg.s.squatted == {} ==> SawOnly(calls, |old(calls)|, old(target.Data(pg)), missed == old(missed))
      ensures r == Raised(OracleError) && missed == old(missed) && pg.s.squatted == {}
              && Steady(behaviour, old(target.Data(pg))) ==>
        Reproduced(cfg, old(expected), behaviour(0, old(target.Data(pg)))).None? && expected == old(expected)
      ensures Follows(old(Now()), Now()) && (r == Raised(OracleError) ==> cutOff == old(cutOff))
      ensures r.Returned? ==> Consulted(old(Now()), Now(), confirm, r.value)
      ensures r.Returned? ==> lastOutcome.Some? && executions > old(executions)
      ensures r.Returned? && missed == old(missed) && pg.s.squatted == {} ==>
        Witnessed(cfg, behaviour, old(target.Data(pg)), old(Now()), Now(), confirm, r.value)
      ensures r == Raised(OracleError) && missed == old(missed) && pg.s.squatted == {} ==>
        BrokeOn(cfg, behaviour(executions, old(target.Data(pg))), lastOutcome)
      ensures r.Returned? && missed == old(missed) && pg.s.squatted == {} ==>
        Ran(calls, old(target.Data(pg)), lastOutcome.value)
      ensures r.Returned? && missed == old(missed) && pg.s.squatted == {} && Steady(behaviour, old(target.Data(pg))) ==>
        Decides(cfg, old(Now()), Now(), behaviour(0, old(target.Data(pg))), r.value)
      ensures old(pg.Peaceful()) && old(target.Fit(pg)) && target.Restorable() ==>
        && pg.Peaceful() && target.Fit(pg) && missed == old(missed)
        && (r.Raised? ==> r.e == OracleError)
        && (pg.s.squatted == {} && Steady(behaviour, old(target.Data(pg))) ==>
             (r.Returned? <==> Reproduced(cfg, old(expected), behaviour(0, old(target.Data(pg)))).Some?))
        && (pg.s.squatted == {} && Decisive(cfg, behaviour, old(target.Data(pg))) ==> r.Returned?)
      ensures old(pg.Peaceful()) && old(target.Fit(pg)) && target.InClone? ==> pg.s.catalog == old(pg.s).catalog
    {
      hide SawOnly, Ran, Orderly, Executions, Locked, Saw, AllHonest, Tracked, Moves, Consistent, SafeDrops,
           SameContent, Keeps, Classify, Follows, OneRound, Worked, Confirming, Denied, Decides, Steady, Decisive,
           Reproduced, Target.Fit, Target.Ready, InOrder, Recalled, Total, ShowsTimeout, ShowsNothing, ShowsSame,
           ShowsNone, ShowsInvalid, ShowsDifferent, Witnessed, Broke, BrokeOn, Consulted;
      ghost var s, v, data := Now(), target.View(), target.Data(pg);
      NothingDone(s);
      SawNothing(calls, data, true);
      WorkedRefl(target.InClone?, v);
      for i := 0 to confirm
        invariant Valid() && target.Ready(pg) && Worked(target.InClone?, v, target.View(), true)
        invariant i > 0 && target.InWorkspace? ==> target.restoration.Restores?
        invariant pg.s.squatted == {} ==> SawOnly(calls, |s.calls|, data, missed == s.missed)
        invariant Confirming(s, Now(), i)
        invariant pg.s.squatted == {} ==> target.Data(pg) == data
        invariant executions == s.executions + i && (i == 0 ==> expected == s.expected)
        invariant i > 0 && missed == s.missed && pg.s.squatted == {} ==>
          Witnessed(cfg, behaviour, data, s, Now(), i, true)
        invariant i > 0 && missed == s.missed && pg.s.squatted == {} && Steady(behaviour, data) ==>
          Decides(cfg, s, Now(), behaviour(0, data), true)
        invariant old(pg.Peaceful()) && old(target.Fit(pg)) && target.Restorable() ==>
          pg.Peaceful() && target.Fit(pg) && missed == s.missed
        invariant old(pg.Peaceful()) && old(target.Fit(pg)) && target.InClone? ==> pg.s.catalog == old(pg.s).catalog
      {
        ghost var t := Now();
        ConfirmingFollows(s, t, i);
        SameBehaviour(behaviour, data, executions + 1);
        DecisiveAt(cfg, behaviour, data, expected, executions + 1);
        r := Once(target, s, v, data, i);
        FirstDecides(cfg, s, t, Now(), behaviour(0, data), i);
        ShowsMore(cfg, behaviour, data, s, t, Now(), confirm, i, r == Returned(true));
        BrokeMeans(cfg, expected, behaviour(executions, data), lastOutcome);
        if r.Raised? || !r.value {
          return;
        }
      }
      ConfirmedConsults(s, Now(), confirm);
      ConsultedRan(s, Now(), confirm, true, data);
      ConfirmingFollows(s, Now(), confirm);
      DecidedEither(cfg, s, Now(), behaviour(0, data));
      r := Returned(true);
    }

    /** The loop body. */
    method Once(target: Target, ghost s: Score, ghost v: View, ghost data: Content, ghost i: nat)
      returns (r: Result<bool>)
      requires Valid() && target.Ready(pg) && Worked(target.InClone?, v, target.View(), true)
      requires InOrder(s) && Confirming(s, Now(), i) && i < confirm
      requires pg.s.squatted == {} ==> target.Data(pg) == data
      requires i > 0 && missed == s.missed && pg.s.squatted == {} && Steady(behaviour, data) ==>
        Decides(cfg, s, Now(), behaviour(0, data), true)
      requires pg.s.squatted == {} ==> SawOnly(calls, |s.calls|, data, missed == s.missed)
      modifies this, target.Footprint(), pg, pg.control
      ensures Valid() && target.Ready(pg)
      ensures Worked(target.InClone?, v, target.View(), r.Returned?)
      ensures target.InWorkspace? && r.Returned? ==> target.restoration.Restores?
      ensures pg.s.squatted == {} ==> SawOnly(calls, |s.calls|, data, missed == s.missed)
      ensures Follows(s, Now()) && (r == Raised(OracleError) ==> cutOff == s.cutOff)
      ensures old(missed) <= missed
      ensures r == Raised(OracleError) ==> expected == old(expected)
      ensures r == Returned(true) ==> Confirming(s, Now(), i + 1)
      ensures r == Returned(false) ==> Denied(s, Now(), i) && Consulted(s, Now(), confirm, false)
      ensures r == Returned(false) ==> lastOutcome.Some? && executions > s.executions
      ensures r == Returned(false) && missed == s.missed && pg.s.squatted == {} ==> Ran(calls, data, lastOutcome.value)
      ensures pg.s.squatted == {} && r.Returned? ==> target.Data(pg) == data
      ensures r.Returned? ==> executions == old(executions) + 1
      ensures r.Returned? && missed == s.missed && pg.s.squatted == {} ==>
        Decides(cfg, old(Now()), Now(), behaviour(executions, data), r.value)
      ensures r == Raised(OracleError) && missed == old(missed) && pg.s.squatted == {} ==>
        Broke(Classify(cfg, expected, behaviour(executions, data)), lastOutcome)
      ensures r.Returned? && missed == s.missed && pg.s.squatted == {} && Steady(behaviour, data) ==>
          Decides(cfg, s, Now(), behaviour(0, data), r.value)
      ensures r == Raised(OracleError) && missed == s.missed && pg.s.squatted == {} && Steady(behaviour, data) ==>
        Reproduced(cfg, s.expected, behaviour(0, data)).None? && expected == s.expected
      ensures old(pg.Peaceful()) && old(target.Fit(pg)) && target.Restorable() ==>
        && pg.Peaceful() && target.Fit(pg) && missed == old(missed)
        && (r.Raised? ==> r.e == OracleError)
        && (pg.s.squatted == {} ==>
             (r.Returned? <==> Classify(cfg, old(expected), behaviour(old(executions) + 1, data)).Decided?))
      ensures old(pg.Peaceful()) && old(target.Fit(pg)) && target.InClone? ==> pg.s.catalog == old(pg.s).catalog
      ensures pg.s.squatted == {} ==> old(pg.s.squatted) == {}
    {
      hide AllHonest, Tracked, Moves, Consistent, SafeDrops, SameContent, Keeps, Classify, Follows, OneRound,
           Worked, Confirming, Denied, Decides, Steady, Target.Ready, Target.Data, Target.Fit, SawOnly, InOrder,
           Reproduced, Locked, Recalled, Broke, Consulted, Ran;
      ghost var t := Now();
      ConfirmingFollows(s, t, i);
      var verdict;
      ghost var round;
      verdict, round := RoundFrom(target, s, v, data);
      SameBehaviour(behaviour, data, executions);
      OnlyFirstUndecided(cfg, s, t, behaviour(0, data), i);
      BrokeUndecided(Classify(cfg, expected, behaviour(executions, data)), lastOutcome);
      if verdict.Raised? {
        return Raised(verdict.e);
      }
      r := Finish(target, s, t, v, data, i, verdict.value, round);
      Unsettled(target.InClone?, v, target.View());
      DeniedConsults(s, Now(), confirm, i);
      if r == Returned(false) { ConsultedRan(s, Now(), confirm, false, data); }
    }

    /** The statements after the `finally`. */
    method Finish(target: Target, ghost s: Score, ghost t: Score, ghost v: View, ghost data: Content, ghost i: nat,
                  c: Classified, ghost round: seq<Call>) returns (r: Result<bool>)
      requires target.Ready(pg) && Worked(target.InClone?, v, target.View(), true) && confirm >= 1
      requires Confirming(s, t, i) && OneRound(t, Now(), c, round) && c.Decided? && t.expected == expected
      requires AllHonest(cfg, behaviour, calls)
      requires target.InClone? ==>
        target.source.name in target.store.owned && target.store.owned[target.source.name] == target.source
      requires exists e :: c == Classify(cfg, expected, e)
      requires pg.s.squatted == {} ==> target.Data(pg) == data
      requires missed == s.missed && pg.s.squatted == {} && Steady(behaviour, data) ==>
        && c == Classify(cfg, expected, behaviour(0, data))
        && (i > 0 ==> Decides(cfg, s, t, behaviour(0, data), true))
      requires pg.s.squatted == {} ==> SawOnly(calls, |s.calls|, data, missed == s.missed)
      requires missed == s.missed && pg.s.squatted == {} ==> c == Classify(cfg, expected, behaviour(executions, data))
      modifies this, pg, pg.control
      ensures executions == old(executions)
      ensures r.Returned? && missed == s.missed && pg.s.squatted == {} ==>
        Decides(cfg, t, Now(), behaviour(executions, data), r.value)
      ensures Valid() && target.Ready(pg)
      ensures Worked(target.InClone?, v, target.View(), true)
      ensures pg.s.squatted == {} ==> SawOnly(calls, |s.calls|, data, missed == s.missed)
      ensures Follows(s, Now()) && (r == Raised(OracleError) ==> cutOff == s.cutOff)
      ensures r == Returned(true) ==> Confirming(s, Now(), i + 1)
      ensures r == Returned(false) ==> Denied(s, Now(), i)
      ensures pg.s.squatted == {} && r.Returned? ==> target.Data(pg) == data
      ensures r.Returned? && missed == s.missed && pg.s.squatted == {} && Steady(behaviour, data) ==>
          Decides(cfg, s, Now(), behaviour(0, data), r.value)
      ensures r.Raised? ==> r.e == Cancelled
      ensures missed == old(missed)
      ensures old(pg.Peaceful()) ==>
        pg.Peaceful() && r.Returned? && pg.s == old(pg.s) && (old(target.Fit(pg)) ==> target.Fit(pg))
      ensures pg.s.squatted == {} ==> old(pg.s.squatted) == {}
    {
      hide AllHonest, Tracked, Moves, Consistent, SafeDrops, SameContent, Keeps, Classify, Follows, OneRound,
           Worked, Confirming, Denied, Decides, Steady, Reproduced, Locked, InOrder, Recalled;
      var raised := Rest(target, v, data);
      if raised {
        ConfirmingFollows(s, t, i);
        CutAfter(s, t, Now(), c, round);
        cutOff := cutOff + 1;
        FollowsInOrder(s, Now());
        return Raised(Cancelled);
      }
      r := Keep(s, t, c, round, i, behaviour(0, data),
        missed == s.missed && pg.s.squatted == {} && Steady(behaviour, data));
      DecidedNow(cfg, t, Now(), behaviour(executions, data), c, r.value);
    }

    method CheckpointFirst(target: Target, ghost v: View) returns (raised: bool)
      requires target.Ready(pg) && Worked(target.InClone?, v, target.View(), true)
      modifies pg.control
      ensures target.Ready(pg) && Worked(target.InClone?, v, target.View(), !raised)
      ensures target.Data(pg) == old(target.Data(pg))
      ensures old(pg.Peaceful()) ==> pg.Peaceful() && !raised
      ensures pg.s == old(pg.s)
    {
      hide Tracked, Moves, Consistent, SafeDrops, SameContent, Keeps, Worked, Recalled;
      ghost var w := target.View();
      raised := pg.control.CheckpointHere();
      CheckpointWorks(target.InClone?, v, w, target.View(), !raised);
    }

    /** The checkpoint and a round, seen from the start of the call. */
    method RoundFrom(target: Target, ghost s: Score, ghost v: View, ghost data: Content)
      returns (verdict: Result<Classified>, ghost round: seq<Call>)
      requires Valid() && target.Ready(pg) && Worked(target.InClone?, v, target.View(), true)
      requires Follows(s, Now()) && cutOff == s.cutOff
      requires pg.s.squatted == {} ==> target.Data(pg) == data
      requires pg.s.squatted == {} ==> SawOnly(calls, |s.calls|, data, missed == s.missed)
      modifies this, target.Footprint(), pg, pg.control
      ensures target.Ready(pg) && Worked(target.InClone?, v, target.View(), verdict.Returned?)
      ensures target.InWorkspace? && verdict.Returned? ==> target.restoration.Restores?
      ensures verdict.Raised? ==> Valid() && Follows(s, Now()) && (verdict.e == OracleError ==> cutOff == s.cutOff)
      ensures verdict.Returned? ==> verdict.value.Decided? && OneRound(old(Now()), Now(), verdict.value, round)
      ensures verdict.Returned? ==> executions == old(executions) + 1
      ensures pg.s.squatted == {} ==> SawOnly(calls, |s.calls|, data, missed == s.missed)
      ensures verdict.Returned? ==> exists e :: verdict.value == Classify(cfg, expected, e)
      ensures verdict.Returned? && pg.s.squatted == {} ==> target.Data(pg) == data && old(pg.s.squatted) == {}
      ensures verdict.Returned? ==> expected == old(expected) && missed >= old(missed)
      ensures verdict.Returned? && target.InClone? ==>
        target.source.name in target.store.owned && target.store.owned[target.source.name] == target.source
      ensures verdict.Returned? && missed == old(missed) && pg.s.squatted == {} ==>
        verdict.value == Classify(cfg, expected, behaviour(executions, data))
      ensures old(missed) <= missed
      ensures AllHonest(cfg, behaviour, calls)
      ensures verdict == Raised(OracleError) && missed == old(missed) && pg.s.squatted == {} ==>
        Broke(Classify(cfg, expected, behaviour(executions, data)), lastOutcome)
      ensures old(pg.Peaceful()) && old(target.Fit(pg)) && target.Restorable() ==>
        pg.Peaceful() && target.Fit(pg) && missed == old(missed) && Settles(old(executions) + 1, data, verdict)
      ensures old(pg.Peaceful()) && old(target.Fit(pg)) && target.InClone? ==> pg.s.catalog == old(pg.s).catalog
      ensures expected == old(expected)
      ensures pg.s.squatted == {} ==> old(pg.s.squatted) == {}
    {
      hide AllHonest, Tracked, Moves, Consistent, SafeDrops, SameContent, Keeps, Classify, Follows, OneRound,
           Worked, Recalled, SawOnly, InOrder, Settles, Target.Fit;
      FollowsInOrder(s, Now());
      var raised := CheckpointFirst(target, v);
      if raised {
        return Raised(Cancelled), [];
      }
      ghost var w, t := target.View(), Now();
      verdict, round := Round(target, target.Data(pg));
      WorkedTransitive(target.InClone?, v, w, target.View(), verdict.Returned?);
      CallsKept(t, Now(), verdict, round);
      FollowsMeans(s, t);
      if pg.s.squatted == {} {
        WorkedSquatting(target.InClone?, w, target.View(), verdict.Returned?);
        SawBoth(t.calls, calls, |s.calls|, data, t.missed == s.missed, missed == t.missed);
      }
      if verdict.Raised? {
        FollowsTransitive(s, t, Now());
        FollowsInOrder(t, Now());
      } else {
        OneRoundScore(t, Now(), verdict.value, round);
        if target.InClone? {
          SourceStays(w, target.View(), target.source, true);
          if pg.s.squatted == {} { SourceKept(w, target.View(), target.source); }
        }
      }
    }

    /** Between the round and the next statement. */
    method Rest(target: Target, ghost v: View, ghost data: Content) returns (raised: bool)
      requires target.Ready(pg) && Worked(target.InClone?, v, target.View(), true)
      requires pg.s.squatted == {} ==> target.Data(pg) == data
      requires target.InClone? ==>
        target.source.name in target.store.owned && target.store.owned[target.source.name] == target.source
      modifies pg, pg.control
      ensures target.Ready(pg) && Worked(target.InClone?, v, target.View(), true)
      ensures pg.s.squatted == {} ==> target.Data(pg) == data && old(pg.s.squatted) == {}
      ensures pg.calm ==> !raised && pg.s == old(pg.s) && pg.control.State() == old(pg.control.State())
    {
      hide Tracked, Moves, Consistent, SafeDrops, SameContent, Keeps, Worked, Recalled;
      ghost var w := target.View();
      match target {
        case InWorkspace(ws, _) =>
          raised := ws.Pause();
          WorkspaceWaited(v, w, target.View());
        case InClone(store, source) =>
          raised := store.Pause();
          CloneWaited(v, w, target.View());
          WaitingKeeps(w, target.View());
          if pg.s.squatted == {} { SourceKept(w, target.View(), source); }
      }
      if pg.s.squatted == {} { SquattingGrows(w.s, pg.s, None); }
    }

    /** Count the outcome and keep the identity. */
    method Keep(ghost s: Score, ghost t: Score, c: Classified, ghost round: seq<Call>, ghost i: nat,
                ghost e: Evidence, ghost steady: bool) returns (r: Result<bool>)
      requires Confirming(s, t, i) && OneRound(t, Now(), c, round) && c.Decided? && confirm >= 1
      requires AllHonest(cfg, behaviour, calls)
      requires exists f :: c == Classify(cfg, t.expected, f)
      requires steady ==> c == Classify(cfg, t.expected, e) && (i > 0 ==> Decides(cfg, s, t, e, true))
      modifies this
      ensures Valid() && Follows(s, Now()) && cutOff == s.cutOff && r.Returned?
      ensures if r.value then Confirming(s, Now(), i + 1) else Denied(s, Now(), i)
      ensures missed == old(missed) && calls == old(calls) && executions == old(executions)
      ensures lastOutcome == Some(c.outcome) && expected == Locked(old(expected), c) && (r.value <==> c.outcome.SameFailure?)
      ensures steady ==> Decides(cfg, s, Now(), e, r.value)
    {
      hide AllHonest, Confirming, Denied, OneRound, Follows, Classify, Decides, InOrder;
      ghost var u := Now();
      ClassifiedFacts(cfg, t.expected, c);
      OneRoundScore(t, u, c, round);
      RoundScored(s, t, u, i, c, round);
      if steady {
        if i == 0 { NothingYetDone(s, t); }
        DecidesAgain(cfg, s, t, e, c);
        SameDecided(cfg, s, t, u, e, c);
      }
      lastOutcome := Some(c.outcome);
      outcomes := Counted(outcomes, c.outcome);
      finalSignature := c.identity;
      if !c.outcome.SameFailure? {
        assert Now() == Scored(u, c);
        DeniedFollows(s, Now(), i);
        FollowsInOrder(s, Now());
        return Returned(false);
      }
      if expected.None? {
        expected := c.identity;
      }
      assert Now() == Scored(u, c);
      ConfirmingFollows(s, Now(), i + 1);
      FollowsInOrder(s, Now());
      r := Returned(true);
    }
  }

  /** Nothing is recorded beyond what was before but `clone`. */
  ghost predicate Borrowed(v: View, w: View, clone: OwnedDatabase) {
    && clone.name !in v.owned && w.owned == v.owned[clone.name := clone] && w.unproven == v.unproven
    && w.frozen == v.frozen
  }

  lemma BorrowedNow(v: View, w: View, clone: OwnedDatabase)
    requires CreatesOnly(StoreClient, v, w, clone.name) && clone.name !in v.owned
    requires clone.name in w.owned && w.owned[clone.name] == clone && w.unproven == v.unproven
    ensures Borrowed(v, w, clone)
  {
    hide Moves, SameContent;
  }

  lemma DroppedRestores(v: View, w: View, x: View, clone: OwnedDatabase)
    requires Borrowed(v, w, clone) && DropsAtMost(StoreClient, w, x, clone) && x.owned == w.owned - {clone.name}
    ensures Restored(v, x)
  {
    hide Moves, SameContent, DropsOnly;
  }
}
