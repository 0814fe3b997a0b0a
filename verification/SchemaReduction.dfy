/** Removing whole tables from an archive (postgres/schema_reduction.py, `SchemaReducer`). */
module SchemaReduction {
  import opened Wrappers
  import opened Ordering
  import opened Schema
  import opened Server
  import opened Cancellation
  import opened Cluster
  import opened Tracking
  import opened Verdicts
  import opened Ddmin
  import opened TocFields
  import Removal
  import W = Workspace
  import Oracle

  /** The seven ways an attempt is counted. */
  datatype Verdict =
    | BugDisappeared | FailedDifferently | FoundInvalid | InvalidSchemaFound | ConstraintRejected | InfrastructureFault
    | AcceptedCandidate

  /** Removing `group` alone was tried under `plan` and refused. */
  ghost predicate Tried(trials: seq<Trial>, from: nat, plan: Plan, group: set<TableKey>) {
    exists i ::
      from <= i < |trials| && trials[i].plan == plan && trials[i].group == group && !trials[i].verdict.AcceptedCandidate?
  }

  lemma TriedMore(a: seq<Trial>, b: seq<Trial>, from: nat, plan: Plan, group: set<TableKey>, last: set<TableKey>)
    requires |b| == |a| + 1 && b[..|a|] == a && from <= |a|
    requires Tried(a, from, plan, group) || group == last
    requires b[|a|].plan == plan && b[|a|].group == last && !b[|a|].verdict.AcceptedCandidate?
    ensures Tried(b, from, plan, group)
  {
    if Tried(a, from, plan, group) {
      var i :| from <= i < |a| && a[i].plan == plan && a[i].group == group && !a[i].verdict.AcceptedCandidate?;
      assert b[..|a|][i] == b[i];
    }
  }

  function GroupOf(chunk: seq<TableKey>): set<TableKey> {
    set k | k in chunk
  }

  lemma GroupsFit(ordered: seq<TableKey>, size: nat, keys: set<TableKey>)
    requires size > 0 && forall k :: k in ordered ==> k in keys
    ensures forall c :: c in Chunks(ordered, size) ==> c != [] && GroupOf(c) <= keys && GroupOf(c) != {}
  {
    forall c | c in Chunks(ordered, size) ensures c != [] && GroupOf(c) <= keys && GroupOf(c) != {} {
      var i :| 0 <= i < |Chunks(ordered, size)| && Chunks(ordered, size)[i] == c;
      assert c[0] in GroupOf(c);
    }
  }

  /** What pg_dump, pg_restore and the catalog make of a content: the listing of its archive,
      the catalog entries in it, the dependencies, the oids of its tables, and what restoring
      number i does with a part of the archive or with all of it. */
  datatype World = World(
    toc: Content -> seq<Bytes>, objects: Content -> seq<Removal.SchemaObject>, catalog: Content -> Removal.Catalog,
    oid: (Content, TableKey) -> int, restore: (nat, Content, seq<Bytes>) -> W.Restoration,
    reload: (nat, Content) -> Option<RestoreReason>, cfg: Config, behaviour: (nat, Content) -> Evidence)

  /** `pg_restore` of a whole archive: its content, or a reason to stop. */
  function Reload(w: World, i: nat, archive: Content): W.Restoration {
    if w.reload(i, archive).Some? then W.Stops(w.reload(i, archive).value) else W.Restores(archive)
  }

  /** A whole archive always restores, an archive without some of its entries stops only for a
      reason that is a refusal. */
  ghost predicate Reliable(w: World) {
    && (forall i, c :: w.reload(i, c).None?)
    && (forall i, c, x :: Stoppable(w.restore(i, c, Removal.SelectedLines(w.toc(c), x))))
  }

  /** The listing of the plan is that of its archive. */
  ghost predicate Planned(w: World, plan: Plan) {
    plan.toc == w.toc(plan.archive)
  }

  predicate Stoppable(restoration: W.Restoration) {
    restoration.Stops? ==> Rejection(restoration.reason).Some?
  }

  function TablesOf(w: World, data: Content): Removal.Tables {
    map k | k in data.rows :: (w.oid(data, k), |data.rows[k]|)
  }

  /** Everything read before the candidates of one round. */
  datatype Plan = Plan(archive: Content, toc: seq<Bytes>, objects: seq<Removal.SchemaObject>, catalog: Removal.Catalog,
                       tables: Removal.Tables, ids: map<TableKey, set<int>>)
  {
    /** The closure of each table alone. */
    ghost predicate Valid() {
      && ids.Keys == tables.Keys
      && forall k :: k in ids ==> ids[k] == Removal.RemovalIds(catalog, objects, {k}, tables)
    }
  }

  /** What is read before the candidates of a round on this archive. */
  ghost function PlanOf(w: World, archive: Content): (plan: Plan)
    ensures plan.Valid()
  {
    var tables, objects, catalog := TablesOf(w, archive), w.objects(archive), w.catalog(archive);
    Plan(archive, w.toc(archive), objects, catalog, tables,
         map k | k in tables :: Removal.RemovalIds(catalog, objects, {k}, tables))
  }

  lemma PlanTables(w: World, archive: Content)
    ensures PlanOf(w, archive).tables.Keys == archive.rows.Keys && PlanOf(w, archive).archive == archive
  {
  }

  /** `sorted(tables, key=...)`: empty tables first, then by name. */
  function Ordered(tables: Removal.Tables): (r: seq<TableKey>)
    ensures forall k :: k in r <==> k in tables
    ensures |r| == |tables|
  {
    var empty := set k | k in tables && tables[k].1 <= 0;
    var full := set k | k in tables && tables[k].1 > 0;
    assert empty + full == tables.Keys && empty * full == {};
    SortedKeys(empty) + SortedKeys(full)
  }

  /** One attempt: its number, the identity expected then, which tables and entries went, how
      it was counted, and the archive after it. */
  datatype Trial = Trial(number: nat, expected: Option<Identity>, plan: Plan, group: set<TableKey>,
                         excluded: set<int>, verdict: Verdict, archive: Content)

  /** The entries left out are those that removing the whole group at once would close over. */
  ghost predicate Sound(plan: Plan, group: set<TableKey>, excluded: set<int>) {
    && group <= plan.tables.Keys
    && excluded == Removal.RemovalIds(plan.catalog, plan.objects, group, plan.tables)
  }

  function Rejections(outcomes: map<Verdict, nat>): nat {
    Tally(outcomes, BugDisappeared) + Tally(outcomes, FailedDifferently) + Tally(outcomes, FoundInvalid)
    + Tally(outcomes, InvalidSchemaFound) + Tally(outcomes, ConstraintRejected) + Tally(outcomes, InfrastructureFault)
  }

  lemma RejectionCounted(outcomes: map<Verdict, nat>, v: Verdict)
    ensures Rejections(Counted(outcomes, v)) == Rejections(outcomes) + (if v.AcceptedCandidate? then 0 else 1)
    ensures Tally(Counted(outcomes, v), AcceptedCandidate)
         == Tally(outcomes, AcceptedCandidate) + (if v.AcceptedCandidate? then 1 else 0)
  {
  }

  /** How a restore that stopped is counted; None means the error is passed on. */
  function Rejection(reason: RestoreReason): Option<Verdict> {
    match reason
    case ConstraintViolation => Some(ConstraintRejected)
    case MissingDependency => Some(InvalidSchemaFound)
    case InvalidSchema => Some(InvalidSchemaFound)
    case OtherReason => None
  }

  function RejectionOf(reason: RestoreReason): Verdict {
    if Rejection(reason).Some? then Rejection(reason).value else InfrastructureFault
  }

  function OfOutcome(o: Outcome): Verdict {
    match o
    case NotReproduced => BugDisappeared
    case CandidateInvalid => FoundInvalid
    case DifferentFailure => FailedDifferently
    case _ => InfrastructureFault
  }

  /** The archive is what restoring the plan's archive left, given a list of exactly its entries
      but the excluded ones, in order. */
  ghost predicate Derived(w: World, i: nat, plan: Plan, excluded: set<int>, archive: Content) {
    exists lines ::
      && |lines| == |plan.toc| && Removal.Entries(lines) == Removal.Kept(Removal.Entries(plan.toc), excluded)
      && w.restore(i, plan.archive, lines) == W.Restores(archive)
  }

  lemma DerivedBy(w: World, i: nat, plan: Plan, excluded: set<int>, archive: Content, lines: seq<Bytes>)
    requires |lines| == |plan.toc| && Removal.Entries(lines) == Removal.Kept(Removal.Entries(plan.toc), excluded)
    requires w.restore(i, plan.archive, lines) == W.Restores(archive)
    ensures Derived(w, i, plan, excluded, archive)
  {
    hide Removal.Entries, Removal.Kept;
  }

  // ---- what an attempt comes to ----

  /** A counted refusal, a smaller archive, or an error that is passed on. */
  datatype Ruling = Refusal(verdict: Verdict) | Replacement(archive: Content) | Stop

  function OfReason(reason: RestoreReason): Ruling {
    match Rejection(reason)
    case Some(v) => Refusal(v)
    case None => Stop
  }

  /** What the attempt number `i` to remove `group` comes to, for the restores, the tables left
      and the oracle's evidence; `expected` is the identity to preserve. */
  ghost function RulingOn(w: World, i: nat, expected: Option<Identity>, plan: Plan, group: set<TableKey>): Ruling {
    var excluded := Removal.RemovalIds(plan.catalog, plan.objects, group, plan.tables);
    if excluded == {} then Refusal(InvalidSchemaFound)
    else OnRestored(w, i, expected, plan, group, w.restore(i, plan.archive, Removal.SelectedLines(plan.toc, excluded)))
  }

  function OnRestored(w: World, i: nat, expected: Option<Identity>, plan: Plan, group: set<TableKey>,
                      restoration: W.Restoration): Ruling
  {
    match restoration
    case Stops(reason) => OfReason(reason)
    case Restores(data) =>
      if data.rows.Keys != plan.tables.Keys - group then Refusal(InvalidSchemaFound)
      else OnReloaded(w, expected, Reload(w, i, data))
  }

  function OnReloaded(w: World, expected: Option<Identity>, restoration: W.Restoration): Ruling {
    match restoration
    case Stops(reason) => OfReason(reason)
    case Restores(data) => OnEvidence(data, Classify(w.cfg, expected, w.behaviour(0, data)))
  }

  function OnEvidence(data: Content, c: Classified): Ruling {
    match c
    case Decided(outcome, _) => if outcome.SameFailure? then Replacement(data) else Refusal(OfOutcome(outcome))
    case _ => Refusal(InfrastructureFault)
  }

  /** The trial was counted as its ruling says. */
  ghost predicate Ruled(w: World, t: Trial) {
    RulingOn(w, t.number, t.expected, t.plan, t.group)
      == if t.verdict.AcceptedCandidate? then Replacement(t.archive) else Refusal(t.verdict)
  }

  ghost predicate AllRuled(w: World, trials: seq<Trial>) {
    forall i :: 0 <= i < |trials| ==> Ruled(w, trials[i])
  }

  lemma AllRuledMore(w: World, trials: seq<Trial>, t: Trial)
    requires AllRuled(w, trials) && Ruled(w, t)
    ensures AllRuled(w, trials + [t])
  {
    hide Ruled;
  }

  // ---- what each verdict means ----

  /** The entries that go with the group, by their ids. */
  ghost predicate GoesWith(plan: Plan, group: set<TableKey>, excluded: set<int>) {
    forall id :: id in excluded <==> Removal.Removable(plan.catalog, plan.objects, group, plan.tables, id)
  }

  /** The listing with exactly those entries commented out. */
  ghost predicate Selection(toc: seq<Bytes>, excluded: set<int>, lines: seq<Bytes>) {
    && |lines| == |toc|
    && forall i :: 0 <= i < |toc| ==> lines[i] == if Removal.Excluded(toc[i], excluded) then [59] + toc[i] else toc[i]
  }

  /** Something goes with the group, and restoring the rest comes to `r`. */
  ghost predicate PartComesTo(w: World, i: nat, plan: Plan, group: set<TableKey>, r: W.Restoration) {
    exists excluded, lines ::
      && GoesWith(plan, group, excluded) && excluded != {}
      && Selection(plan.toc, excluded, lines) && w.restore(i, plan.archive, lines) == r
  }

  /** The rest restores to `data`, with exactly the other tables. */
  ghost predicate PartRestores(w: World, i: nat, plan: Plan, group: set<TableKey>, data: Content) {
    PartComesTo(w, i, plan, group, W.Restores(data)) && data.rows.Keys == plan.tables.Keys - group
  }

  /** And its dump restores as well: `data` is what the oracle is asked about. */
  ghost predicate Candidate(w: World, i: nat, plan: Plan, group: set<TableKey>, data: Content) {
    PartRestores(w, i, plan, group, data) && w.reload(i, data) == None
  }

  /** One of the two restores stops for `reason`. */
  ghost predicate StopsFor(w: World, i: nat, plan: Plan, group: set<TableKey>, reason: RestoreReason) {
    || PartComesTo(w, i, plan, group, W.Stops(reason))
    || exists data :: PartRestores(w, i, plan, group, data) && w.reload(i, data) == Some(reason)
  }

  /** The group cannot go: nothing goes with it, other tables than the group are missing, or a
      restore found the rest incomplete or invalid. */
  ghost predicate CannotGo(w: World, i: nat, plan: Plan, group: set<TableKey>) {
    || GoesWith(plan, group, {})
    || (exists data :: PartComesTo(w, i, plan, group, W.Restores(data)) && data.rows.Keys != plan.tables.Keys - group)
    || StopsFor(w, i, plan, group, MissingDependency)
    || StopsFor(w, i, plan, group, InvalidSchema)
  }

  /** Attempt number `i` to remove `group` is to be counted as `v`. */
  ghost predicate Found(w: World, i: nat, expected: Option<Identity>, plan: Plan, group: set<TableKey>, v: Verdict) {
    match v
    case AcceptedCandidate => exists data :: Accepts(w, i, expected, plan, group, data)
    case BugDisappeared =>
      exists data :: Candidate(w, i, plan, group, data) && ShowsNone(w.cfg, w.behaviour(0, data))
    case FoundInvalid =>
      exists data :: Candidate(w, i, plan, group, data) && ShowsInvalid(w.cfg, w.behaviour(0, data))
    case FailedDifferently =>
      exists data :: Candidate(w, i, plan, group, data) && ShowsDifferent(w.cfg, expected, w.behaviour(0, data))
    case InfrastructureFault =>
      exists data :: Candidate(w, i, plan, group, data) &&
        (ShowsTimeout(w.cfg, w.behaviour(0, data)) || ShowsNothing(w.cfg, w.behaviour(0, data)))
    case ConstraintRejected => StopsFor(w, i, plan, group, ConstraintViolation)
    case InvalidSchemaFound => CannotGo(w, i, plan, group)
  }

  /** The candidate shows the failure expected. */
  ghost predicate Accepts(w: World, i: nat, expected: Option<Identity>, plan: Plan, group: set<TableKey>,
                          data: Content) {
    Candidate(w, i, plan, group, data) && ShowsSame(w.cfg, expected, w.behaviour(0, data))
  }

  lemma OnlySelection(plan: Plan, group: set<TableKey>, x: set<int>, lines: seq<Bytes>)
    ensures var excluded := Removal.RemovalIds(plan.catalog, plan.objects, group, plan.tables);
            && (GoesWith(plan, group, x) <==> x == excluded)
            && (Selection(plan.toc, x, lines) <==> lines == Removal.SelectedLines(plan.toc, x))
  {
    var excluded := Removal.RemovalIds(plan.catalog, plan.objects, group, plan.tables);
    Removal.AllRemovalExact(plan.catalog, plan.objects, group, plan.tables);
    Removal.SelectedAre(plan.toc, x);
    hide Removal.RemovalIds, Removal.Removable, Removal.SelectedLines, Removal.Excluded;
    if GoesWith(plan, group, x) { assert forall id :: id in x <==> id in excluded; }
  }

  /** What the first restore comes to, if there is one. */
  lemma PartIs(w: World, i: nat, plan: Plan, group: set<TableKey>, r: W.Restoration)
    ensures var excluded := Removal.RemovalIds(plan.catalog, plan.objects, group, plan.tables);
            && (GoesWith(plan, group, {}) <==> excluded == {})
            && (PartComesTo(w, i, plan, group, r) <==>
                 excluded != {} && w.restore(i, plan.archive, Removal.SelectedLines(plan.toc, excluded)) == r)
  {
    hide Removal.RemovalIds, Removal.Removable, Removal.SelectedLines, Removal.Excluded, GoesWith, Selection;
    var excluded := Removal.RemovalIds(plan.catalog, plan.objects, group, plan.tables);
    OnlySelection(plan, group, {}, []);
    OnlySelection(plan, group, excluded, Removal.SelectedLines(plan.toc, excluded));
    if PartComesTo(w, i, plan, group, r) {
      var x, lines :| GoesWith(plan, group, x) && x != {} && Selection(plan.toc, x, lines)
        && w.restore(i, plan.archive, lines) == r;
      OnlySelection(plan, group, x, lines);
    }
  }

  /** Where a candidate was restored, the evidence alone decides. */
  lemma EvidenceExact(w: World, expected: Option<Identity>, data: Content, v: Verdict)
    ensures var r, e := OnEvidence(data, Classify(w.cfg, expected, w.behaviour(0, data))), w.behaviour(0, data);
            && (r == Replacement(data) <==> ShowsSame(w.cfg, expected, e))
            && (r == Refusal(BugDisappeared) <==> ShowsNone(w.cfg, e))
            && (r == Refusal(FoundInvalid) <==> ShowsInvalid(w.cfg, e))
            && (r == Refusal(FailedDifferently) <==> ShowsDifferent(w.cfg, expected, e))
            && (r == Refusal(InfrastructureFault) <==> ShowsTimeout(w.cfg, e) || ShowsNothing(w.cfg, e))
            && !r.Stop? && (r.Replacement? ==> r.archive == data)
            && (r.Refusal? ==>
              !r.verdict.ConstraintRejected? && !r.verdict.InvalidSchemaFound? && !r.verdict.AcceptedCandidate?)
  {
    OutcomeIff(w.cfg, expected, w.behaviour(0, data));
    hide Classify, ShowsSame, ShowsNone, ShowsInvalid, ShowsDifferent, ShowsTimeout, ShowsNothing;
  }

  lemma AllParts(w: World, i: nat, plan: Plan, group: set<TableKey>)
    ensures var excluded := Removal.RemovalIds(plan.catalog, plan.objects, group, plan.tables);
            var r := w.restore(i, plan.archive, Removal.SelectedLines(plan.toc, excluded));
            && (GoesWith(plan, group, {}) <==> excluded == {})
            && (forall q :: PartComesTo(w, i, plan, group, q) <==> excluded != {} && q == r)
  {
    hide Removal.RemovalIds, Removal.SelectedLines, GoesWith, PartComesTo;
    PartIs(w, i, plan, group, W.Stops(OtherReason));
    forall q { PartIs(w, i, plan, group, q); }
  }

  /** Where the restores stop, the reason decides. */
  lemma StopsExact(w: World, i: nat, plan: Plan, group: set<TableKey>, r: W.Restoration, reason: RestoreReason)
    requires forall q :: PartComesTo(w, i, plan, group, q) <==> q == r
    ensures StopsFor(w, i, plan, group, reason) <==>
      || r == W.Stops(reason)
      || (r.Restores? && r.data.rows.Keys == plan.tables.Keys - group && w.reload(i, r.data) == Some(reason))
  {
    hide PartComesTo;
  }

  /** The ruling is exactly what was found. */
  lemma RulingExact(w: World, i: nat, expected: Option<Identity>, plan: Plan, group: set<TableKey>, v: Verdict)
    ensures var ruling := RulingOn(w, i, expected, plan, group);
            && (!v.AcceptedCandidate? ==> (ruling == Refusal(v) <==> Found(w, i, expected, plan, group, v)))
            && (ruling.Replacement? <==> Found(w, i, expected, plan, group, AcceptedCandidate))
            && (ruling.Replacement? ==> Accepts(w, i, expected, plan, group, ruling.archive))
            && (ruling == Stop <==> StopsFor(w, i, plan, group, OtherReason))
  {
    hide Removal.RemovalIds, Removal.SelectedLines, GoesWith, PartComesTo, OnEvidence, Classify, ShowsSame,
         ShowsNone, ShowsInvalid, ShowsDifferent, ShowsTimeout, ShowsNothing;
    var excluded := Removal.RemovalIds(plan.catalog, plan.objects, group, plan.tables);
    var r := w.restore(i, plan.archive, Removal.SelectedLines(plan.toc, excluded));
    AllParts(w, i, plan, group);
    if excluded != {} {
      forall reason { StopsExact(w, i, plan, group, r, reason); }
      if r.Restores? {
        EvidenceExact(w, expected, r.data, v);
        EvidenceExact(w, expected, r.data, InfrastructureFault);
        if RulingOn(w, i, expected, plan, group).Replacement? { assert Accepts(w, i, expected, plan, group, r.data); }
      }
    }
  }

  lemma AcceptedFound(w: World, i: nat, expected: Option<Identity>, plan: Plan, group: set<TableKey>)
    ensures forall data :: Accepts(w, i, expected, plan, group, data) ==>
      Found(w, i, expected, plan, group, AcceptedCandidate)
  {
    hide Candidate, ShowsSame;
  }

  /** A trial counted as its ruling says was counted as what was found, and as nothing else. */
  lemma RuledFound(w: World, t: Trial)
    requires Ruled(w, t)
    ensures forall v :: Found(w, t.number, t.expected, t.plan, t.group, v) <==> v == t.verdict
    ensures t.verdict.AcceptedCandidate? ==> Accepts(w, t.number, t.expected, t.plan, t.group, t.archive)
  {
    forall v { RulingExact(w, t.number, t.expected, t.plan, t.group, v); }
    hide RulingOn, Found, Accepts;
  }

  lemma LastFound(w: World, trials: seq<Trial>)
    ensures AllRuled(w, trials) && trials != [] ==>
      var t := trials[|trials| - 1];
      && (forall v :: Found(w, t.number, t.expected, t.plan, t.group, v) <==> v == t.verdict)
      && (t.verdict.AcceptedCandidate? ==> Accepts(w, t.number, t.expected, t.plan, t.group, t.archive))
  {
    if AllRuled(w, trials) && trials != [] { RuledFound(w, trials[|trials| - 1]); }
    hide Ruled, Found, Accepts;
  }

  /** How often a verdict was given. */
  ghost function Times(trials: seq<Trial>, v: Verdict): nat {
    if trials == [] then 0
    else Times(trials[..|trials| - 1], v) + if trials[|trials| - 1].verdict == v then 1 else 0
  }

  lemma TimesMore(trials: seq<Trial>, t: Trial, v: Verdict)
    ensures Times(trials + [t], v) == Times(trials, v) + if t.verdict == v then 1 else 0
  {
    assert (trials + [t])[..|trials|] == trials;
  }

  /** The counters are those of the trials, but for infrastructure faults that were raised. */
  ghost predicate Counts(outcomes: map<Verdict, nat>, trials: seq<Trial>, faults: nat) {
    forall v :: Tally(outcomes, v) == Times(trials, v) + if v.InfrastructureFault? then faults else 0
  }

  lemma CountsMore(outcomes: map<Verdict, nat>, trials: seq<Trial>, faults: nat, t: Trial)
    requires Counts(outcomes, trials, faults)
    ensures Counts(Counted(outcomes, t.verdict), trials + [t], faults)
  {
    forall v ensures Times(trials + [t], v) == Times(trials, v) + if t.verdict == v then 1 else 0 {
      TimesMore(trials, t, v);
    }
    hide Times;
  }

  lemma CountsFault(outcomes: map<Verdict, nat>, trials: seq<Trial>, faults: nat)
    requires Counts(outcomes, trials, faults)
    ensures Counts(Counted(outcomes, InfrastructureFault), trials, faults + 1)
  {
    hide Times;
  }

  ghost function RefusedTrials(trials: seq<Trial>): nat {
    if trials == [] then 0
    else RefusedTrials(trials[..|trials| - 1]) + if trials[|trials| - 1].verdict.AcceptedCandidate? then 0 else 1
  }

  /** All six counters together. */
  lemma {:induction false} TimesTotal(trials: seq<Trial>)
    ensures RefusedTrials(trials)
         == Times(trials, BugDisappeared) + Times(trials, FailedDifferently) + Times(trials, FoundInvalid)
          + Times(trials, InvalidSchemaFound) + Times(trials, ConstraintRejected) + Times(trials, InfrastructureFault)
  {
    if trials != [] { TimesTotal(trials[..|trials| - 1]); }
  }

  // ---- the record ----

  /** The reducer's record at one moment; `untaken` as long as nobody took a name, `undisturbed`
      as long as besides every execution reached its database and answers steadily. */
  datatype Ledger = Ledger(trials: seq<Trial>, archive: Content, uncounted: nat, expected: Option<Identity>,
                           untaken: bool, undisturbed: bool)

  /** What an attempt leaves behind, by its answer. */
  ghost predicate Answered(plan: Plan, group: set<TableKey>, g: Ledger, h: Ledger, r: Result<bool>) {
    && (r != Returned(true) ==> h.archive == g.archive)
    && (r.Raised? ==> h.trials == g.trials && g.uncounted <= h.uncounted <= g.uncounted + 1)
    && (h.undisturbed ==> g.undisturbed)
    && (r.Returned? ==>
         && h.uncounted == g.uncounted
         && |h.trials| == |g.trials| + 1 && h.trials[..|g.trials|] == g.trials
         && var t := h.trials[|g.trials|];
            && t.plan == plan && t.group == group && t.archive == h.archive && t.expected == g.expected
            && (r.value <==> t.verdict.AcceptedCandidate?)
            && (h.undisturbed && !r.value ==> h.expected == g.expected))
    && (r == Returned(true) && h.untaken ==> h.archive.rows.Keys == plan.tables.Keys - group)
  }

  // ---- the order of the attempts ----

  /** The groups of one size. */
  ghost function GroupsOf(ordered: seq<TableKey>, size: nat): seq<set<TableKey>>
    requires size > 0
  {
    seq(|Chunks(ordered, size)|, i requires 0 <= i < |Chunks(ordered, size)| => GroupOf(Chunks(ordered, size)[i]))
  }

  /** The groups of one round: size after size, chunk after chunk. */
  ghost function Schedule(ordered: seq<TableKey>, sizes: seq<nat>): seq<set<TableKey>>
    requires forall i :: 0 <= i < |sizes| ==> sizes[i] > 0
  {
    if sizes == [] then [] else Schedule(ordered, sizes[..|sizes| - 1]) + GroupsOf(ordered, sizes[|sizes| - 1])
  }

  /** The trials from number `from` on are those of the first groups, one each. */
  ghost predicate Along(trials: seq<Trial>, from: nat, groups: seq<set<TableKey>>) {
    && from <= |trials| <= from + |groups|
    && forall i :: 0 <= i < |trials| - from ==> trials[from + i].group == groups[i]
  }

  lemma AlongThen(trials: seq<Trial>, from: nat, mid: nat, first: seq<set<TableKey>>, second: seq<set<TableKey>>)
    requires from <= mid <= |trials| && mid - from == |first| && Along(trials[..mid], from, first)
    requires Along(trials, mid, second)
    ensures Along(trials, from, first + second)
  {
    forall i | 0 <= i < |trials| - from ensures trials[from + i].group == (first + second)[i] {
      if i < |first| {
        assert trials[..mid][from + i] == trials[from + i];
      } else {
        assert trials[mid + (i - |first|)].group == second[i - |first|];
      }
    }
  }

  /** After another size, complete or not. */
  lemma ScheduleNext(before: seq<Trial>, entry: seq<Trial>, trials: seq<Trial>, ordered: seq<TableKey>,
                     sizes: seq<nat>, j: nat)
    requires j < |sizes| && forall i :: 0 <= i < |sizes| ==> sizes[i] > 0
    requires |before| <= |entry| <= |trials| && trials[..|entry|] == entry
    requires Along(entry, |before|, Schedule(ordered, sizes[..j]))
    requires |entry| == |before| + |Schedule(ordered, sizes[..j])| && Along(trials, |entry|, GroupsOf(ordered, sizes[j]))
    ensures Along(trials, |before|, Schedule(ordered, sizes[..j + 1]))
    ensures |trials| == |entry| + |GroupsOf(ordered, sizes[j])| ==>
      |trials| == |before| + |Schedule(ordered, sizes[..j + 1])|
    ensures Along(trials, |before|, Schedule(ordered, sizes))
  {
    hide GroupsOf;
    assert sizes[..j + 1][..j] == sizes[..j];
    AlongThen(trials, |before|, |entry|, Schedule(ordered, sizes[..j]), GroupsOf(ordered, sizes[j]));
    SchedulePrefix(ordered, sizes, j + 1);
  }

  lemma NothingScheduled(before: seq<Trial>, ordered: seq<TableKey>, sizes: seq<nat>)
    requires forall i :: 0 <= i < |sizes| ==> sizes[i] > 0
    ensures Schedule(ordered, sizes[..0]) == [] && Along(before, |before|, [])
    ensures sizes == [] ==> Schedule(ordered, sizes) == []
  {
  }

  lemma {:induction false} SchedulePrefix(ordered: seq<TableKey>, sizes: seq<nat>, m: nat)
    requires m <= |sizes| && forall i :: 0 <= i < |sizes| ==> sizes[i] > 0
    ensures Schedule(ordered, sizes[..m]) <= Schedule(ordered, sizes)
    decreases |sizes|
  {
    hide GroupsOf;
    var n := |sizes| - 1;
    if m == |sizes| {
      assert sizes[..m] == sizes;
    } else {
      assert sizes[..n][..m] == sizes[..m];
      SchedulePrefix(ordered, sizes[..n], m);
    }
  }

  lemma HalvesAre(tables: Removal.Tables, a: seq<TableKey>, b: seq<TableKey>, i: nat, j: nat)
    requires Ascending(a) && Ascending(b) && i < j < |a + b|
    requires forall k :: k in a ==> k in tables && tables[k].1 <= 0
    requires forall k :: k in b ==> k in tables && tables[k].1 > 0
    ensures var r := a + b;
            && (tables[r[i]].1 > 0 ==> tables[r[j]].1 > 0)
            && ((tables[r[i]].1 > 0 <==> tables[r[j]].1 > 0) ==> KeyLeq(r[i], r[j]) && r[i] != r[j])
  {
    hide KeyLeq;
    var r := a + b;
    assert if i < |a| then r[i] == a[i] && r[i] in a else r[i] == b[i - |a|] && r[i] in b;
    assert if j < |a| then r[j] == a[j] && r[j] in a else r[j] == b[j - |a|] && r[j] in b;
  }

  /** Empty tables first, in each half by name. */
  lemma OrderedIs(tables: Removal.Tables, i: nat, j: nat)
    requires i < j < |Ordered(tables)|
    ensures var r := Ordered(tables);
            && (tables[r[i]].1 > 0 ==> tables[r[j]].1 > 0)
            && ((tables[r[i]].1 > 0 <==> tables[r[j]].1 > 0) ==> KeyLeq(r[i], r[j]) && r[i] != r[j])
  {
    var empty := set k | k in tables && tables[k].1 <= 0;
    var full := set k | k in tables && tables[k].1 > 0;
    HalvesAre(tables, SortedKeys(empty), SortedKeys(full), i, j);
  }

  /** What a search leaves behind. */
  ghost predicate Searched(plan: Plan, g: Ledger, h: Ledger, r: Result<bool>) {
    && |g.trials| <= |h.trials| && h.trials[..|g.trials|] == g.trials
    && (r != Returned(true) ==> h.archive == g.archive)
    && (r.Returned? ==> h.uncounted == g.uncounted)
    && (h.undisturbed ==> g.undisturbed)
    && (r == Returned(false) ==>
         && (forall i :: |g.trials| <= i < |h.trials| ==>
              h.trials[i].plan == plan && !h.trials[i].verdict.AcceptedCandidate?)
         && (h.undisturbed ==>
              && h.expected == g.expected
              && forall i :: |g.trials| <= i < |h.trials| ==> h.trials[i].expected == h.expected))
    && (r == Returned(true) && h.untaken ==> h.archive.rows.Keys < plan.tables.Keys)
  }

  lemma SearchedStart(plan: Plan, g: Ledger)
    ensures Searched(plan, g, g, Returned(false))
  {
  }

  lemma PrefixAt<T>(a: seq<T>, b: seq<T>, c: seq<T>)
    requires |a| <= |b| <= |c| && b[..|a|] == a && c[..|b|] == b
    ensures c[..|a|] == a && forall i :: 0 <= i < |b| ==> c[i] == b[i]
  {
    assert forall i :: 0 <= i < |b| ==> c[..|b|][i] == c[i];
  }

  lemma SearchedTwice(plan: Plan, g: Ledger, h: Ledger, i: Ledger, r: Result<bool>)
    requires Searched(plan, g, h, Returned(false)) && Searched(plan, h, i, r)
    ensures Searched(plan, g, i, r) && |g.trials| <= |h.trials| <= |i.trials|
  {
    PrefixAt(g.trials, h.trials, i.trials);
  }

  lemma SearchedKeeps(plan: Plan, g: Ledger, h: Ledger, r: Result<bool>)
    requires Searched(plan, g, h, r)
    ensures |g.trials| <= |h.trials| && h.trials[..|g.trials|] == g.trials
  {
  }

  lemma SearchedOne(plan: Plan, group: set<TableKey>, g: Ledger, h: Ledger, i: Ledger, r: Result<bool>)
    requires Searched(plan, g, h, Returned(false)) && Answered(plan, group, h, i, r)
    requires group != {} && group <= plan.tables.Keys
    ensures Searched(plan, g, i, r)
  {
    if r.Returned? { PrefixAt(g.trials, h.trials, i.trials); }
  }

  class SchemaReducer {
    const pg: Postgres
    const workspace: W.Workspace
    const oracle: Oracle.Oracle
    const world: World
    ghost const missedBefore: nat
    var archive: Content
    var outcomes: map<Verdict, nat>
    var attempted: nat
    var accepted: nat
    ghost var trials: seq<Trial>
    /** Attempts that raised before they were counted, and infrastructure faults raised. */
    ghost var uncounted: nat
    ghost var faults: nat

    ghost predicate Wired()
      reads workspace, oracle, pg, pg.control
    {
      && workspace.pg == pg && oracle.pg == pg && workspace.Valid() && oracle.Valid()
      && oracle.cfg == world.cfg && oracle.behaviour == world.behaviour
    }

    /** Exact accounting: every attempt is accepted, counted under one of the six rejections,
        or raised uncounted; `open` are still to be counted. */
    ghost predicate Owing(open: nat)
      reads this
    {
      && attempted == accepted + Rejections(outcomes) + uncounted + open
      && Tally(outcomes, AcceptedCandidate) == accepted && Counts(outcomes, trials, faults)
      && forall i :: 0 <= i < |trials| ==>
           Sound(trials[i].plan, trials[i].group, trials[i].excluded) && Tally(outcomes, trials[i].verdict) > 0
    }

    /** Every trial was counted as its ruling says. */
    ghost predicate Judged()
      reads this`trials, pg, oracle
    {
      Undisturbed() ==> AllRuled(world, trials)
    }

    ghost predicate Books()
      reads this
    {
      Owing(0)
    }

    ghost predicate Undisturbed()
      reads pg, oracle
    {
      && pg.s.squatted == {} && oracle.missed == missedBefore
      && forall c :: Oracle.Steady(world.behaviour, c)
    }

    ghost predicate Failing()
      reads this`archive, oracle
    {
      oracle.expected.Some? && Reproduced(world.cfg, oracle.expected, world.behaviour(0, archive)) == Some(true)
    }

    /** Nothing goes wrong on the server or with restores, and the workspace is as it should be. */
    ghost predicate Smooth()
      reads workspace, pg, pg.control
    {
      workspace.pg == pg && pg.Peaceful() && workspace.Healthy() && Reliable(world)
    }

    lemma SmoothReloads(i: nat, archive: Content)
      ensures Smooth() ==> Reload(world, i, archive) == W.Restores(archive)
    {
    }

    lemma SmoothStops(i: nat, plan: Plan, excluded: set<int>)
      ensures Smooth() && Planned(world, plan) ==>
        Stoppable(world.restore(i, plan.archive, Removal.SelectedLines(plan.toc, excluded)))
    {
    }

    ghost predicate Valid()
      reads this, workspace, oracle, pg, pg.control
    {
      Wired() && Books() && Judged() && missedBefore <= oracle.missed
    }

    ghost function Now(): Ledger
      reads this, pg, oracle
    {
      Ledger(trials, archive, uncounted, oracle.expected, pg.s.squatted == {}, Undisturbed())
    }

    constructor (workspace: W.Workspace, archive: Content, oracle: Oracle.Oracle, world: World)
      requires workspace.Valid() && oracle.pg == workspace.pg && oracle.Valid()
      requires oracle.cfg == world.cfg && oracle.behaviour == world.behaviour
      ensures Valid() && this.workspace == workspace && this.oracle == oracle && this.pg == workspace.pg
      ensures this.archive == archive && this.world == world && attempted == 0 && uncounted == 0
      ensures missedBefore == oracle.missed
    {
      hide Tracked, Consistent, SafeDrops, Recalled;
      pg, this.workspace, this.oracle, this.world := workspace.pg, workspace, oracle, world;
      missedBefore, this.archive := oracle.missed, archive;
      outcomes, attempted, accepted, trials, uncounted, faults := map[], 0, 0, [], 0, 0;
    }

    // ---- with the workspace ----

    method Reset(restoration: W.Restoration) returns (r: Result<()>)
      requires workspace.pg == pg && workspace.Valid()
      modifies workspace, pg, pg.control
      ensures workspace.Valid() && (pg.s.squatted == {} ==> old(pg.s.squatted) == {})
      ensures r.Returned? ==>
        workspace.created && restoration.Restores? && (pg.s.squatted == {} ==> workspace.Holds(restoration.data))
      ensures r.Raised? && r.e.ClientError? && r.e.reason != OtherReason ==> restoration == W.Stops(r.e.reason)
      ensures Undisturbed() ==> old(Undisturbed())
      ensures old(Smooth()) ==>
        && Smooth() && workspace.Alive()
        && r == if restoration.Restores? then Returned(()) else Raised(ClientError(restoration.reason))
    {
      hide Tracked, Moves, Consistent, SafeDrops, SameContent, Recalled;
      ghost var w := pg.s;
      r := workspace.Reset(restoration);
      if pg.s.squatted == {} { SquattingGrows(w, pg.s, Some(WorkspaceClient)); }
    }

    /** Dump or query the whole workspace; `data` is what it holds. */
    method Dump(ghost data: Content) returns (r: Result<Content>)
      requires workspace.pg == pg && workspace.Valid() && workspace.created
      requires pg.s.squatted == {} ==> workspace.Holds(data)
      modifies workspace, pg, pg.control
      ensures workspace.Valid() && workspace.created && (pg.s.squatted == {} ==> old(pg.s.squatted) == {})
      ensures pg.s.squatted == {} ==> workspace.Holds(data)
      ensures r.Returned? && pg.s.squatted == {} ==> r.value == data
      ensures r.Raised? ==> !r.e.ClientError?
      ensures Undisturbed() ==> old(Undisturbed())
      ensures old(Smooth()) && old(workspace.Alive()) ==> Smooth() && workspace.Alive() && r.Returned?
    {
      hide Tracked, Moves, Consistent, SafeDrops, SameContent, Recalled;
      ghost var w := pg.s;
      r := workspace.Read();
      if pg.s.squatted == {} { SquattingGrows(w, pg.s, None); }
    }

    /** The planning part of a round. */
    method MakePlan() returns (r: Result<Plan>)
      requires workspace.pg == pg && workspace.Valid()
      modifies workspace, pg, pg.control
      ensures workspace.Valid() && (pg.s.squatted == {} ==> old(pg.s.squatted) == {})
      ensures r.Returned? ==> r.value.Valid() && Planned(world, r.value)
      ensures r.Returned? && pg.s.squatted == {} ==> r.value == PlanOf(world, archive)
      ensures old(Smooth()) ==> Smooth() && r.Returned?
    {
      hide Undisturbed, Failing, Smooth, Owing, Tracked, Moves, Consistent, SafeDrops, SameContent,
           Removal.RemovalIds, Recalled;
      SmoothReloads(attempted, archive);
      var restored := Reset(Reload(world, attempted, archive));
      if restored.Raised? {
        return Raised(restored.e);
      }
      var dumped := Dump(archive);
      if dumped.Raised? {
        return Raised(dumped.e);
      }
      var content := Dump(archive);
      if content.Raised? {
        return Raised(content.e);
      }
      var tables := TablesOf(world, content.value);
      var objects, catalog := world.objects(dumped.value), world.catalog(content.value);
      var ids := CloseEach(catalog, objects, tables);
      r := Returned(Plan(dumped.value, world.toc(dumped.value), objects, catalog, tables, ids));
      if pg.s.squatted == {} { assert r.value.ids == PlanOf(world, archive).ids; }
    }

    // ---- one attempt ----

    /** So far the attempt comes to `ruling`. */
    ghost predicate Comes(plan: Plan, group: set<TableKey>, ruling: Ruling)
      reads this`attempted, oracle, pg
    {
      pg.s.squatted == {} ==> RulingOn(world, attempted, oracle.expected, plan, group) == ruling
    }

    /** Write the trial down. */
    ghost method Enter(t: Trial)
      requires Owing(1) && Judged() && Sound(t.plan, t.group, t.excluded) && !t.verdict.AcceptedCandidate?
      requires Undisturbed() ==> Ruled(world, t)
      modifies this`trials
      ensures Judged() && trials == old(trials) + [t] && Counts(Counted(outcomes, t.verdict), trials, faults)
    {
      hide Sound, Ruled, Rejections, Counts;
      if Undisturbed() { AllRuledMore(world, trials, t); }
      CountsMore(outcomes, trials, faults, t);
      trials := trials + [t];
    }

    /** Count a refusal and return false. */
    method Refuse(ghost plan: Plan, ghost group: set<TableKey>, ghost excluded: set<int>,
                  ghost expected: Option<Identity>, v: Verdict) returns (r: Result<bool>)
      requires Owing(1) && Judged() && !v.AcceptedCandidate? && Sound(plan, group, excluded)
      requires Undisturbed() ==> RulingOn(world, attempted, expected, plan, group) == Refusal(v)
      modifies this`outcomes, this`trials
      ensures Books() && Judged() && r == Returned(false)
      ensures trials == old(trials) + [Trial(attempted, expected, plan, group, excluded, v, archive)]
    {
      hide Sound, Rejections, RulingOn, Counts;
      RejectionCounted(outcomes, v);
      Enter(Trial(attempted, expected, plan, group, excluded, v, archive));
      outcomes := Counted(outcomes, v);
      r := Returned(false);
    }

    /** The `except ClientError` clauses; other exceptions pass uncounted. */
    method Stopped(e: Exception, ghost plan: Plan, ghost group: set<TableKey>, ghost excluded: set<int>)
      returns (r: Result<bool>)
      requires Owing(1) && Judged() && Sound(plan, group, excluded)
      requires e.ClientError? && e.reason != OtherReason ==> Comes(plan, group, OfReason(e.reason))
      modifies this`outcomes, this`trials, this`uncounted, this`faults
      ensures Books() && Judged()
      ensures e.ClientError? && e.reason != OtherReason ==>
        && r == Returned(false) && uncounted == old(uncounted) && faults == old(faults)
        && trials == old(trials) + [Trial(attempted, oracle.expected, plan, group, excluded,
                                          RejectionOf(e.reason), archive)]
      ensures !e.ClientError? || e.reason == OtherReason ==>
        && r == Raised(e) && trials == old(trials)
        && uncounted == old(uncounted) + (if e.ClientError? then 0 else 1)
        && faults == old(faults) + (if e.ClientError? then 1 else 0)
    {
      hide Sound, Rejections, RulingOn, Counts, Times;
      if e.ClientError? && Rejection(e.reason).Some? {
        r := Refuse(plan, group, excluded, oracle.expected, RejectionOf(e.reason));
      } else if e.ClientError? {
        RejectionCounted(outcomes, InfrastructureFault);
        CountsFault(outcomes, trials, faults);
        outcomes := Counted(outcomes, InfrastructureFault);
        faults := faults + 1;
        r := Raised(e);
      } else {
        PassOn();
        r := Raised(e);
      }
    }

    /** `_attempt`: remove a group of tables together with everything their closures hold. */
    method Attempt(plan: Plan, group: set<TableKey>) returns (r: Result<bool>)
      requires Valid() && plan.Valid() && group <= plan.tables.Keys
      modifies this, workspace, oracle, pg, pg.control
      ensures Valid() && attempted == old(attempted) + 1
      ensures pg.s.squatted == {} ==> old(pg.s.squatted) == {}
      ensures accepted == old(accepted) + (if r == Returned(true) then 1 else 0)
      ensures Answered(plan, group, old(Now()), Now(), r)
      ensures r == Returned(true) && pg.s.squatted == {} ==>
        Derived(world, attempted, plan, trials[|trials| - 1].excluded, archive)
      ensures r.Returned? ==> trials[|trials| - 1].number == attempted
      ensures r.Returned? && Undisturbed() ==>
        && (r.value <==> Found(world, attempted, old(oracle.expected), plan, group, AcceptedCandidate))
        && (r.value ==> Accepts(world, attempted, old(oracle.expected), plan, group, archive))
        && forall v :: Found(world, attempted, old(oracle.expected), plan, group, v) <==> v == trials[|trials| - 1].verdict
      ensures Undisturbed() ==> old(Undisturbed())
      ensures r.Returned? && Undisturbed() && old(Failing()) ==> Failing()
      ensures old(Smooth()) && Planned(world, plan) ==> Smooth() && r.Returned?
    {
      hide Derived, Smooth, Tracked, Moves, Consistent, SafeDrops, SameContent, Sound, Rejections,
           Removal.RemovalIds, Reload, Reproduced, Counts, OnRestored, W.Workspace.Valid, Oracle.Oracle.Valid,
           Oracle.Steady, Removal.UnionOf, Recalled, Found, Accepts, RulingOn, Ruled, AllRuled;
      attempted := attempted + 1;
      var excluded := Removal.JoinIds(plan.ids, group);
      GroupIsSound(plan, group, excluded);
      SoundMeans(plan, group, excluded);
      if excluded == {} {
        NothingGoes(attempted, plan, group, oracle.expected);
        r := Refuse(plan, group, excluded, oracle.expected, InvalidSchemaFound);
      } else {
        r := Select(plan, group, excluded);
      }
      LastFound(world, trials);
    }

    lemma NothingGoes(i: nat, plan: Plan, group: set<TableKey>, expected: Option<Identity>)
      requires Sound(plan, group, {})
      ensures RulingOn(world, i, expected, plan, group) == Refusal(InvalidSchemaFound)
    {
      hide Removal.RemovalIds;
    }

    /** Restore the archive without the excluded entries. */
    method Select(plan: Plan, group: set<TableKey>, excluded: set<int>) returns (r: Result<bool>)
      requires Wired() && Owing(1) && Judged() && missedBefore <= oracle.missed && Sound(plan, group, excluded)
      requires excluded != {}
      modifies this, workspace, oracle, pg, pg.control
      ensures Valid() && attempted == old(attempted)
      ensures pg.s.squatted == {} ==> old(pg.s.squatted) == {}
      ensures r == Returned(true) && pg.s.squatted == {} ==> Derived(world, attempted, plan, excluded, archive)
      ensures accepted == old(accepted) + (if r == Returned(true) then 1 else 0)
      ensures Answered(plan, group, old(Now()), Now(), r)
      ensures r.Returned? ==> trials[|trials| - 1].number == attempted && trials[|trials| - 1].excluded == excluded
      ensures Undisturbed() ==> old(Undisturbed())
      ensures r.Returned? && Undisturbed() && old(Failing()) ==> Failing()
      ensures old(Smooth()) && Planned(world, plan) ==> Smooth() && r.Returned?
    {
      hide Derived, Owing, Smooth, Failing, Tracked, Moves, Consistent, SafeDrops, SameContent, Sound, Rejections,
           Removal.RemovalIds, Reload, Reproduced, AllRuled, Oracle.Steady, W.Workspace.Valid, Removal.Selected,
           Removal.Entries, Removal.Kept, Removal.IsEntry, Removal.SelectedLines, Oracle.Oracle.Valid, Planned,
           Recalled;
      SoundMeans(plan, group, excluded);
      var lines := Removal.SelectedList(plan.toc, excluded);
      var restoration := world.restore(attempted, plan.archive, lines);
      SmoothStops(attempted, plan, excluded);
      var restored := Reset(restoration);
      if restored.Raised? {
        r := Stopped(restored.e, plan, group, excluded);
        return;
      }
      r := CompareTables(plan, group, excluded, restoration.data);
      if r == Returned(true) && pg.s.squatted == {} { DerivedBy(world, attempted, plan, excluded, archive, lines); }
    }

    /** Compare the tables. */
    method CompareTables(plan: Plan, group: set<TableKey>, excluded: set<int>, ghost data: Content)
      returns (r: Result<bool>)
      requires Wired() && Owing(1) && Judged() && missedBefore <= oracle.missed && Sound(plan, group, excluded)
      requires workspace.created && (pg.s.squatted == {} ==> workspace.Holds(data))
      requires Comes(plan, group, OnRestored(world, attempted, oracle.expected, plan, group, W.Restores(data)))
      modifies this, workspace, oracle, pg, pg.control
      ensures Valid() && attempted == old(attempted)
      ensures pg.s.squatted == {} ==> old(pg.s.squatted) == {}
      ensures r == Returned(true) && pg.s.squatted == {} ==> archive == data
      ensures accepted == old(accepted) + (if r == Returned(true) then 1 else 0)
      ensures Answered(plan, group, old(Now()), Now(), r)
      ensures r.Returned? ==> trials[|trials| - 1].number == attempted && trials[|trials| - 1].excluded == excluded
      ensures Undisturbed() ==> old(Undisturbed())
      ensures r.Returned? && Undisturbed() && old(Failing()) ==> Failing()
      ensures old(Smooth()) && old(workspace.Alive()) ==> Smooth() && r.Returned?
    {
      hide Failing, Smooth, Owing, Tracked, Moves, Consistent, SafeDrops, SameContent, Sound, Rejections,
           Removal.RemovalIds, Reload, Reproduced, RulingOn, OnReloaded, AllRuled, Oracle.Steady,
           W.Workspace.Valid, Oracle.Oracle.Valid, Recalled;
      var content := Dump(data);
      if content.Raised? {
        r := Stopped(content.e, plan, group, excluded);
        return;
      }
      if content.value.rows.Keys != plan.tables.Keys - group {
        r := Refuse(plan, group, excluded, oracle.expected, InvalidSchemaFound);
        return;
      }
      r := Reconstruct(plan, group, excluded, data);
    }

    /** Dump the candidate and restore the dump. */
    method Reconstruct(plan: Plan, group: set<TableKey>, excluded: set<int>, ghost data: Content)
      returns (r: Result<bool>)
      requires Wired() && Owing(1) && Judged() && missedBefore <= oracle.missed && Sound(plan, group, excluded)
      requires workspace.created && (pg.s.squatted == {} ==> workspace.Holds(data))
      requires pg.s.squatted == {} ==> data.rows.Keys == plan.tables.Keys - group
      requires Comes(plan, group, OnReloaded(world, oracle.expected, Reload(world, attempted, data)))
      modifies this, workspace, oracle, pg, pg.control
      ensures Valid() && attempted == old(attempted)
      ensures pg.s.squatted == {} ==> old(pg.s.squatted) == {}
      ensures r == Returned(true) && pg.s.squatted == {} ==> archive == data
      ensures accepted == old(accepted) + (if r == Returned(true) then 1 else 0)
      ensures Answered(plan, group, old(Now()), Now(), r)
      ensures r.Returned? ==> trials[|trials| - 1].number == attempted && trials[|trials| - 1].excluded == excluded
      ensures Undisturbed() ==> old(Undisturbed())
      ensures r.Returned? && Undisturbed() && old(Failing()) ==> Failing()
      ensures old(Smooth()) && old(workspace.Alive()) ==> Smooth() && r.Returned?
    {
      hide Failing, Smooth, Owing, Tracked, Moves, Consistent, SafeDrops, SameContent, Sound, Rejections,
           Removal.RemovalIds, Reproduced, RulingOn, OnEvidence, Classify, AllRuled, Oracle.Steady,
           W.Workspace.Valid, Oracle.Oracle.Valid, Recalled;
      var candidate := Dump(data);
      if candidate.Raised? {
        r := Stopped(candidate.e, plan, group, excluded);
        return;
      }
      SmoothReloads(attempted, candidate.value);
      var restored := Reset(Reload(world, attempted, candidate.value));
      if restored.Raised? {
        r := Stopped(restored.e, plan, group, excluded);
        return;
      }
      r := Decide(plan, group, excluded, candidate.value);
    }

    /** Ask the oracle; an oracle error is a counted refusal. */
    method Decide(plan: Plan, group: set<TableKey>, excluded: set<int>, candidate: Content) returns (r: Result<bool>)
      requires Wired() && Owing(1) && Judged() && missedBefore <= oracle.missed && Sound(plan, group, excluded)
      requires pg.s.squatted == {} ==> candidate.rows.Keys == plan.tables.Keys - group
      requires Reload(world, attempted, candidate).Restores?
      requires Comes(plan, group,
        OnEvidence(candidate, Classify(world.cfg, oracle.expected, world.behaviour(0, candidate))))
      modifies this, workspace, oracle, pg, pg.control
      ensures Valid() && attempted == old(attempted)
      ensures pg.s.squatted == {} ==> old(pg.s.squatted) == {}
      ensures r == Returned(true) ==> archive == candidate
      ensures accepted == old(accepted) + (if r == Returned(true) then 1 else 0)
      ensures Answered(plan, group, old(Now()), Now(), r)
      ensures r.Returned? ==> trials[|trials| - 1].number == attempted && trials[|trials| - 1].excluded == excluded
      ensures Undisturbed() ==> old(Undisturbed())
      ensures r.Returned? && Undisturbed() && old(Failing()) ==> Failing()
      ensures old(Smooth()) ==> Smooth() && r.Returned?
    {
      hide Smooth, Owing, Tracked, Moves, Consistent, SafeDrops, SameContent, Sound, Rejections,
           Removal.RemovalIds, Reload, Reproduced, RulingOn, Classify, AllRuled, W.Workspace.Valid,
           Oracle.Oracle.Valid, Oracle.Steady, Recalled;
      ghost var expected := oracle.expected;
      var answer := AskOracle(candidate);
      if answer == Raised(OracleError) {
        r := Refuse(plan, group, excluded, expected, InfrastructureFault);
      } else if answer.Raised? {
        PassOn();
        r := Raised(answer.e);
      } else if !answer.value {
        r := Refuse(plan, group, excluded, expected, OfOutcome(oracle.lastOutcome.value));
      } else {
        Accept(plan, group, excluded, expected, candidate);
        r := Returned(true);
      }
    }

    /** The attempt raises before it is counted. */
    ghost method PassOn()
      requires Owing(1)
      modifies this`uncounted
      ensures Books() && uncounted == old(uncounted) + 1
    {
      hide Sound, Rejections, Counts;
      uncounted := uncounted + 1;
    }

    method Accept(ghost plan: Plan, ghost group: set<TableKey>, ghost excluded: set<int>,
                  ghost expected: Option<Identity>, candidate: Content)
      requires Owing(1) && Judged() && Sound(plan, group, excluded)
      requires Undisturbed() ==> RulingOn(world, attempted, expected, plan, group) == Replacement(candidate)
      modifies this`outcomes, this`accepted, this`archive, this`trials
      ensures Books() && Judged() && archive == candidate && accepted == old(accepted) + 1
      ensures trials == old(trials) + [Trial(attempted, expected, plan, group, excluded, AcceptedCandidate, candidate)]
    {
      hide Sound, Rejections, RulingOn, AllRuled, Counts;
      ghost var t := Trial(attempted, expected, plan, group, excluded, AcceptedCandidate, candidate);
      RejectionCounted(outcomes, AcceptedCandidate);
      if Undisturbed() { AllRuledMore(world, trials, t); }
      CountsMore(outcomes, trials, faults, t);
      accepted := accepted + 1;
      outcomes := Counted(outcomes, AcceptedCandidate);
      archive := candidate;
      trials := trials + [t];
    }

    method AskOracle(candidate: Content) returns (r: Result<bool>)
      requires Wired() && missedBefore <= oracle.missed && Reload(world, attempted, candidate).Restores?
      modifies workspace, oracle, pg, pg.control
      ensures Wired() && missedBefore <= oracle.missed
      ensures pg.s.squatted == {} ==> old(pg.s.squatted) == {}
      ensures Undisturbed() ==> old(Undisturbed())
      ensures old(oracle.expected).Some? ==> oracle.expected == old(oracle.expected)
      ensures r.Returned? ==>
        && oracle.lastOutcome.Some?
        && (if r.value then oracle.lastOutcome.value.SameFailure? else Refusing(oracle.lastOutcome.value))
      ensures Undisturbed() ==>
        var c := Classify(world.cfg, old(oracle.expected), world.behaviour(0, candidate));
        && (r.Returned? ==>
             && c.Decided? && oracle.lastOutcome == Some(c.outcome) && (r.value <==> c.outcome.SameFailure?)
             && oracle.expected == Locked(old(oracle.expected), c)
             && Reproduced(world.cfg, old(oracle.expected), world.behaviour(0, candidate)) == Some(r.value))
        && (r == Raised(OracleError) ==> !c.Decided? && oracle.expected == old(oracle.expected))
      ensures old(Smooth()) ==> Smooth() && (r.Raised? ==> r.e == OracleError)
    {
      hide Tracked, Moves, Consistent, SafeDrops, SameContent, Classify, Oracle.Worked, Oracle.Follows,
           Oracle.Consulted, Oracle.Steady, Oracle.InOrder, Oracle.Ran, W.Workspace.Valid, Oracle.Oracle.Valid,
           Recalled;
      ghost var s, v := oracle.Now(), workspace.View();
      var target := Oracle.InWorkspace(workspace, Reload(world, attempted, candidate));
      ghost var data := target.Data(pg);
      r := oracle.Fails(target);
      Oracle.WorkspaceWorked(v, workspace.View(), r.Returned?);
      if pg.s.squatted == {} { SquattingGrows(v.s, pg.s, Some(WorkspaceClient)); }
      Oracle.FollowsMeans(s, oracle.Now());
      if r.Returned? { Oracle.ConsultedOutcome(s, oracle.Now(), oracle.confirm, r.value); }
      if Undisturbed() { assert Oracle.Steady(world.behaviour, data); }
    }

    // ---- the search ----

    /** All groups of one size, in order, up to the first accepted one. */
    method TrySize(plan: Plan, ordered: seq<TableKey>, size: nat) returns (r: Result<bool>)
      requires Valid() && plan.Valid() && size > 0 && forall k :: k in ordered ==> k in plan.tables
      modifies this, workspace, oracle, pg, pg.control
      ensures Valid() && (pg.s.squatted == {} ==> old(pg.s.squatted) == {}) && (Undisturbed() ==> old(Undisturbed()))
      ensures Searched(plan, old(Now()), Now(), r)
      ensures accepted == old(accepted) + (if r == Returned(true) then 1 else 0)
      ensures r == Returned(false) ==>
        forall c :: c in Chunks(ordered, size) ==> Tried(trials, |old(trials)|, plan, GroupOf(c))
      ensures Along(trials, |old(trials)|, GroupsOf(ordered, size))
      ensures r == Returned(false) ==> |trials| == |old(trials)| + |GroupsOf(ordered, size)|
      ensures r.Returned? && Undisturbed() && old(Failing()) ==> Failing()
      ensures old(Smooth()) && Planned(world, plan) ==> Smooth() && r.Returned?
    {
      hide Valid, Smooth, Tracked, Moves, Consistent, SafeDrops, Wired, Owing, Oracle.Steady, Reproduced, Chunks,
           Plan.Valid, Tried, Recalled;
      var groups := ChunksOf(ordered, size);
      GroupsFit(ordered, size, plan.tables.Keys);
      ghost var before, g := trials, Now();
      for i := 0 to |groups|
        invariant Valid() && (pg.s.squatted == {} ==> old(pg.s.squatted) == {}) && (Undisturbed() ==> old(Undisturbed()))
        invariant Searched(plan, g, Now(), Returned(false)) && accepted == old(accepted)
        invariant forall j :: 0 <= j < i ==> Tried(trials, |before|, plan, GroupOf(groups[j]))
        invariant Along(trials, |before|, GroupsOf(ordered, size)) && |trials| == |before| + i
        invariant Undisturbed() && old(Failing()) ==> Failing()
        invariant old(Smooth()) && Planned(world, plan) ==> Smooth()
      {
        ghost var entry, h := trials, Now();
        r := Attempt(plan, GroupOf(groups[i]));
        SearchedOne(plan, GroupOf(groups[i]), g, h, Now(), r);
        if r != Returned(false) {
          return;
        }
        forall j | 0 <= j < i + 1 ensures Tried(trials, |before|, plan, GroupOf(groups[j])) {
          TriedMore(entry, trials, |before|, plan, GroupOf(groups[j]), GroupOf(groups[i]));
        }
      }
      r := Returned(false);
    }

    /** The attempts of the round are those of the schedule, in order, up to the first accepted. */
    ghost predicate InSchedule(before: seq<Trial>, after: seq<Trial>, plan: Plan, r: Result<bool>) {
      var ordered := Ordered(plan.tables);
      SizesShape(|ordered|);
      var groups := Schedule(ordered, Sizes(|ordered|));
      Along(after, |before|, groups) && (r == Returned(false) ==> |after| == |before| + |groups|)
    }

    /** The loops over sizes and groups of one round. */
    method Search(plan: Plan) returns (r: Result<bool>)
      requires Valid() && plan.Valid()
      modifies this, workspace, oracle, pg, pg.control
      ensures Valid() && (pg.s.squatted == {} ==> old(pg.s.squatted) == {}) && (Undisturbed() ==> old(Undisturbed()))
      ensures Searched(plan, old(Now()), Now(), r)
      ensures accepted == old(accepted) + (if r == Returned(true) then 1 else 0)
      ensures r == Returned(false) ==> forall k :: k in plan.tables ==> Tried(trials, |old(trials)|, plan, {k})
      ensures InSchedule(old(trials), trials, plan, r)
      ensures r.Returned? && Undisturbed() && old(Failing()) ==> Failing()
      ensures old(Smooth()) && Planned(world, plan) ==> Smooth() && r.Returned?
    {
      hide Ordered, SortedKeys, GroupOf, Valid, Smooth, Undisturbed, Failing, Tracked, Moves, Consistent,
           SafeDrops, Wired, Owing, Oracle.Steady, Reproduced, Chunks, Plan.Valid, Tried, Sizes, Searched,
           Recalled, GroupsOf, Schedule, Along;
      ghost var before, g := trials, Now();
      var ordered := Ordered(plan.tables);
      var sizes := SizesOf(|ordered|);
      SizesShape(|ordered|);
      SearchedStart(plan, g);
      NothingScheduled(before, ordered, sizes);
      for j := 0 to |sizes|
        invariant Valid() && (pg.s.squatted == {} ==> old(pg.s.squatted) == {}) && (Undisturbed() ==> old(Undisturbed()))
        invariant Searched(plan, g, Now(), Returned(false)) && accepted == old(accepted)
        invariant j > 0 && sizes[j - 1] == 1 ==> forall k :: k in ordered ==> Tried(trials, |before|, plan, {k})
        invariant Along(trials, |before|, Schedule(ordered, sizes[..j]))
        invariant |trials| == |before| + |Schedule(ordered, sizes[..j])|
        invariant Undisturbed() && old(Failing()) ==> Failing()
        invariant old(Smooth()) && Planned(world, plan) ==> Smooth()
      {
        ghost var entry, h := trials, Now();
        r := TrySize(plan, ordered, sizes[j]);
        SearchedTwice(plan, g, h, Now(), r);
        SearchedKeeps(plan, h, Now(), r);
        ScheduleNext(before, entry, trials, ordered, sizes, j);
        if r != Returned(false) {
          return;
        }
        if sizes[j] == 1 { SinglesTried(trials, |before|, |entry|, plan, ordered); }
      }
      assert sizes[..|sizes|] == sizes;
      r := Returned(false);
    }

    /** The first `rounds` rounds of `run`; None while it is still searching after them. It
        returns only when removing any single remaining table was refused against the final
        archive. Unless somebody takes the workspace's name every accepted attempt leaves fewer
        tables, so it ends after one round more than there are tables; where nothing goes
        wrong it ends with a result. */
    method Run(rounds: nat) returns (r: Option<Result<Content>>, ghost from: nat)
      requires Valid()
      modifies this, workspace, oracle, pg, pg.control
      ensures Valid()
      ensures r.None? && pg.s.squatted == {} ==> rounds <= accepted - old(accepted) <= |old(archive).rows|
      ensures r.Some? && r.value.Returned? ==> r.value.value == archive && uncounted == old(uncounted)
      ensures r.Some? && r.value.Returned? ==> attempted - accepted - uncounted == Rejections(outcomes)
      ensures r.Some? && r.value.Returned? && pg.s.squatted == {} ==> SchemaIrreducible(trials, from, archive)
      ensures r.Some? && r.value.Returned? && Undisturbed() ==> SchemaMinimal(world, oracle.expected, archive)
      ensures r.Some? && r.value.Returned? && pg.s.squatted == {} ==>
        accepted - old(accepted) <= |old(archive).rows| - |archive.rows|
      ensures r.Some? && r.value.Returned? && Undisturbed() && old(Failing()) ==> Failing()
      ensures old(Smooth()) ==> Smooth() && (r.Some? ==> r.value.Returned?)
    {
      hide SchemaMinimal, PlanOf, AllRuled, Wired, Owing, Undisturbed, Failing, Smooth, SchemaIrreducible,
           Rejections;
      ghost var tables := |archive.rows|;
      BooksBalance();
      from := |trials|;
      for i := 0 to rounds
        invariant Valid() && uncounted == old(uncounted) && attempted - accepted - uncounted == Rejections(outcomes)
        invariant pg.s.squatted == {} ==> i <= accepted - old(accepted) <= tables - |archive.rows|
        invariant Undisturbed() ==> old(Undisturbed())
        invariant Undisturbed() && old(Failing()) ==> Failing()
        invariant old(Smooth()) ==> Smooth()
      {
        from := |trials|;
        var changed := OneRound();
        BooksBalance();
        if changed.Raised? {
          return Some(Raised(changed.e)), from;
        }
        if !changed.value {
          return Some(Returned(archive)), from;
        }
      }
      r := None;
    }

    ghost method BooksBalance()
      requires Valid()
      ensures attempted - accepted - uncounted == Rejections(outcomes)
    {
      hide Rejections, Sound, Wired;
    }

    /** One round: plan, then search. */
    method OneRound() returns (r: Result<bool>)
      requires Valid()
      modifies this, workspace, oracle, pg, pg.control
      ensures Valid() && (pg.s.squatted == {} ==> old(pg.s.squatted) == {}) && (Undisturbed() ==> old(Undisturbed()))
      ensures r.Returned? ==> uncounted == old(uncounted)
      ensures r == Returned(false) ==> archive == old(archive) && accepted == old(accepted)
      ensures r == Returned(false) && pg.s.squatted == {} ==> SchemaIrreducible(trials, |old(trials)|, archive)
      ensures r == Returned(false) && Undisturbed() ==> SchemaMinimal(world, oracle.expected, archive)
      ensures r == Returned(true) ==> accepted == old(accepted) + 1
      ensures r == Returned(true) && pg.s.squatted == {} ==> |archive.rows| < |old(archive).rows|
      ensures r.Returned? && Undisturbed() && old(Failing()) ==> Failing()
      ensures old(Smooth()) ==> Smooth() && r.Returned?
    {
      hide SchemaMinimal, PlanOf, AllRuled, Tracked, Moves, Consistent, SafeDrops, Oracle.Steady, Reproduced,
           Plan.Valid, Tried, Searched, Rejections, Sound, W.Workspace.Valid, Oracle.Oracle.Valid, Recalled;
      var plan := MakePlan();
      if plan.Raised? {
        return Raised(plan.e);
      }
      ghost var g := Now();
      PlanTables(world, archive);
      r := Search(plan.value);
      if r.Returned? {
        if r.value {
          SearchedCounted(plan.value, g, Now());
          SameSize(plan.value.tables, old(archive).rows);
        } else {
          SearchedAll(plan.value, g, Now());
          if Undisturbed() { TriedMinimal(world, plan.value, g, Now()); }
        }
      }
    }

    /** `report`: the exact number of refusals, and the irreducibility claim. If it is made, every
        refusal - those of the final archive included - was a failure that disappeared. */
    method Report() returns (rejected: int, irreducible: bool)
      requires Valid() && uncounted == 0
      ensures rejected == Rejections(outcomes) == RefusedTrials(trials) + faults
      ensures irreducible <==> forall v: Verdict :: !v.BugDisappeared? && !v.AcceptedCandidate? ==> Tally(outcomes, v) == 0
      ensures irreducible ==> forall i :: 0 <= i < |trials| ==>
        trials[i].verdict.BugDisappeared? || trials[i].verdict.AcceptedCandidate?
      ensures irreducible && Undisturbed() ==>
        forall i :: 0 <= i < |trials| && !trials[i].verdict.AcceptedCandidate? ==>
        var t := trials[i]; Found(world, t.number, t.expected, t.plan, t.group, BugDisappeared)
    {
      hide Wired, Sound, Found, Ruled, Times;
      rejected := attempted - accepted;
      TimesTotal(trials);
      irreducible :=
        && Tally(outcomes, FoundInvalid) == 0 && Tally(outcomes, FailedDifferently) == 0
        && Tally(outcomes, InvalidSchemaFound) == 0 && Tally(outcomes, ConstraintRejected) == 0
        && Tally(outcomes, InfrastructureFault) == 0;
      if irreducible && Undisturbed() {
        forall i | 0 <= i < |trials| && !trials[i].verdict.AcceptedCandidate?
          ensures var t := trials[i]; Found(world, t.number, t.expected, t.plan, t.group, BugDisappeared)
        {
          assert Ruled(world, trials[i]);
          RuledFound(world, trials[i]);
        }
      }
    }
  }

  /** The closure of every table alone. */
  method CloseEach(catalog: Removal.Catalog, objects: seq<Removal.SchemaObject>, tables: Removal.Tables)
    returns (ids: map<TableKey, set<int>>)
    ensures ids.Keys == tables.Keys
    ensures forall k :: k in ids ==> ids[k] == Removal.RemovalIds(catalog, objects, {k}, tables)
  {
    hide Removal.RemovalIds;
    var keys := Listed(tables.Keys);
    ids := map[];
    for i := 0 to |keys|
      invariant forall k :: k in ids <==> k in keys[..i]
      invariant forall k :: k in ids ==> ids[k] == Removal.RemovalIds(catalog, objects, {k}, tables)
    {
      var closed := Removal.ComputeRemovalIds(catalog, objects, {keys[i]}, tables);
      ids := ids[keys[i] := closed];
    }
    assert keys[..|keys|] == keys;
  }

  lemma SoundMeans(plan: Plan, group: set<TableKey>, excluded: set<int>)
    requires Sound(plan, group, excluded)
    ensures excluded == Removal.RemovalIds(plan.catalog, plan.objects, group, plan.tables)
  {
  }

  /** The joined closures are the removal of the whole group. */
  lemma GroupIsSound(plan: Plan, group: set<TableKey>, excluded: set<int>)
    requires plan.Valid() && group <= plan.ids.Keys && excluded == Removal.UnionOf(plan.ids, group)
    ensures Sound(plan, group, excluded)
  {
    Removal.JoinedIsRemoval(plan.ids, group, plan.catalog, plan.objects, plan.tables);
  }

  lemma SingleGroup(ordered: seq<TableKey>, k: TableKey)
    requires k in ordered
    ensures [k] in Chunks(ordered, 1) && GroupOf([k]) == {k}
  {
    var i: nat :| i < |ordered| && ordered[i] == k;
    SingleChunks(ordered, i);
    assert k in GroupOf([k]);
  }

  /** Groups of one table each were all tried: so was every table. */
  lemma SinglesTried(trials: seq<Trial>, from: nat, later: nat, plan: Plan, ordered: seq<TableKey>)
    requires from <= later && forall c :: c in Chunks(ordered, 1) ==> Tried(trials, later, plan, GroupOf(c))
    ensures forall k :: k in ordered ==> Tried(trials, from, plan, {k})
  {
    hide Chunks;
    forall k | k in ordered ensures Tried(trials, from, plan, {k}) {
      SingleGroup(ordered, k);
    }
  }

  /** The trials from `from` on were all refused, and each remaining table was tried alone,
      against this very archive. */
  ghost predicate SchemaIrreducible(trials: seq<Trial>, from: nat, archive: Content) {
    && from <= |trials|
    && (forall i :: from <= i < |trials| ==>
         trials[i].plan.archive == archive && !trials[i].verdict.AcceptedCandidate?)
    && (forall k :: k in archive.rows ==>
         exists i :: from <= i < |trials| && trials[i].group == {k} && trials[i].plan.archive == archive)
  }

  lemma SearchedAll(plan: Plan, g: Ledger, h: Ledger)
    requires Searched(plan, g, h, Returned(false))
    requires forall k :: k in plan.tables ==> Tried(h.trials, |g.trials|, plan, {k})
    ensures h.archive == g.archive && h.uncounted == g.uncounted
    ensures plan.archive == h.archive && plan.tables.Keys == h.archive.rows.Keys ==>
      SchemaIrreducible(h.trials, |g.trials|, h.archive)
  {
    if plan.archive == h.archive && plan.tables.Keys == h.archive.rows.Keys {
      forall k | k in h.archive.rows
        ensures exists i ::
          |g.trials| <= i < |h.trials| && h.trials[i].group == {k} && h.trials[i].plan.archive == h.archive
      {
        assert Tried(h.trials, |g.trials|, plan, {k});
      }
    }
  }

  // ---- what is left when nothing more can be removed ----

  /** Some attempt to remove table `k` alone from this archive finds a reason against it. */
  ghost predicate RefusedAlone(w: World, expected: Option<Identity>, archive: Content, k: TableKey) {
    exists i, v: Verdict :: !v.AcceptedCandidate? && Found(w, i, expected, PlanOf(w, archive), {k}, v)
  }

  ghost predicate SchemaMinimal(w: World, expected: Option<Identity>, archive: Content) {
    forall k :: k in archive.rows ==> RefusedAlone(w, expected, archive, k)
  }

  /** A restore gives the same every time. */
  ghost predicate Repeatable(w: World) {
    && (forall i, j, c, l :: w.restore(i, c, l) == w.restore(j, c, l))
    && (forall i, j, c :: w.reload(i, c) == w.reload(j, c))
  }

  lemma SameRuling(w: World, i: nat, j: nat, expected: Option<Identity>, plan: Plan, group: set<TableKey>)
    requires Repeatable(w)
    ensures RulingOn(w, i, expected, plan, group) == RulingOn(w, j, expected, plan, group)
  {
    hide Removal.RemovalIds, Removal.SelectedLines, OnEvidence, Classify, OfReason;
    forall c ensures Reload(w, i, c) == Reload(w, j, c) {
      assert w.reload(i, c) == w.reload(j, c);
    }
    hide Reload;
  }

  /** With repeatable restores every attempt to remove any single table is refused. */
  lemma MinimalAlways(w: World, expected: Option<Identity>, archive: Content, i: nat, k: TableKey)
    requires SchemaMinimal(w, expected, archive) && Repeatable(w) && k in archive.rows
    ensures exists v: Verdict :: !v.AcceptedCandidate? && Found(w, i, expected, PlanOf(w, archive), {k}, v)
    ensures forall data :: !Accepts(w, i, expected, PlanOf(w, archive), {k}, data)
  {
    hide RulingOn, PlanOf, Repeatable;
    assert RefusedAlone(w, expected, archive, k);
    var j, v: Verdict :| !v.AcceptedCandidate? && Found(w, j, expected, PlanOf(w, archive), {k}, v);
    RulingExact(w, j, expected, PlanOf(w, archive), {k}, v);
    SameRuling(w, i, j, expected, PlanOf(w, archive), {k});
    RulingExact(w, i, expected, PlanOf(w, archive), {k}, v);
    AcceptedFound(w, i, expected, PlanOf(w, archive), {k});
    hide Found, Accepts;
  }

  /** Each remaining table was tried alone and ruled on. */
  lemma TriedMinimal(w: World, plan: Plan, g: Ledger, h: Ledger)
    requires Searched(plan, g, h, Returned(false)) && h.undisturbed
    requires forall k :: k in plan.tables ==> Tried(h.trials, |g.trials|, plan, {k})
    requires AllRuled(w, h.trials) && plan == PlanOf(w, h.archive)
    ensures SchemaMinimal(w, h.expected, h.archive)
  {
    hide RulingOn, Removal.RemovalIds, Found;
    forall k | k in h.archive.rows ensures RefusedAlone(w, h.expected, h.archive, k) {
      assert k in plan.tables;
      var i :| |g.trials| <= i < |h.trials| && h.trials[i].plan == plan && h.trials[i].group == {k}
        && !h.trials[i].verdict.AcceptedCandidate?;
      assert Ruled(w, h.trials[i]);
      RuledFound(w, h.trials[i]);
      assert Found(w, h.trials[i].number, h.expected, PlanOf(w, h.archive), {k}, h.trials[i].verdict);
    }
  }

  lemma SearchedCounted(plan: Plan, g: Ledger, h: Ledger)
    requires Searched(plan, g, h, Returned(true))
    ensures h.uncounted == g.uncounted
    ensures h.untaken ==> |h.archive.rows| < |plan.tables|
  {
    if h.untaken { SubsetSmaller(h.archive.rows.Keys, plan.tables.Keys); }
  }

  lemma SameSize<K, U, V>(a: map<K, U>, b: map<K, V>)
    ensures a.Keys == b.Keys ==> |a| == |b|
  {
    assert |a| == |a.Keys| && |b| == |b.Keys|;
  }

  lemma SubsetSmaller<T>(a: set<T>, b: set<T>)
    requires a < b
    ensures |a| < |b|
  {
    var rest := b - a;
    assert b == a + rest && rest != {};
  }
}
