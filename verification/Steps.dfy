/** One attempt of a backend, seen from outside: from which content and rows, with what
    answer and why. Both backends refine `Step`; both keep a log of probes. */
module Steps {
  import opened Wrappers
  import opened Ordering
  import opened Schema
  import opened Cluster
  import opened Tracking
  import opened States
  import opened Verdicts
  import opened Oracle

  /** What the server makes of a closed deletion: triggers may do anything to the content. */
  datatype Deletion = Left(data: Content) | ConstraintViolated | RaisedByTrigger | Broke(fault: Fault)

  type Digest = seq<int>

  /** What the run works on: the tables, what probe number i's deletion does, the digest of a
      dump, and the oracle. */
  datatype World = World(tables: set<TableKey>, deletion: (nat, Content, TableKey, seq<RowKey>) -> Deletion,
                         digest: Content -> Digest, cfg: Config, behaviour: (nat, Content) -> Evidence)

  /** Deletion and oracle always answer alike, and the digest tells contents apart. */
  ghost predicate Deterministic(w: World) {
    && (forall i, j, c, t, k :: w.deletion(i, c, t, k) == w.deletion(j, c, t, k))
    && (forall c :: Steady(w.behaviour, c))
    && (forall a, b :: w.digest(a) == w.digest(b) ==> a == b)
  }

  /** No deletion leaves a table with more rows. */
  ghost predicate Shrinking(w: World) {
    forall i, c, t, k, u :: ShrinkCase(w, i, c, t, k, u) ==> |w.deletion(i, c, t, k).data.rows[u]| <= |c.rows[u]|
  }

  ghost predicate ShrinkCase(w: World, i: nat, c: Content, t: TableKey, k: seq<RowKey>, u: TableKey) {
    && u in w.tables && w.tables <= c.rows.Keys
    && w.deletion(i, c, t, k).Left? && w.tables <= w.deletion(i, c, t, k).data.rows.Keys
  }

  /** A deletion that keeps every table and does not break off. */
  ghost predicate DeletesWell(w: World, i: nat, c: Content, table: TableKey, rows: seq<RowKey>) {
    var d := w.deletion(i, c, table, rows);
    !d.Broke? && (d.Left? ==> w.tables <= d.data.rows.Keys)
  }

  /** On contents with the schema's tables deletions never break off, and every execution is
      decided: nothing stops a run from inside. */
  ghost predicate Robust(w: World) {
    && (forall i, c: Content, t, k :: w.tables <= c.rows.Keys && t in w.tables ==> DeletesWell(w, i, c, t, k))
    && (forall c: Content :: w.tables <= c.rows.Keys ==> Decisive(w.cfg, w.behaviour, c))
  }

  lemma RobustAt(w: World, i: nat, c: Content, table: TableKey, rows: seq<RowKey>)
    ensures Robust(w) && w.tables <= c.rows.Keys ==>
      (table in w.tables ==> DeletesWell(w, i, c, table, rows)) && Decisive(w.cfg, w.behaviour, c)
  {
  }

  /** A result, an exception passed on, or a row key that `locations` does not have. */
  datatype Try<+T> = Done(value: T) | Passed(e: Exception) | KeyError

  /** The rows asked for are rows of the table (otherwise the lookup in `locations` fails). */
  predicate Present(state: State, table: TableKey, rows: seq<RowKey>) {
    table in state && forall k :: k in rows ==> k in state[table]
  }

  // ---- the abstract step ----

  /** The accepted content and the identity to preserve. */
  datatype Abstract = Abstract(data: Content, expected: Option<Identity>)

  /** The answer and the next accepted content; None if the attempt raises. */
  ghost function Step(w: World, a: Abstract, table: TableKey, rows: seq<RowKey>): Option<(bool, Abstract)> {
    if !(w.tables <= a.data.rows.Keys) || !Present(StateOf(w.tables, a.data), table, rows) then None
    else match w.deletion(0, a.data, table, rows)
      case Broke(_) => None
      case ConstraintViolated => Some((false, a))
      case RaisedByTrigger => Some((false, a))
      case Left(c) => Judge(w, a, c)
  }

  ghost function Judge(w: World, a: Abstract, candidate: Content): Option<(bool, Abstract)>
    requires w.tables <= a.data.rows.Keys
  {
    if !(w.tables <= candidate.rows.Keys) then None
    else if Size(StateOf(w.tables, candidate)) >= Size(StateOf(w.tables, a.data)) then Some((false, a))
    else
      var e := w.behaviour(0, candidate);
      match Reproduced(w.cfg, a.expected, e)
      case None => None
      case Some(false) => Some((false, a))
      case Some(true) => Some((true, Abstract(candidate, Locked(a.expected, Classify(w.cfg, a.expected, e)))))
  }

  /** The rows of the tables, one by one. */
  ghost function Places(tables: set<TableKey>, data: Content): set<(TableKey, nat)>
    requires tables <= data.rows.Keys
  {
    set t, i | t in tables && 0 <= i < |data.rows[t]| :: (t, i)
  }

  /** What is accepted: a deletion that leaves every table and fewer rows, with the failure
      expected there. What is refused: a deletion the server refuses, one that leaves every table
      and no fewer rows, or fewer without that failure; then nothing changes. */
  lemma StepExact(w: World, a: Abstract, table: TableKey, rows: seq<RowKey>, c: Content)
    requires w.tables <= a.data.rows.Keys && Present(StateOf(w.tables, a.data), table, rows)
    ensures var d, s := w.deletion(0, a.data, table, rows), Step(w, a, table, rows);
            && (s.Some? && s.value.0 && s.value.1.data == c <==>
                 && d == Left(c) && w.tables <= c.rows.Keys
                 && |Places(w.tables, c)| < |Places(w.tables, a.data)|
                 && ShowsSame(w.cfg, a.expected, w.behaviour(0, c)))
            && (s.Some? && !s.value.0 && d == Left(c) <==>
                 && d == Left(c) && w.tables <= c.rows.Keys
                 && (|Places(w.tables, c)| >= |Places(w.tables, a.data)|
                     || ShowsOtherwise(w.cfg, a.expected, w.behaviour(0, c))))
            && (d == ConstraintViolated || d == RaisedByTrigger ==> s == Some((false, a)))
            && (s.Some? && !s.value.0 ==> s.value.1 == a)
  {
    hide Classify, Reproduced, Places, StateOf, Size, Present, ShowsSame, ShowsOtherwise, ShowsTimeout,
         ShowsNothing, Locked;
    ReproducedIff(w.cfg, a.expected, w.behaviour(0, c));
    SizeCounts(w.tables, a.data);
    if w.tables <= c.rows.Keys { SizeCounts(w.tables, c); }
  }

  lemma SizeCounts(tables: set<TableKey>, data: Content)
    requires tables <= data.rows.Keys
    ensures Size(StateOf(tables, data)) == |Places(tables, data)|
  {
    forall t | t in tables ensures |StateOf(tables, data)[t]| == |data.rows[t]| { StateLength(tables, data, t); }
    hide StateOf;
    var keys := SortedKeys(tables);
    SizeOverCounts(keys, StateOf(tables, data), data);
    assert (set t | t in keys) == tables;
  }

  lemma {:induction false} SizeOverCounts(keys: seq<TableKey>, state: State, data: Content)
    requires forall k :: k in keys ==> k in data.rows && k in state && |state[k]| == |data.rows[k]|
    requires Ascending(keys)
    ensures SizeOver(keys, state) == |Places((set t | t in keys), data)|
  {
    if keys != [] {
      var t, rest := keys[0], (set u | u in keys[1..]);
      SizeOverCounts(keys[1..], state, data);
      assert (set u | u in keys) == rest + {t};
      PlacesOf(t, |data.rows[t]|);
      PlacesMore(rest, t, data);
    }
  }

  lemma PlacesMore(rest: set<TableKey>, t: TableKey, data: Content)
    requires rest + {t} <= data.rows.Keys && t !in rest
    ensures |Places(rest + {t}, data)| == |Places(rest, data)| + |set i | 0 <= i < |data.rows[t]| :: (t, i)|
  {
    assert Places(rest + {t}, data) == Places(rest, data) + set i | 0 <= i < |data.rows[t]| :: (t, i);
  }

  lemma {:induction false} PlacesOf(t: TableKey, n: nat)
    ensures |set i | 0 <= i < n :: (t, i)| == n
  {
    if n > 0 {
      PlacesOf(t, n - 1);
      assert (set i | 0 <= i < n :: (t, i)) == (set i | 0 <= i < n - 1 :: (t, i)) + {(t, n - 1)};
    }
  }

  /** `state` is what reading `data` gives. */
  ghost predicate Reads(tables: set<TableKey>, data: Content, state: State) {
    tables <= data.rows.Keys && state == StateOf(tables, data)
  }

  type Request = (TableKey, seq<RowKey>)

  /** A whole run of attempts. */
  ghost function RunOf(w: World, a: Abstract, requests: seq<Request>): Option<(seq<bool>, Abstract)>
    decreases |requests|
  {
    if requests == [] then Some(([], a))
    else
      var n := |requests| - 1;
      match RunOf(w, a, requests[..n])
      case None => None
      case Some((answers, b)) =>
        match Step(w, b, requests[n].0, requests[n].1)
        case None => None
        case Some((answer, c)) => Some((answers + [answer], c))
  }

  lemma RunNext(w: World, a: Abstract, requests: seq<Request>, i: nat, answers: seq<bool>, b: Abstract,
                answer: bool, c: Abstract)
    requires i < |requests| && RunOf(w, a, requests[..i]) == Some((answers, b))
    requires Step(w, b, requests[i].0, requests[i].1) == Some((answer, c))
    ensures RunOf(w, a, requests[..i + 1]) == Some((answers + [answer], c))
  {
    assert requests[..i + 1][..i] == requests[..i];
    hide Step;
  }

  lemma RunNothing(w: World, a: Abstract, requests: seq<Request>)
    ensures RunOf(w, a, requests[..0]) == Some(([], a))
  {
  }

  /** Each request asks for rows that are there when the abstract run comes to it. */
  ghost predicate PresentAlong(w: World, a: Abstract, requests: seq<Request>)
    decreases |requests|
  {
    requests == [] ||
    var n := |requests| - 1;
    && PresentAlong(w, a, requests[..n])
    && (RunOf(w, a, requests[..n]).Some? ==> PresentIn(w, RunOf(w, a, requests[..n]).value.1, requests[n]))
  }

  ghost predicate PresentIn(w: World, a: Abstract, request: Request) {
    w.tables <= a.data.rows.Keys && Present(StateOf(w.tables, a.data), request.0, request.1)
  }

  lemma {:induction false} PresentAt(w: World, a: Abstract, requests: seq<Request>, i: nat)
    requires PresentAlong(w, a, requests) && i < |requests| && RunOf(w, a, requests[..i]).Some?
    ensures PresentIn(w, RunOf(w, a, requests[..i]).value.1, requests[i])
    decreases |requests|
  {
    hide PresentIn, RunOf;
    var n := |requests| - 1;
    if i < n {
      assert requests[..n][..i] == requests[..i];
      PresentAt(w, a, requests[..n], i);
    }
  }

  /** Accepting never loses the failure: what reproduces it now still does after any run. */
  lemma {:induction false} RunKeepsFailing(w: World, a: Abstract, requests: seq<Request>)
    requires Reproduced(w.cfg, a.expected, w.behaviour(0, a.data)) == Some(true)
    requires RunOf(w, a, requests).Some?
    ensures var b := RunOf(w, a, requests).value.1;
            Reproduced(w.cfg, b.expected, w.behaviour(0, b.data)) == Some(true)
    decreases |requests|
  {
    if requests != [] {
      var n := |requests| - 1;
      RunKeepsFailing(w, a, requests[..n]);
      var b := RunOf(w, a, requests[..n]).value.1;
      StepKeepsFailing(w, b, requests[n].0, requests[n].1);
    }
  }

  lemma StepKeepsFailing(w: World, a: Abstract, table: TableKey, rows: seq<RowKey>)
    requires Step(w, a, table, rows).Some?
    requires Reproduced(w.cfg, a.expected, w.behaviour(0, a.data)) == Some(true)
    ensures var b := Step(w, a, table, rows).value.1;
            Reproduced(w.cfg, b.expected, w.behaviour(0, b.data)) == Some(true)
  {
    hide Classify, StateOf, Present;
    match w.deletion(0, a.data, table, rows) {
      case Left(c) =>
        if Reproduced(w.cfg, a.expected, w.behaviour(0, c)) == Some(true) {
          LockedDecides(w.cfg, a.expected, w.behaviour(0, c));
        }
      case _ =>
    }
  }

  // ---- the cache ----

  /** What a cached answer rests on: the content it was given for and the deciding outcome. */
  type Ground = (Content, Outcome)

  /** Each cached answer is that of a counted oracle verdict on a content with that digest. */
  ghost predicate Grounded(digest: Content -> Digest, results: map<Digest, bool>, grounds: map<Digest, Ground>,
                           outcomes: map<Outcome, nat>) {
    forall k :: k in results ==>
      && k in grounds && digest(grounds[k].0) == k
      && (results[k] <==> grounds[k].1.SameFailure?)
      && (!results[k] ==> Refusing(grounds[k].1))
      && Tally(outcomes, grounds[k].1) > 0
  }

  /** The answers are those the oracle would give again. */
  ghost predicate Faithful(w: World, results: map<Digest, bool>, grounds: map<Digest, Ground>,
                           expected: Option<Identity>) {
    forall k :: k in results && k in grounds ==>
      && Reproduced(w.cfg, expected, w.behaviour(0, grounds[k].0)) == Some(results[k])
      && (results[k] ==> expected.Some?)
  }

  /** The oracle did run on the content a cached answer was given for, with its outcome. */
  ghost predicate Backed(calls: seq<Call>, results: map<Digest, bool>, grounds: map<Digest, Ground>) {
    forall k :: k in results && k in grounds ==> Ran(calls, grounds[k].0, grounds[k].1)
  }

  lemma BackedStill(a: seq<Call>, b: seq<Call>, results: map<Digest, bool>, grounds: map<Digest, Ground>)
    requires a <= b && Backed(a, results, grounds)
    ensures Backed(b, results, grounds)
  {
    hide Ran;
    forall k | k in results && k in grounds ensures Ran(b, grounds[k].0, grounds[k].1) {
      RanStill(a, b, grounds[k].0, grounds[k].1);
    }
  }

  lemma BackedMore(calls: seq<Call>, results: map<Digest, bool>, grounds: map<Digest, Ground>, k: Digest, failed: bool,
                   c: Content, o: Outcome)
    requires Backed(calls, results, grounds) && Ran(calls, c, o)
    ensures Backed(calls, results[k := failed], grounds[k := (c, o)])
  {
    hide Ran;
  }

  lemma GroundedMore(digest: Content -> Digest, results: map<Digest, bool>, grounds: map<Digest, Ground>,
                     outcomes: map<Outcome, nat>, c: Content, o: Outcome)
    requires Grounded(digest, results, grounds, outcomes)
    requires o.SameFailure? || Refusing(o)
    ensures Grounded(digest, results[digest(c) := o.SameFailure?], grounds[digest(c) := (c, o)], Counted(outcomes, o))
  {
  }

  lemma FaithfulStays(w: World, results: map<Digest, bool>, grounds: map<Digest, Ground>,
                      before: Option<Identity>, after: Option<Identity>)
    requires Faithful(w, results, grounds, before) && (before.Some? ==> after == before)
    ensures Faithful(w, results, grounds, after)
  {
    if before.None? && after.Some? {
      forall k | k in results && k in grounds
        ensures Reproduced(w.cfg, after, w.behaviour(0, grounds[k].0)) == Some(results[k]) && !results[k]
      {
        ExpectedOnlySplits(w.cfg, after.value, w.behaviour(0, grounds[k].0));
      }
    }
  }

  lemma FaithfulMore(w: World, results: map<Digest, bool>, grounds: map<Digest, Ground>,
                     before: Option<Identity>, c: Content, failed: bool, o: Outcome)
    requires Faithful(w, results, grounds, before)
    requires Reproduced(w.cfg, before, w.behaviour(0, c)) == Some(failed)
    ensures var after := Locked(before, Classify(w.cfg, before, w.behaviour(0, c)));
            Faithful(w, results[w.digest(c) := failed], grounds[w.digest(c) := (c, o)], after)
  {
    var e := w.behaviour(0, c);
    var after := Locked(before, Classify(w.cfg, before, e));
    FaithfulStays(w, results, grounds, before, after);
    if failed {
      LockedDecides(w.cfg, before, e);
      SameFailureHasIdentity(w.cfg, before, e);
    }
  }

  lemma HitGround(digest: Content -> Digest, results: map<Digest, bool>, grounds: map<Digest, Ground>,
                  outcomes: map<Outcome, nat>, k: Digest)
    requires Grounded(digest, results, grounds, outcomes) && k in results
    ensures k in grounds && digest(grounds[k].0) == k && Tally(outcomes, grounds[k].1) > 0
    ensures if results[k] then grounds[k].1.SameFailure? else Refusing(grounds[k].1)
  {
  }

  lemma HitRan(calls: seq<Call>, results: map<Digest, bool>, grounds: map<Digest, Ground>, k: Digest)
    requires Backed(calls, results, grounds) && k in results && k in grounds
    ensures Ran(calls, grounds[k].0, grounds[k].1)
  {
    hide Ran;
  }

  /** A hit answers as the oracle would, and would not change the identity. */
  lemma HitAnswers(w: World, results: map<Digest, bool>, grounds: map<Digest, Ground>, outcomes: map<Outcome, nat>,
                   expected: Option<Identity>, c: Content)
    requires Deterministic(w) && Faithful(w, results, grounds, expected)
    requires Grounded(w.digest, results, grounds, outcomes) && w.digest(c) in results
    ensures Reproduced(w.cfg, expected, w.behaviour(0, c)) == Some(results[w.digest(c)])
    ensures Locked(expected, Classify(w.cfg, expected, w.behaviour(0, c))) == expected
  {
    HitGround(w.digest, results, grounds, outcomes, w.digest(c));
    assert grounds[w.digest(c)].0 == c;
    hide Classify, Deterministic, Grounded;
  }

  // ---- the log ----

  /** Why a probe was answered as it was. `left` is what the deletion left; `judged` is what the
      oracle ran on, the same content unless the answer comes from the cache. */
  datatype Answer =
    | Accepted(left: Content, judged: Content, cached: bool)
    | NoShrink(left: Content, candidate: State)
    | ConstraintRefused
    | TriggerRefused
    | OracleRefused(left: Content, judged: Content, outcome: Outcome, cached: bool)
  {
    /** The oracle was asked for this answer. */
    predicate Asked() {
      (Accepted? || OracleRefused?) && !cached
    }

    function Ground(): Outcome
      requires Accepted? || OracleRefused?
    {
      if Accepted? then SameFailure else outcome
    }
  }

  /** One attempt: its number, what was accepted before and after it, and the answer. */
  datatype Probe = Probe(index: nat, store: Abstract, before: State, table: TableKey, rows: seq<RowKey>,
                         after: State, next: Abstract, answer: Answer)

  /** What a probe's answer says of the states around it. */
  ghost predicate Coherent(p: Probe) {
    && p.table in p.before && p.before.Keys == p.after.Keys
    && match p.answer
       case Accepted(_, _, _) => Size(p.after) < Size(p.before)
       case NoShrink(_, candidate) => p.after == p.before && Size(candidate) >= Size(p.before)
       case OracleRefused(_, _, o, _) => p.after == p.before && Refusing(o)
       case _ => p.after == p.before
  }

  // ---- what an answer rests on ----

  /** The oracle ran on `judged` with outcome `o`, and `judged` is `left`, or has its digest if
      the answer was cached. */
  ghost predicate Rests(w: World, calls: seq<Call>, left: Content, judged: Content, o: Outcome, cached: bool) {
    && Ran(calls, judged, o)
    && (if cached then w.digest(judged) == w.digest(left) else judged == left)
  }

  /** With a deterministic oracle: its answer on `left`, and the identity kept after it. */
  ghost predicate Told(w: World, before: Option<Identity>, left: Content, failed: bool, after: Option<Identity>) {
    && Reproduced(w.cfg, before, w.behaviour(0, left)) == Some(failed)
    && after == Locked(before, Classify(w.cfg, before, w.behaviour(0, left)))
  }

  /** The answer is what the deletion, the comparison and the oracle made of the accepted
      content, and the probe's next accepted content follows from it. */
  ghost predicate Explained(w: World, calls: seq<Call>, p: Probe) {
    && Reads(w.tables, p.store.data, p.before) && Present(p.before, p.table, p.rows)
    && p.next.data == (if p.answer.Accepted? then p.answer.left else p.store.data)
    && var d := w.deletion(p.index, p.store.data, p.table, p.rows);
       match p.answer
       case ConstraintRefused => d == ConstraintViolated && p.next == p.store
       case TriggerRefused => d == RaisedByTrigger && p.next == p.store
       case NoShrink(left, candidate) => d == Left(left) && Reads(w.tables, left, candidate) && p.next == p.store
       case OracleRefused(left, judged, o, cached) =>
         && d == Left(left) && Shrinks(w, left, p.before) && Rests(w, calls, left, judged, o, cached)
         && (Deterministic(w) ==> Told(w, p.store.expected, left, false, p.next.expected))
       case Accepted(left, judged, cached) =>
         && d == Left(left) && Reads(w.tables, left, p.after) && Rests(w, calls, left, judged, SameFailure, cached)
         && (Deterministic(w) ==> Told(w, p.store.expected, left, true, p.next.expected))
  }

  /** The rows left are fewer than those of `state`. */
  ghost predicate Shrinks(w: World, left: Content, state: State) {
    w.tables <= left.rows.Keys && Size(StateOf(w.tables, left)) < Size(state)
  }

  ghost predicate AllExplained(w: World, calls: seq<Call>, log: seq<Probe>) {
    forall i :: 0 <= i < |log| ==> Explained(w, calls, log[i])
  }

  /** More executions do not change why. */
  lemma ExplainedStill(w: World, a: seq<Call>, b: seq<Call>, log: seq<Probe>)
    requires a <= b && AllExplained(w, a, log)
    ensures AllExplained(w, b, log)
  {
    hide Told, Ran, StateOf, Present, Deterministic, Size;
    forall i | 0 <= i < |log| ensures Explained(w, b, log[i]) {
      match log[i].answer
      case OracleRefused(_, judged, o, _) => RanStill(a, b, judged, o);
      case Accepted(_, judged, _) => RanStill(a, b, judged, SameFailure);
      case _ =>
    }
  }

  lemma ExplainedMore(w: World, calls: seq<Call>, log: seq<Probe>, p: Probe)
    requires AllExplained(w, calls, log) && Explained(w, calls, p)
    ensures AllExplained(w, calls, log + [p])
  {
    hide Explained;
  }

  /** In a deterministic world an explained probe is exactly the abstract step. */
  lemma ExplainedSteps(w: World, calls: seq<Call>, p: Probe)
    requires Deterministic(w) && Explained(w, calls, p) && Coherent(p)
    ensures Step(w, p.store, p.table, p.rows) == Some((p.answer.Accepted?, p.next))
  {
    hide Deterministic, Classify, StateOf, Size, Present, Ran, Judge, Told;
    var d := w.deletion(p.index, p.store.data, p.table, p.rows);
    SameDeletion(w, p.index, p.store.data, p.table, p.rows);
    match p.answer {
      case NoShrink(left, candidate) => JudgeSmall(w, p.store, p.before, left, candidate);
      case OracleRefused(left, _, _, _) => JudgeAsks(w, p.store, p.before, left, false, p.next);
      case Accepted(left, _, _) => JudgeAsks(w, p.store, p.before, left, true, p.next);
      case _ =>
    }
  }

  lemma SameDeletion(w: World, i: nat, c: Content, table: TableKey, rows: seq<RowKey>)
    requires Deterministic(w)
    ensures w.deletion(i, c, table, rows) == w.deletion(0, c, table, rows)
  {
  }

  lemma JudgeSmall(w: World, a: Abstract, current: State, c: Content, state: State)
    requires Reads(w.tables, a.data, current) && Reads(w.tables, c, state) && Size(state) >= Size(current)
    ensures Judge(w, a, c) == Some((false, a))
  {
    hide StateOf, Size;
  }

  lemma JudgeAsks(w: World, a: Abstract, current: State, c: Content, failed: bool, b: Abstract)
    requires Reads(w.tables, a.data, current) && Shrinks(w, c, current)
    requires Told(w, a.expected, c, failed, b.expected) && b.data == if failed then c else a.data
    ensures Judge(w, a, c) == Some((failed, b))
  {
    hide StateOf, Size;
  }

  /** The probes lead from the accepted content `a` to `b`. */
  ghost predicate Linked(log: seq<Probe>, a: Abstract, b: Abstract) {
    if log == [] then a == b
    else
      var last := log[|log| - 1];
      last.next == b && Linked(log[..|log| - 1], a, last.store)
  }

  lemma LinkedSnoc(log: seq<Probe>, a: Abstract, p: Probe)
    requires Linked(log, a, p.store)
    ensures Linked(log + [p], a, p.next)
  {
    assert (log + [p])[..|log|] == log;
  }

  lemma LinkedNothing(log: seq<Probe>, a: Abstract)
    ensures Linked(log[|log|..], a, a)
  {
  }

  lemma StepRefuses(w: World, a: Abstract, table: TableKey, rows: seq<RowKey>, b: Abstract)
    requires Step(w, a, table, rows) == Some((false, b))
    ensures a == b
  {
    hide Classify, StateOf, Size, Present;
  }

  lemma NotedLater(f: Moment, g: Moment, h: Moment, table: TableKey, rows: seq<RowKey>, accepted: bool)
    requires Noted(g, h, table, rows, accepted) && g == f.(probes := g.probes)
    ensures Noted(f, h, table, rows, accepted)
  {
  }

  lemma {:induction false} LastCoherent(log: seq<Probe>, s: State, t: State)
    requires Chain(log, s, t) && log != []
    ensures Coherent(log[|log| - 1])
  {
    hide Coherent;
  }

  /** A noted probe lengthens the chain of accepted contents. */
  lemma NotedLinks(g: Moment, h: Moment, table: TableKey, rows: seq<RowKey>, accepted: bool, base: nat, start: Abstract,
                   undisturbed: bool)
    requires Noted(g, h, table, rows, accepted) && base <= |g.log|
    requires undisturbed ==> Linked(g.log[base..], start, g.store)
    ensures base <= |h.log| && h.log == g.log + [h.log[|h.log| - 1]]
    ensures undisturbed ==> Linked(h.log[base..], start, h.store)
    ensures var p := h.log[|h.log| - 1];
            && p.store == g.store && p.next == h.store && p.table == table && p.rows == rows
            && (accepted <==> p.answer.Accepted?)
  {
    var p := h.log[|g.log|];
    if undisturbed {
      LinkedSnoc(g.log[base..], start, p);
      assert h.log[base..] == g.log[base..] + [p];
    }
    hide Linked;
  }

  lemma ShrinksIs(w: World, left: Content, state: State, current: State)
    requires Reads(w.tables, left, state) && Size(state) < Size(current)
    ensures Shrinks(w, left, current)
  {
    hide StateOf, Size;
  }

  /** Along refused steps nothing changes: each was taken from the final accepted content. */
  lemma {:induction false} RefusedFromHere(w: World, calls: seq<Call>, log: seq<Probe>, from: nat, a: Abstract,
                                           b: Abstract, i: nat)
    requires Deterministic(w) && AllExplained(w, calls, log) && Linked(log, a, b)
    requires forall j :: 0 <= j < |log| ==> Coherent(log[j])
    requires forall j :: from <= j < |log| ==> !log[j].answer.Accepted?
    requires from <= i < |log|
    ensures log[i].store == b && log[i].next == b
    ensures Step(w, b, log[i].table, log[i].rows) == Some((false, b))
    decreases |log|
  {
    hide Coherent, Explained, Step, Deterministic;
    var n := |log| - 1;
    ExplainedSteps(w, calls, log[n]);
    StepRefuses(w, log[n].store, log[n].table, log[n].rows, log[n].next);
    if i < n {
      assert AllExplained(w, calls, log[..n]);
      RefusedFromHere(w, calls, log[..n], from, a, log[n].store, i);
    }
  }

  lemma RefusedKeepsData(w: World, calls: seq<Call>, p: Probe)
    requires Explained(w, calls, p) && !p.answer.Accepted?
    ensures p.next.data == p.store.data
  {
    hide Reads, Present, Told, Rests, Shrinks, Deterministic;
  }

  /** Whatever the world answers: refused probes leave the accepted content alone. */
  lemma {:induction false} RefusedSameData(w: World, calls: seq<Call>, log: seq<Probe>, from: nat, a: Abstract,
                                           b: Abstract, i: nat)
    requires AllExplained(w, calls, log) && Linked(log, a, b)
    requires forall j :: from <= j < |log| ==> !log[j].answer.Accepted?
    requires from <= i < |log|
    ensures log[i].store.data == b.data
    decreases |log|
  {
    hide Explained;
    var n := |log| - 1;
    RefusedKeepsData(w, calls, log[n]);
    if i < n {
      assert AllExplained(w, calls, log[..n]);
      RefusedSameData(w, calls, log[..n], from, a, log[n].store, i);
    }
  }

  // ---- one attempt, seen from the backend ----

  /** What an attempt starts from and ends with. */
  datatype Moment = Moment(log: seq<Probe>, state: State, store: Abstract, probes: nat, executions: nat,
                           lastOutcome: Option<Outcome>)

  /** One probe was written down: the one asked for, with the reason, and the oracle was asked
      exactly if the answer says so. */
  ghost predicate Noted(g: Moment, h: Moment, table: TableKey, rows: seq<RowKey>, accepted: bool) {
    && |h.log| == |g.log| + 1 && h.log[..|g.log|] == g.log
    && var p := h.log[|g.log|];
       && p == Probe(h.probes, g.store, g.state, table, rows, h.state, h.store, p.answer)
       && (accepted <==> p.answer.Accepted?)
       && (p.answer.Asked() <==> h.executions > g.executions)
       && (p.answer.Asked() ==> h.lastOutcome == Some(p.answer.Ground()))
  }

  lemma ServerRefusal(p: Probe)
    requires p.table in p.before && p.after == p.before && (p.answer.ConstraintRefused? || p.answer.TriggerRefused?)
    ensures Coherent(p)
  {
  }

  lemma VerdictRefusal(p: Probe)
    requires p.table in p.before && p.after == p.before
    requires
      || (p.answer.NoShrink? && Size(p.answer.candidate) >= Size(p.before))
      || (p.answer.OracleRefused? && Refusing(p.answer.outcome))
    ensures Coherent(p)
  {
    hide Size;
  }

  /** The probes lead from state `s` to state `t`. */
  ghost predicate Chain(log: seq<Probe>, s: State, t: State) {
    if log == [] then s == t
    else
      var last := log[|log| - 1];
      Coherent(last) && last.after == t && Chain(log[..|log| - 1], s, last.before)
  }

  lemma ChainSnoc(log: seq<Probe>, s: State, p: Probe)
    requires Chain(log, s, p.before) && Coherent(p)
    ensures Chain(log + [p], s, p.after)
  {
    assert (log + [p])[..|log|] == log;
  }

  lemma {:induction false} ChainConcat(a: seq<Probe>, b: seq<Probe>, s: State, t: State, u: State)
    requires Chain(a, s, t) && Chain(b, t, u)
    ensures Chain(a + b, s, u)
    decreases |b|
  {
    hide Coherent;
    if b == [] {
      assert a + b == a;
    } else {
      var n := |b| - 1;
      ChainConcat(a, b[..n], s, t, b[n].before);
      assert (a + b)[..|a + b| - 1] == a + b[..n];
    }
  }

  ghost predicate AllRefused(log: seq<Probe>) {
    forall i :: 0 <= i < |log| ==> !log[i].answer.Accepted?
  }

  lemma CoherentShrinks(p: Probe)
    requires Coherent(p)
    ensures p.before.Keys == p.after.Keys
    ensures if p.answer.Accepted? then Size(p.after) < Size(p.before) else p.after == p.before
  {
    hide Size;
  }

  /** Sizes only go down along a chain, strictly if anything was accepted. */
  lemma {:induction false} ChainShrinks(log: seq<Probe>, s: State, t: State)
    requires Chain(log, s, t)
    ensures s.Keys == t.Keys && Size(t) <= Size(s) && (!AllRefused(log) ==> Size(t) < Size(s))
  {
    hide Size, Coherent;
    if log != [] {
      var n := |log| - 1;
      ChainShrinks(log[..n], s, log[n].before);
      CoherentShrinks(log[n]);
      if !log[n].answer.Accepted? && !AllRefused(log) {
        var i :| 0 <= i < |log| && log[i].answer.Accepted?;
        assert log[..n][i] == log[i];
      }
    }
  }

  /** Where nothing was accepted the state never changed. */
  lemma {:induction false} RefusedStays(log: seq<Probe>, s: State, t: State)
    requires Chain(log, s, t) && AllRefused(log)
    ensures s == t && forall i :: 0 <= i < |log| ==> log[i].before == s
  {
    hide Size, Coherent;
    if log != [] {
      var n := |log| - 1;
      assert AllRefused(log[..n]);
      RefusedStays(log[..n], s, log[n].before);
      CoherentShrinks(log[n]);
      forall i | 0 <= i < |log| ensures log[i].before == s {
        if i < n { assert log[..n][i] == log[i]; }
      }
    }
  }

  /** Every refusal by the oracle, cached or not, rests on an outcome the backend counted. */
  ghost predicate Tallied(log: seq<Probe>, outcomes: map<Outcome, nat>) {
    forall i :: 0 <= i < |log| && log[i].answer.OracleRefused? ==> Tally(outcomes, log[i].answer.outcome) > 0
  }

  lemma TalliedMore(log: seq<Probe>, outcomes: map<Outcome, nat>, p: Probe, o: Option<Outcome>)
    requires Tallied(log, outcomes)
    requires p.answer.OracleRefused? ==> Tally(outcomes, p.answer.outcome) > 0 || o == Some(p.answer.outcome)
    ensures Tallied(log + [p], if o.Some? then Counted(outcomes, o.value) else outcomes)
  {
  }

  lemma TalliedCounted(log: seq<Probe>, outcomes: map<Outcome, nat>, o: Outcome)
    requires Tallied(log, outcomes)
    ensures Tallied(log, Counted(outcomes, o))
  {
  }

  /** How many probes were accepted, refused by a constraint, refused by a trigger, and with
      which outcome the oracle answered. */
  datatype Counters = Counters(accepted: nat, constraints: nat, raises: nat, outcomes: map<Outcome, nat>)
  {
    /** After an answer of the oracle, unless it was cached. */
    function Heard(o: Outcome, cached: bool): Counters {
      if cached then this else Counters(accepted, constraints, raises, Counted(outcomes, o))
    }

    function Plus(a: Answer): Counters {
      match a
      case Accepted(_, _, cached) => Counters(accepted + 1, constraints, raises, Heard(SameFailure, cached).outcomes)
      case OracleRefused(_, _, o, cached) => Heard(o, cached)
      case ConstraintRefused => Counters(accepted, constraints + 1, raises, outcomes)
      case TriggerRefused => Counters(accepted, constraints, raises + 1, outcomes)
      case NoShrink(_, _) => this
    }
  }

  ghost function CountersOf(log: seq<Probe>): Counters {
    if log == [] then Counters(0, 0, 0, map[]) else CountersOf(log[..|log| - 1]).Plus(log[|log| - 1].answer)
  }

  lemma CountersSnoc(log: seq<Probe>, p: Probe)
    ensures CountersOf(log + [p]) == CountersOf(log).Plus(p.answer)
  {
    assert (log + [p])[..|log|] == log;
  }

  /** The probes whose answer is of one kind. */
  ghost function Which(log: seq<Probe>, kind: Answer -> bool): set<nat> {
    set i | 0 <= i < |log| && kind(log[i].answer)
  }

  lemma WhichSnoc(log: seq<Probe>, p: Probe, kind: Answer -> bool)
    ensures |Which(log + [p], kind)| == |Which(log, kind)| + if kind(p.answer) then 1 else 0
  {
    assert forall i :: 0 <= i < |log| ==> (log + [p])[i] == log[i];
    if kind(p.answer) {
      assert Which(log + [p], kind) == Which(log, kind) + {|log|};
    } else {
      assert Which(log + [p], kind) == Which(log, kind);
    }
  }

  /** The oracle was asked for the answer, and its outcome was `o`. */
  predicate AnsweredWith(a: Answer, o: Outcome) {
    || (a.Accepted? && !a.cached && o == SameFailure)
    || (a.OracleRefused? && !a.cached && o == a.outcome)
  }

  /** Each counter is the number of probes with that answer. */
  lemma {:induction false} CountersExact(log: seq<Probe>, o: Outcome)
    ensures var c := CountersOf(log);
            && c.accepted == |Which(log, (a: Answer) => a.Accepted?)|
            && c.constraints == |Which(log, (a: Answer) => a.ConstraintRefused?)|
            && c.raises == |Which(log, (a: Answer) => a.TriggerRefused?)|
            && Tally(c.outcomes, o) == |Which(log, (a: Answer) => AnsweredWith(a, o))|
  {
    if log != [] {
      var n := |log| - 1;
      CountersExact(log[..n], o);
      assert log == log[..n] + [log[n]];
      WhichSnoc(log[..n], log[n], (a: Answer) => a.Accepted?);
      WhichSnoc(log[..n], log[n], (a: Answer) => a.ConstraintRefused?);
      WhichSnoc(log[..n], log[n], (a: Answer) => a.TriggerRefused?);
      WhichSnoc(log[..n], log[n], (a: Answer) => AnsweredWith(a, o));
    }
  }

  lemma SteadyWorld(w: World, c: Content)
    requires Deterministic(w)
    ensures Steady(w.behaviour, c)
  {
  }
}
