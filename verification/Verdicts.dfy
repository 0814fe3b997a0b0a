/** Deciding what one oracle execution showed (oracle/runner.py, `_classify`), from an already
    parsed verdict record. */
module Verdicts {
  import opened Wrappers
  import opened Ordering

  datatype Outcome =
    | SameFailure | NotReproduced | CandidateInvalid | DifferentFailure | InfrastructureError | TimedOut

  /** Outcomes after which `fails` returns false. */
  predicate Refusing(o: Outcome) {
    o.NotReproduced? || o.CandidateInvalid? || o.DifferentFailure?
  }

  datatype Identity = Signed(signature: Text) | AnyNonzero | ExitCode(code: int)

  datatype Mode = Legacy | Matcher | Json | FramedJson

  datatype Config = Config(mode: Mode, expectedExit: Option<int>, patterns: bool)

  datatype OutcomeField = NoOutcome | SaysInvalid | UnknownOutcome

  /** A JSON verdict: its `reproduced` field if boolean, whether it reports an error, its
      `outcome` field, whether it carries a signature and that signature if it is a string. */
  datatype Verdict = Verdict(reproduced: Option<bool>, error: bool, outcome: OutcomeField,
                             signed: bool, signature: Option<Text>)

  datatype MatchReport = Matched | NotMatched | MatcherTimeout | MatcherFailure

  /** What came of running the command. `verdict` is None for text that is no JSON object. */
  datatype Evidence =
    | NoReply | NoLaunch
    | Finished(code: int, verdictLines: nat, verdict: Option<Verdict>, matched: MatchReport)

  datatype Classified = Decided(outcome: Outcome, identity: Option<Identity>) | DecidedTimeout | DecidedError

  function Against(expected: Option<Identity>, identity: Identity): Classified {
    if expected.Some? && identity != expected.value
    then Decided(DifferentFailure, Some(identity))
    else Decided(SameFailure, Some(identity))
  }

  const MAX_SIGNATURE := 256

  function Structured(expected: Option<Identity>, v: Verdict): Classified {
    if v.reproduced.None? || v.error then DecidedError
    else if v.outcome != NoOutcome then
      if v.outcome.UnknownOutcome? || v.reproduced.value || v.signed then DecidedError
      else Decided(CandidateInvalid, None)
    else if !v.reproduced.value then Decided(NotReproduced, None)
    else if v.signature.None? || v.signature.value == [] || |v.signature.value| > MAX_SIGNATURE then DecidedError
    else Against(expected, Signed(v.signature.value))
  }

  function ByExit(cfg: Config, expected: Option<Identity>, code: int, matched: MatchReport): Classified {
    if code == 0 then Decided(NotReproduced, None)
    else if cfg.expectedExit.Some? && code != cfg.expectedExit.value then Decided(DifferentFailure, None)
    else if cfg.patterns && matched.MatcherTimeout? then DecidedTimeout
    else if cfg.patterns && matched.MatcherFailure? then DecidedError
    else if cfg.patterns && matched.NotMatched? then Decided(DifferentFailure, None)
    else Against(expected, if cfg.mode.Legacy? then AnyNonzero else ExitCode(code))
  }

  function Classify(cfg: Config, expected: Option<Identity>, e: Evidence): Classified {
    match e
    case NoReply => DecidedTimeout
    case NoLaunch => DecidedError
    case Finished(code, lines, verdict, matched) =>
      if code < 0 || code >= 126 then DecidedError
      else if cfg.mode.Json? || cfg.mode.FramedJson? then
        if code != 0 || (cfg.mode.FramedJson? && lines != 1) || verdict.None? then DecidedError
        else Structured(expected, verdict.value)
      else ByExit(cfg, expected, code, matched)
  }

  // ---- what the evidence shows, outcome by outcome ----

  /** The command ran to an exit status of its own. */
  predicate HasStatus(e: Evidence) {
    e.Finished? && 0 <= e.code <= 125
  }

  predicate JudgedByExit(cfg: Config) {
    cfg.mode == Legacy || cfg.mode == Matcher
  }

  /** It failed by its exit status, the one expected if there is one. */
  predicate FailedAsExpected(cfg: Config, e: Evidence) {
    JudgedByExit(cfg) && HasStatus(e) && e.code != 0 && (cfg.expectedExit == None || cfg.expectedExit == Some(e.code))
  }

  /** It exited zero with a verdict: exactly one marked line of it where lines are marked. */
  predicate GaveVerdict(cfg: Config, e: Evidence) {
    && (cfg.mode == Json || cfg.mode == FramedJson) && HasStatus(e) && e.code == 0 && e.verdict != None
    && (cfg.mode == FramedJson ==> e.verdictLines == 1)
  }

  /** The verdict says whether the failure was reproduced, and reports no error. */
  predicate Says(cfg: Config, e: Evidence, reproduced: bool) {
    GaveVerdict(cfg, e) && e.verdict.value.reproduced == Some(reproduced) && !e.verdict.value.error
  }

  /** A nonempty string of at most 256 characters. */
  predicate Acceptable(signature: Option<Text>) {
    signature.Some? && 0 < |signature.value| <= 256
  }

  /** The failure is there, as `id`. */
  predicate ShowsFailure(cfg: Config, e: Evidence, id: Identity) {
    || (FailedAsExpected(cfg, e) && (cfg.patterns ==> e.matched == Matched)
        && id == if cfg.mode == Legacy then AnyNonzero else ExitCode(e.code))
    || (Says(cfg, e, true) && e.verdict.value.outcome == NoOutcome
        && Acceptable(e.verdict.value.signature) && id == Signed(e.verdict.value.signature.value))
  }

  /** The failure is not there: exit status zero, or a verdict that says so. */
  predicate ShowsNone(cfg: Config, e: Evidence) {
    || (JudgedByExit(cfg) && HasStatus(e) && e.code == 0)
    || (Says(cfg, e, false) && e.verdict.value.outcome == NoOutcome)
  }

  /** The verdict calls the candidate invalid, and neither reproduces nor carries a signature. */
  predicate ShowsInvalid(cfg: Config, e: Evidence) {
    Says(cfg, e, false) && e.verdict.value.outcome == SaysInvalid && !e.verdict.value.signed
  }

  /** Another failure by itself: another exit status, or output the patterns do not match. */
  predicate ShowsOther(cfg: Config, e: Evidence) {
    || (JudgedByExit(cfg) && HasStatus(e) && e.code != 0 && cfg.expectedExit != None && cfg.expectedExit != Some(e.code))
    || (FailedAsExpected(cfg, e) && cfg.patterns && e.matched == NotMatched)
  }

  /** Another failure than the one expected. */
  predicate ShowsAnother(cfg: Config, expected: Option<Identity>, e: Evidence, id: Option<Identity>) {
    || (id == None && ShowsOther(cfg, e))
    || (id != None && expected != None && id != expected && ShowsFailure(cfg, e, id.value))
  }

  /** The failure is there, and it is the one expected, if one is. */
  ghost predicate ShowsSame(cfg: Config, expected: Option<Identity>, e: Evidence) {
    exists id :: ShowsFailure(cfg, e, id) && (expected == None || expected == Some(id))
  }

  /** Another failure than the one expected is there. */
  ghost predicate ShowsDifferent(cfg: Config, expected: Option<Identity>, e: Evidence) {
    exists id :: ShowsAnother(cfg, expected, e, id)
  }

  /** Neither the command nor the matcher came to an end in time. */
  predicate ShowsTimeout(cfg: Config, e: Evidence) {
    e == NoReply || (FailedAsExpected(cfg, e) && cfg.patterns && e.matched == MatcherTimeout)
  }

  /** A verdict against the rules. */
  predicate Malformed(v: Verdict) {
    || v.reproduced == None || v.error || v.outcome == UnknownOutcome
    || (v.outcome == SaysInvalid && (v.reproduced == Some(true) || v.signed))
    || (v.outcome == NoOutcome && v.reproduced == Some(true) && !Acceptable(v.signature))
  }

  /** Nothing can be said about the failure. */
  predicate ShowsNothing(cfg: Config, e: Evidence) {
    || e == NoLaunch
    || (e.Finished? && !HasStatus(e))
    || (HasStatus(e) && !JudgedByExit(cfg) && !GaveVerdict(cfg, e))
    || (GaveVerdict(cfg, e) && Malformed(e.verdict.value))
    || (FailedAsExpected(cfg, e) && cfg.patterns && e.matched == MatcherFailure)
  }

  /** What each decision means. */
  lemma DecidedIff(cfg: Config, expected: Option<Identity>, e: Evidence, id: Option<Identity>)
    ensures var c := Classify(cfg, expected, e);
            && (c == Decided(SameFailure, id) <==>
                 id != None && ShowsFailure(cfg, e, id.value) && (expected == None || expected == id))
            && (c == Decided(NotReproduced, id) <==> id == None && ShowsNone(cfg, e))
            && (c == Decided(CandidateInvalid, id) <==> id == None && ShowsInvalid(cfg, e))
            && (c == Decided(DifferentFailure, id) <==> ShowsAnother(cfg, expected, e, id))
            && (c == DecidedTimeout <==> ShowsTimeout(cfg, e))
            && (c == DecidedError <==> ShowsNothing(cfg, e))
  {
  }

  /** The same by outcome: exactly one of the six holds of any evidence. */
  lemma OutcomeIff(cfg: Config, expected: Option<Identity>, e: Evidence)
    ensures var c := Classify(cfg, expected, e);
            && (c.Decided? && c.outcome == SameFailure <==> ShowsSame(cfg, expected, e))
            && (c.Decided? && c.outcome == NotReproduced <==> ShowsNone(cfg, e))
            && (c.Decided? && c.outcome == CandidateInvalid <==> ShowsInvalid(cfg, e))
            && (c.Decided? && c.outcome == DifferentFailure <==> ShowsDifferent(cfg, expected, e))
            && (c.DecidedTimeout? <==> ShowsTimeout(cfg, e)) && (c.DecidedError? <==> ShowsNothing(cfg, e))
            && (c.Decided? ==> Refusing(c.outcome) || c.outcome == SameFailure)
  {
    var c := Classify(cfg, expected, e);
    if c.Decided? { DecidedIff(cfg, expected, e, c.identity); }
    forall id ensures c == Decided(SameFailure, Some(id)) <==>
        ShowsFailure(cfg, e, id) && (expected == None || expected == Some(id)) {
      DecidedIff(cfg, expected, e, Some(id));
    }
    forall id ensures c == Decided(DifferentFailure, id) <==> ShowsAnother(cfg, expected, e, id) {
      DecidedIff(cfg, expected, e, id);
    }
    DecidedIff(cfg, expected, e, None);
    SameFailureHasIdentity(cfg, expected, e);
    hide Classify, ShowsFailure, ShowsNone, ShowsInvalid, ShowsAnother, ShowsTimeout, ShowsNothing;
  }

  /** The expected identity only splits reproduced failures into the same and different ones:
      every other decision is taken without it. */
  lemma ExpectedOnlySplits(cfg: Config, expected: Identity, e: Evidence)
    ensures var free, bound := Classify(cfg, None, e), Classify(cfg, Some(expected), e);
            && (bound == Decided(SameFailure, Some(expected)) <==> free == Decided(SameFailure, Some(expected)))
            && (free.Decided? && free.outcome.SameFailure? && free.identity != Some(expected) ==>
                 bound == Decided(DifferentFailure, free.identity))
            && (!(free.Decided? && free.outcome.SameFailure?) ==> bound == free)
  {
  }

  /** A same-failure decision always names an identity, the expected one if there is one. */
  lemma SameFailureHasIdentity(cfg: Config, expected: Option<Identity>, e: Evidence)
    ensures var c := Classify(cfg, expected, e);
            && (c.Decided? ==> !c.outcome.InfrastructureError? && !c.outcome.TimedOut?)
            && (c.Decided? && c.outcome.SameFailure? ==>
                 c.identity.Some? && (expected.Some? ==> c.identity == expected))
            && (c.Decided? && (c.outcome.NotReproduced? || c.outcome.CandidateInvalid?) ==> c.identity.None?)
  {
  }

  /** Whether the failure was reproduced; None for a timeout or an infrastructure error. */
  function Reproduced(cfg: Config, expected: Option<Identity>, e: Evidence): Option<bool> {
    match Classify(cfg, expected, e)
    case Decided(outcome, _) => Some(outcome.SameFailure?)
    case _ => None
  }

  /** The expected identity after a decision: the first reproduced one is kept. */
  function Locked(expected: Option<Identity>, c: Classified): Option<Identity> {
    if c.Decided? && c.outcome.SameFailure? && expected.None? then c.identity else expected
  }

  /** The failure is not there, the candidate is invalid, or another failure is there. */
  ghost predicate ShowsOtherwise(cfg: Config, expected: Option<Identity>, e: Evidence) {
    ShowsNone(cfg, e) || ShowsInvalid(cfg, e) || ShowsDifferent(cfg, expected, e)
  }

  /** The failure is reproduced exactly where it shows as expected. */
  lemma ReproducedIff(cfg: Config, expected: Option<Identity>, e: Evidence)
    ensures Reproduced(cfg, expected, e) == Some(true) <==> ShowsSame(cfg, expected, e)
    ensures Reproduced(cfg, expected, e) == Some(false) <==> ShowsOtherwise(cfg, expected, e)
    ensures Reproduced(cfg, expected, e) == None <==> ShowsTimeout(cfg, e) || ShowsNothing(cfg, e)
  {
    OutcomeIff(cfg, expected, e);
    hide Classify, ShowsSame, ShowsNone, ShowsInvalid, ShowsDifferent, ShowsTimeout, ShowsNothing;
  }

  /** The identity kept is the expected one, or the first that shows. */
  lemma LockedIff(cfg: Config, expected: Option<Identity>, e: Evidence)
    ensures var kept := Locked(expected, Classify(cfg, expected, e));
            && (expected.Some? ==> kept == expected)
            && (expected.None? ==> forall id :: kept == Some(id) <==> ShowsFailure(cfg, e, id))
  {
    var c := Classify(cfg, expected, e);
    if expected.None? {
      forall id ensures Locked(None, c) == Some(id) <==> ShowsFailure(cfg, e, id) { DecidedIff(cfg, None, e, Some(id)); }
    }
    SameFailureHasIdentity(cfg, expected, e);
    hide Classify, ShowsFailure;
  }

  /** Keeping the identity does not change how the same evidence is decided. */
  lemma LockedDecides(cfg: Config, expected: Option<Identity>, e: Evidence)
    requires Reproduced(cfg, expected, e) == Some(true)
    ensures Classify(cfg, Locked(expected, Classify(cfg, expected, e)), e) == Classify(cfg, expected, e)
  {
    SameFailureHasIdentity(cfg, expected, e);
    var id := Classify(cfg, expected, e).identity;
    if expected.None? { ExpectedOnlySplits(cfg, id.value, e); }
  }
}
