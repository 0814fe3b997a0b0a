/** Cooperative cancellation (cancellation.py): signals, protected sections, checkpoints and
    commit.

    `Control` is the value of a RunControl's flags, `Next` what one event does to it, and
    class `RunControl` the object whose methods update the flags. Leaving a section is two
    events, because a handler can run between the decrement and the check. */
module Cancellation {
  import opened Wrappers

  datatype Control = Control(requested: Option<int>, delivered: bool, depth: nat,
                             committed: bool, active: bool, leaving: bool)

  datatype Event =
    | Signal(number: int)  // the handler runs
    | Enter                // a protected section opens
    | Decrement            // a section ends: first half
    | Check                // a section ends: second half
    | Checkpoint
    | Commit

  function Initial(active: bool): Control {
    Control(None, false, 0, false, active, false)
  }

  /** Events the program can produce in a state: sections nest, and between the two halves of
      leaving one only the handler runs. */
  predicate Enabled(c: Control, e: Event) {
    match e
    case Signal(_) => true
    case Decrement => !c.leaving && c.depth > 0
    case Check => c.leaving
    case _ => !c.leaving
  }

  /** The state after an event, and whether it raises `Cancelled`. A handler that raises
      between the two halves of leaving a section skips the second half. */
  function Next(c: Control, e: Event): (Control, bool) {
    match e
    case Signal(n) =>
      if c.requested.Some? then (c, false)
      else if c.committed || c.depth > 0 then (c.(requested := Some(n)), false)
      else (c.(requested := Some(n), delivered := true, leaving := false), true)
    case Enter => (c.(depth := c.depth + 1), false)
    case Decrement => (if c.depth > 0 then c.(depth := c.depth - 1, leaving := true) else c, false)
    case Check =>
      if c.depth == 0 && c.requested.Some? && !c.delivered && !c.committed
      then (c.(delivered := true, leaving := false), true)
      else (c.(leaving := false), false)
    case Checkpoint =>
      if c.requested.Some? && !c.committed then (c.(delivered := true), true) else (c, false)
    case Commit => (if c.active then c.(committed := true) else c, false)
  }

  // ---- runs ----

  function Run(active: bool, t: seq<Event>): Control {
    if t == [] then Initial(active) else Next(Run(active, t[..|t| - 1]), t[|t| - 1]).0
  }

  ghost predicate Possible(active: bool, t: seq<Event>) {
    forall i :: 0 <= i < |t| ==> Enabled(Run(active, t[..i]), t[i])
  }

  /** Event i of the run raises. */
  predicate Raises(active: bool, t: seq<Event>, i: nat)
    requires i < |t|
  {
    Next(Run(active, t[..i]), t[i]).1
  }

  predicate ByHandlerOrExit(e: Event) {
    e.Signal? || e.Check?
  }

  // What has happened in a run, read off its events alone.

  function Depth(t: seq<Event>): int {
    if t == [] then 0
    else Depth(t[..|t| - 1]) + (match t[|t| - 1] case Enter => 1 case Decrement => -1 case _ => 0)
  }

  predicate Signalled(t: seq<Event>) {
    t != [] && (t[|t| - 1].Signal? || Signalled(t[..|t| - 1]))
  }

  predicate Committed(active: bool, t: seq<Event>) {
    active && t != [] && (t[|t| - 1].Commit? || Committed(active, t[..|t| - 1]))
  }

  predicate Raised(active: bool, t: seq<Event>) {
    t != [] && (Raises(active, t, |t| - 1) || Raised(active, t[..|t| - 1]))
  }

  lemma {:induction false} SignalledIff(t: seq<Event>)
    ensures Signalled(t) <==> exists j :: 0 <= j < |t| && t[j].Signal?
  {
    if t != [] {
      var s := t[..|t| - 1];
      SignalledIff(s);
      assert forall j :: 0 <= j < |s| ==> s[j] == t[j];
    }
  }

  lemma {:induction false} RaisedIff(active: bool, t: seq<Event>, n: nat)
    requires n <= |t|
    ensures Raised(active, t[..n]) <==> exists j :: 0 <= j < n && Raises(active, t, j)
  {
    if n > 0 {
      var s := t[..n];
      assert s[..n - 1] == t[..n - 1] && s[n - 1] == t[n - 1];
      assert Raises(active, s, n - 1) == Raises(active, t, n - 1);
      RaisedIff(active, t, n - 1);
    }
  }

  /** The flags mean what their names say: each is a fact about the events so far. */
  lemma {:induction false} FlagsMean(active: bool, t: seq<Event>)
    requires Possible(active, t)
    ensures var c := Run(active, t);
            && c.active == active
            && c.depth == Depth(t)
            && (c.requested.Some? <==> Signalled(t))
            && (c.committed <==> Committed(active, t))
            && (c.delivered <==> Raised(active, t))
  {
    if t != [] {
      var n := |t| - 1;
      PossiblePrefix(active, t, n);
      FlagsMean(active, t[..n]);
      assert Enabled(Run(active, t[..n]), t[n]);
    }
  }

  lemma PossiblePrefix(active: bool, t: seq<Event>, i: nat)
    requires Possible(active, t) && i <= |t|
    ensures Possible(active, t[..i])
  {
    forall j | 0 <= j < i ensures Enabled(Run(active, t[..i][..j]), t[..i][j]) {
      assert t[..i][..j] == t[..j];
    }
  }

  /** Exactly when the handler raises: it is the first signal, no section is open and nothing
      was committed. */
  lemma HandlerRaises(active: bool, t: seq<Event>, i: nat)
    requires Possible(active, t) && i < |t| && t[i].Signal?
    ensures Raises(active, t, i) <==>
            !Signalled(t[..i]) && Depth(t[..i]) == 0 && !Committed(active, t[..i])
  {
    PossiblePrefix(active, t, i);
    FlagsMean(active, t[..i]);
  }

  /** Exactly when leaving a section raises: it was the outermost, a signal came before, no
      one raised yet and nothing was committed. */
  lemma ExitRaises(active: bool, t: seq<Event>, i: nat)
    requires Possible(active, t) && i < |t| && t[i].Check?
    ensures Raises(active, t, i) <==>
            && Depth(t[..i]) == 0 && Signalled(t[..i])
            && !Raised(active, t[..i]) && !Committed(active, t[..i])
  {
    PossiblePrefix(active, t, i);
    FlagsMean(active, t[..i]);
  }

  /** Over every run, the handler and the section exits together raise at most once, never
      while a section is open and never after commit. */
  lemma RaiseOnce(active: bool, t: seq<Event>, i: nat)
    requires Possible(active, t) && i < |t|
    requires ByHandlerOrExit(t[i]) && Raises(active, t, i)
    ensures Depth(t[..i]) == 0 && !Committed(active, t[..i])
    ensures forall j :: 0 <= j < i ==> !Raises(active, t, j)
  {
    PossiblePrefix(active, t, i);
    FlagsMean(active, t[..i]);
    RaisedIff(active, t, i);
    if Raised(active, t[..i]) { RaisedNeedsSignal(active, t[..i]); }
  }

  lemma {:induction false} RaisedNeedsSignal(active: bool, t: seq<Event>)
    requires Possible(active, t) && Raised(active, t)
    ensures Signalled(t)
  {
    var n := |t| - 1;
    PossiblePrefix(active, t, n);
    FlagsMean(active, t[..n]);
    if !Raises(active, t, n) { RaisedNeedsSignal(active, t[..n]); }
  }

  /** A signal that arrived at `f` inside a section and before commit is raised when the
      outermost section closes at `i`, unless a checkpoint raised it first or commit came
      first. `i` is the first exit to depth zero after `f`. */
  lemma DeferredSignalIsRaised(active: bool, t: seq<Event>, f: nat, i: nat)
    requires Possible(active, t) && f < i < |t| && t[f].Signal? && !Signalled(t[..f])
    requires Depth(t[..f]) > 0 && !Committed(active, t[..f])
    requires t[i].Check? && Depth(t[..i]) == 0
    requires forall j :: f < j < i && t[j].Check? ==> Depth(t[..j]) > 0
    ensures Raises(active, t, i) <==>
            && !Committed(active, t[..i])
            && !exists j :: f < j < i && t[j].Checkpoint? && Raises(active, t, j)
  {
    ExitRaises(active, t, i);
    assert t[..i][f] == t[f];
    SignalledIff(t[..i]);
    RaisedIff(active, t, i);
    forall j | 0 <= j < i && Raises(active, t, j) ensures f < j && t[j].Checkpoint? {
      EarlierRaise(active, t, f, j);
    }
  }

  lemma RaiserFacts(active: bool, t: seq<Event>, j: nat)
    requires Possible(active, t) && j < |t| && Raises(active, t, j)
    ensures match t[j]
            case Signal(_) => !Signalled(t[..j]) && Depth(t[..j]) == 0
            case Check => Signalled(t[..j]) && Depth(t[..j]) == 0
            case Checkpoint => Signalled(t[..j])
            case _ => false
  {
    PossiblePrefix(active, t, j);
    FlagsMean(active, t[..j]);
  }

  lemma SignalledAt(t: seq<Event>, f: nat, j: nat)
    requires f < |t| && j < |t|
    ensures f < j && t[f].Signal? ==> Signalled(t[..j])
    ensures j < f && !Signalled(t[..f]) ==> !t[j].Signal? && !Signalled(t[..j])
  {
    SignalledIff(t[..j]);
    SignalledIff(t[..f]);
    if f < j { assert t[..j][f] == t[f]; }
    if j < f {
      assert t[..f][j] == t[j];
      assert forall k :: 0 <= k < j ==> t[..j][k] == t[..f][k];
    }
  }

  /** Before the end of the section that deferred a signal only a checkpoint can raise. */
  lemma EarlierRaise(active: bool, t: seq<Event>, f: nat, j: nat)
    requires Possible(active, t) && f < |t| && j < |t| && t[f].Signal? && !Signalled(t[..f])
    requires Depth(t[..f]) > 0
    requires f < j && t[j].Check? ==> Depth(t[..j]) > 0
    requires Raises(active, t, j)
    ensures f < j && t[j].Checkpoint?
  {
    RaiserFacts(active, t, j);
    SignalledAt(t, f, j);
  }

  /** `checkpoint` is the exception to the rule above: it raises inside an open section too,
      and more than once. Exactly: whenever a signal came and nothing was committed. */
  lemma CheckpointRaises(active: bool, t: seq<Event>, i: nat)
    requires Possible(active, t) && i < |t| && t[i].Checkpoint?
    ensures Raises(active, t, i) <==> Signalled(t[..i]) && !Committed(active, t[..i])
  {
    PossiblePrefix(active, t, i);
    FlagsMean(active, t[..i]);
  }

  lemma CheckpointRaisesInsideSection()
    ensures var t := [Enter, Signal(15), Checkpoint, Checkpoint];
            && Possible(true, t) && Depth(t[..2]) == 1
            && Raises(true, t, 2) && Raises(true, t, 3)
  {
    var t := [Enter, Signal(15), Checkpoint, Checkpoint];
    assert t[..0] == [] && t[..1] == [Enter] && t[..2] == [Enter, Signal(15)]
           && t[..3] == [Enter, Signal(15), Checkpoint];
    assert Run(true, t[..1]) == Next(Run(true, []), Enter).0 by { assert t[..1][..0] == []; }
    assert Run(true, t[..2]) == Next(Run(true, t[..1]), Signal(15)).0 by { assert t[..2][..1] == t[..1]; }
    assert Run(true, t[..3]) == Next(Run(true, t[..2]), Checkpoint).0 by { assert t[..3][..2] == t[..2]; }
    assert Depth(t[..2]) == Depth(t[..1]) by { assert t[..2][..1] == t[..1]; }
    assert Depth(t[..1]) == 1 by { assert t[..1][..0] == []; }
  }

  /** No signal can make the handler raise: inside a section, after commit, or after a signal. */
  predicate Shielded(c: Control) {
    c.depth > 0 || c.committed || c.requested.Some?
  }

  /** Signals arriving one after the other, up to the first that makes the handler raise. */
  function HandleAll(c: Control, numbers: seq<int>): (Control, bool)
    decreases numbers
  {
    if numbers == [] then (c, false)
    else
      var (d, raised) := Next(c, Signal(numbers[0]));
      if raised then (d, true) else HandleAll(d, numbers[1..])
  }

  lemma {:induction false} ShieldedNeverRaises(c: Control, numbers: seq<int>)
    ensures HandleAll(c, numbers).1 <==> numbers != [] && !Shielded(c)
    decreases numbers
  {
    if numbers != [] { ShieldedNeverRaises(Next(c, Signal(numbers[0])).0, numbers[1..]); }
  }

  // ---- the object ----

  class RunControl {
    const budget: real
    var requested: Option<int>
    var deadline: Option<real>
    var committed: bool
    var ignoredSignals: nat
    var delivered: bool
    var protectedDepth: nat
    var active: bool
    ghost var leaving: bool

    function Remaining(now: real): Option<real>
      reads this
    {
      if deadline.None? then None else Some(deadline.value - now)
    }

    predicate Expired(now: real)
      reads this
    {
      Remaining(now).Some? && Remaining(now).value <= 0.0
    }

    /** A timeout shrunk to the time left in the shutdown budget, at least one second. */
    function Bounded(default: real, now: real): (r: real)
      reads this
      ensures deadline.None? ==> r == default
      ensures deadline.Some? ==>
        && r >= 1.0 && (r > 1.0 ==> r <= default && r <= deadline.value - now)
        && r in {1.0, default, deadline.value - now}
        && (default >= 1.0 && deadline.value - now >= 1.0 ==> r in {default, deadline.value - now})
    {
      match Remaining(now)
      case None => default
      case Some(left) =>
        var least := if default < left then default else left;
        if least < 1.0 then 1.0 else least
    }

    ghost function State(): Control
      reads this
    {
      Control(requested, delivered, protectedDepth, committed, active, leaving)
    }

    constructor (budget: real, active: bool)
      ensures State() == Initial(active) && deadline == None && this.budget == budget
    {
      this.budget := budget;
      this.active := active;
      requested, deadline, committed, ignoredSignals := None, None, false, 0;
      delivered, protectedDepth, leaving := false, 0, false;
    }

    /** The signal handler. */
    method Handle(number: int, now: real) returns (raised: bool)
      modifies this
      ensures (State(), raised) == Next(old(State()), Signal(number))
      ensures old(requested).None? ==> deadline == Some(now + budget) && ignoredSignals == old(ignoredSignals)
      ensures old(requested).Some? ==> deadline == old(deadline) && ignoredSignals == old(ignoredSignals) + 1
    {
      if requested.Some? {
        ignoredSignals := ignoredSignals + 1;
        return false;
      }
      requested := Some(number);
      deadline := Some(now + budget);
      if committed || protectedDepth > 0 {
        return false;
      }
      delivered := true;
      leaving := false;
      return true;
    }

    method EnterSection()
      modifies this
      ensures State() == Next(old(State()), Enter).0 && deadline == old(deadline)
    {
      protectedDepth := protectedDepth + 1;
    }

    /** `_protected -= 1` */
    method DecrementSection()
      requires protectedDepth > 0
      modifies this
      ensures State() == Next(old(State()), Decrement).0 && deadline == old(deadline)
    {
      protectedDepth := protectedDepth - 1;
      leaving := true;
    }

    /** The test after the decrement. */
    method CheckSection() returns (raised: bool)
      modifies this
      ensures (State(), raised) == Next(old(State()), Check) && deadline == old(deadline)
    {
      leaving := false;
      if protectedDepth == 0 && requested.Some? && !delivered && !committed {
        delivered := true;
        return true;
      }
      return false;
    }

    method CheckpointHere() returns (raised: bool)
      modifies this
      ensures (State(), raised) == Next(old(State()), Checkpoint) && deadline == old(deadline)
    {
      if requested.Some? && !committed {
        delivered := true;
        return true;
      }
      return false;
    }

    method CommitResult()
      modifies this
      ensures State() == Next(old(State()), Commit).0 && deadline == old(deadline)
    {
      if active {
        committed := true;
      }
    }
  }
}
