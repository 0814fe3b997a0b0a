/** The watchdog thread racing `finish()` (cancellation.py): every interleaving of the main
    thread, the handler, the clock and the watchdog. */
module Watchdog {

  datatype Owner = Free | MainThread | WatchThread

  /** Where the main thread is in `finish`: outside, holding the lock, or past `set()`. */
  datatype MainPc = Outside | Holding | HasSet

  /** Where the watchdog is in `_watch`. */
  datatype WatchPc = AwaitSignal | AwaitFinish(until: real) | WantLock | Holds | Committed | Stood

  datatype State = State(now: real, deadline: real, signalled: bool, finished: bool,
                         lock: Owner, main: MainPc, watch: WatchPc,
                         finishReturned: bool, exited: bool)

  datatype Step =
    | Tick(elapsed: real)
    | SignalArrives
    | FinishLocks | FinishSets | FinishAborts | FinishReturns
    | Wakes | SeesFinish | TimesOut | Locks | StandsDown | DecidesExit | Exits

  datatype Config = Config(budget: real, margin: real)

  function Start(now: real): State {
    State(now, now, false, false, Free, Outside, AwaitSignal, false, false)
  }

  /** `max(0, deadline - now) + margin` from now on. */
  function WaitUntil(cfg: Config, s: State): real {
    (if s.deadline > s.now then s.deadline else s.now) + cfg.margin
  }

  predicate Enabled(s: State, e: Step) {
    && !s.exited
    && match e
       case Tick(d) => d >= 0.0
       case SignalArrives => true
       case FinishLocks => s.main.Outside? && s.lock.Free?
       case FinishSets => s.main.Holding?
       // an exception raised in the main thread before `set()` releases the lock
       case FinishAborts => s.main.Holding?
       case FinishReturns => s.main.HasSet?
       case Wakes => s.watch.AwaitSignal? && s.signalled
       case SeesFinish => s.watch.AwaitFinish? && s.finished
       case TimesOut => s.watch.AwaitFinish? && !s.finished && s.now >= s.watch.until
       case Locks => s.watch.WantLock? && s.lock.Free?
       case StandsDown => s.watch.Holds? && s.finished
       case DecidesExit => s.watch.Holds? && !s.finished
       case Exits => s.watch.Committed?
  }

  function Apply(cfg: Config, s: State, e: Step): State {
    match e
    case Tick(d) => s.(now := s.now + d)
    case SignalArrives => if s.signalled then s else s.(signalled := true, deadline := s.now + cfg.budget)
    case FinishLocks => s.(lock := MainThread, main := Holding)
    case FinishSets => s.(finished := true, main := HasSet)
    case FinishAborts => s.(lock := Free, main := Outside)
    case FinishReturns => s.(lock := Free, main := Outside, finishReturned := true)
    case Wakes => s.(watch := AwaitFinish(WaitUntil(cfg, s)))
    case SeesFinish => s.(watch := Stood)
    case TimesOut => s.(watch := WantLock)
    case Locks => s.(lock := WatchThread, watch := Holds)
    case StandsDown => s.(lock := Free, watch := Stood)
    case DecidesExit => s.(watch := Committed)
    case Exits => s.(exited := true)
  }

  function Run(cfg: Config, now: real, t: seq<Step>): State {
    if t == [] then Start(now) else Apply(cfg, Run(cfg, now, t[..|t| - 1]), t[|t| - 1])
  }

  ghost predicate Possible(cfg: Config, now: real, t: seq<Step>) {
    t == [] || (Possible(cfg, now, t[..|t| - 1]) && Enabled(Run(cfg, now, t[..|t| - 1]), t[|t| - 1]))
  }

  ghost predicate Inv(cfg: Config, s: State) {
    // the lock is held by the thread that thinks it holds it
    && (s.lock.MainThread? <==> !s.main.Outside?)
    && (s.lock.WatchThread? <==> s.watch.Holds? || s.watch.Committed?)
    && (s.main.HasSet? || s.finishReturned ==> s.finished)
    // once decided, the exit cannot meet a finished shutdown
    && (s.watch.Committed? ==> !s.finished)
    && (s.exited ==> s.watch.Committed?)
    // the watchdog leaves its first wait only after a signal, its second only in time
    && (!s.watch.AwaitSignal? ==> s.signalled)
    && (s.watch.AwaitFinish? ==> s.watch.until >= s.deadline + cfg.margin)
    && (s.watch.WantLock? || s.watch.Holds? || s.watch.Committed? ==> s.now >= s.deadline + cfg.margin)
  }

  lemma {:induction false} Invariant(cfg: Config, now: real, t: seq<Step>)
    requires Possible(cfg, now, t)
    ensures Inv(cfg, Run(cfg, now, t))
  {
    if t != [] { Invariant(cfg, now, t[..|t| - 1]); }
  }

  /** In every interleaving, a forced exit and a returned `finish()` exclude each other; a
      forced exit comes only after a signal and no earlier than the deadline of the first
      signal plus the report margin. */
  lemma ExitOrFinish(cfg: Config, now: real, t: seq<Step>)
    requires Possible(cfg, now, t)
    ensures var s := Run(cfg, now, t);
            && !(s.exited && s.finishReturned)
            && (s.exited ==> s.signalled && s.now >= s.deadline + cfg.margin)
  {
    Invariant(cfg, now, t);
  }

  /** Since it woke, before step `w`, the watchdog waits for the later of the deadline and that
      moment, plus the margin. */
  lemma {:induction false} WaitsSince(cfg: Config, now: real, t: seq<Step>, w: nat)
    requires Possible(cfg, now, t) && w < |t| && t[w].Wakes?
    ensures var s, woke := Run(cfg, now, t), Run(cfg, now, t[..w]);
            && s.signalled && !s.watch.AwaitSignal? && s.deadline == woke.deadline
            && (s.watch.AwaitFinish? ==> s.watch.until == WaitUntil(cfg, woke))
  {
    hide WaitUntil;
    var n := |t| - 1;
    if w < n {
      assert t[..n][..w] == t[..w];
      WaitsSince(cfg, now, t[..n], w);
    }
  }

  lemma ForcesExit(cfg: Config, s: State)
    requires s.watch.AwaitFinish? && s.lock.Free? && !s.finished && !s.exited
    ensures Enabled(s, TimesOut) <==> s.now >= s.watch.until
    ensures var a := Apply(cfg, s, TimesOut);
            var b := Apply(cfg, a, Locks);
            var c := Apply(cfg, b, DecidesExit);
            && Enabled(a, Locks) && Enabled(b, DecidesExit) && Enabled(c, Exits)
            && Apply(cfg, c, Exits).exited
  {
    hide WaitUntil;
  }

  /** While the watchdog waits for the shutdown to finish, nobody holds the lock and the shutdown
      is not finished, it can force the exit now exactly when the deadline and the moment it woke
      both lie the margin back: no earlier, and it never has to wait longer. */
  lemma ExitWhenDue(cfg: Config, now: real, t: seq<Step>, w: nat)
    requires Possible(cfg, now, t) && w < |t| && t[w].Wakes?
    requires Run(cfg, now, t).watch.AwaitFinish? && Run(cfg, now, t).lock.Free? && !Run(cfg, now, t).finished
    ensures var s, woke, exit := Run(cfg, now, t), Run(cfg, now, t[..w]).now, [TimesOut, Locks, DecidesExit, Exits];
            && (Possible(cfg, now, t + exit) <==> s.now >= s.deadline + cfg.margin && s.now >= woke + cfg.margin)
            && Run(cfg, now, t + exit).exited
  {
    Invariant(cfg, now, t);
    WaitsSince(cfg, now, t, w);
    ForcesExit(cfg, Run(cfg, now, t));
    hide Run, Possible, Enabled, Apply;
    var due := t + [TimesOut];
    Extends(cfg, now, t, TimesOut);
    Extends(cfg, now, due, Locks);
    Extends(cfg, now, due + [Locks], DecidesExit);
    Extends(cfg, now, due + [Locks] + [DecidesExit], Exits);
    assert t + [TimesOut, Locks, DecidesExit, Exits] == due + [Locks] + [DecidesExit] + [Exits];
  }

  lemma Extends(cfg: Config, now: real, t: seq<Step>, e: Step)
    ensures Run(cfg, now, t + [e]) == Apply(cfg, Run(cfg, now, t), e)
    ensures Possible(cfg, now, t + [e]) <==> Possible(cfg, now, t) && Enabled(Run(cfg, now, t), e)
  {
    assert (t + [e])[..|t|] == t;
  }

  /** The deadline is the time of the first signal plus the budget, and never moves. */
  lemma {:induction false} DeadlineIsFirstSignal(cfg: Config, now: real, t: seq<Step>, f: nat)
    requires Possible(cfg, now, t) && f < |t| && t[f].SignalArrives?
    requires forall i :: 0 <= i < f ==> !t[i].SignalArrives?
    ensures var s := Run(cfg, now, t);
            s.signalled && s.deadline == Run(cfg, now, t[..f]).now + cfg.budget
  {
    var n := |t| - 1;
    if f == n {
      NoSignalYet(cfg, now, t[..f]);
    } else {
      assert t[..n][..f] == t[..f];
      DeadlineIsFirstSignal(cfg, now, t[..n], f);
    }
  }

  lemma {:induction false} NoSignalYet(cfg: Config, now: real, t: seq<Step>)
    requires forall i :: 0 <= i < |t| ==> !t[i].SignalArrives?
    ensures !Run(cfg, now, t).signalled
  {
    if t != [] { NoSignalYet(cfg, now, t[..|t| - 1]); }
  }

  /** After a returned `finish()` the watchdog never exits, however the run goes on. */
  lemma {:induction false} FinishWins(cfg: Config, now: real, t: seq<Step>, n: nat)
    requires Possible(cfg, now, t) && n <= |t| && Run(cfg, now, t[..n]).finishReturned
    ensures Run(cfg, now, t).finishReturned && !Run(cfg, now, t).exited
    decreases |t|
  {
    if n < |t| {
      var m := |t| - 1;
      assert t[..m][..n] == t[..n];
      FinishWins(cfg, now, t[..m], n);
    } else {
      assert t[..n] == t;
    }
    Invariant(cfg, now, t);
  }
}
