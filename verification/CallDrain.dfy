/**
 * Stopping the dispatcher returns: once no new calls come in, only so many steps are possible, and
 * when none is left every thread is back, every accepted event has run, and a cleanup has reported.
 */
module CallDrain {
  import opened CallEvents
  import opened Sequences

  /** Nobody enters the dispatcher during such a run. */
  predicate Quiet(run: seq<Action>) {
    forall a :: a in run ==> !a.Begin?
  }

  // ---- The rank ----

  /** The steps a thread may still take; an event it queues costs the worker two more. */
  function Steps(pc: PC): nat {
    match pc
    case Idle => 0
    case Firing(_, fire) =>
      (match fire
       case AtOnce => 8
       case WantLock => 7
       case Checking => 6
       case Sending => 5
       case Unlocking => 2
       case LeavingOnce => 1)
    case Stopping(_, stop) =>
      match stop
      case AtStop => 8
      case StopWantLock => 7
      case SettingClosing => 6
      case ClosingQueue => 5
      case StopUnlocking => 4
      case LeavingStop => 3
      case Waiting => 2
      case Ending => 1
  }

  function StepsOf(pcs: map<int, PC>, threads: seq<int>): nat {
    if threads == [] then 0 else Steps(At(pcs, threads[0])) + StepsOf(pcs, threads[1..])
  }

  function WorkerSteps(s: State): nat {
    2 * |s.queue| + (if s.running.Some? then 1 else 0) + (if s.done then 0 else 1)
  }

  ghost function Rank(s: State): nat {
    StepsOf(s.pcs, Listing(s.pcs.Keys)) + WorkerSteps(s)
  }

  lemma {:induction false} SameSteps(before: map<int, PC>, after: map<int, PC>, threads: seq<int>)
    requires forall t :: t in threads ==> At(after, t) == At(before, t)
    ensures StepsOf(after, threads) == StepsOf(before, threads)
    decreases |threads|
  {
    if threads != [] {
      SameSteps(before, after, threads[1..]);
    }
  }

  lemma {:induction false} OneMoves(before: map<int, PC>, after: map<int, PC>, threads: seq<int>, t: int)
    requires t in threads && Distinct(threads)
    requires forall u :: u != t ==> At(after, u) == At(before, u)
    ensures StepsOf(after, threads) - Steps(At(after, t)) == StepsOf(before, threads) - Steps(At(before, t))
    decreases |threads|
  {
    hide At, Steps;
    if threads[0] == t {
      SameSteps(before, after, threads[1..]);
    } else {
      OneMoves(before, after, threads[1..], t);
    }
  }

  lemma FireLowers(s: State, t: int, task: Task, at: FireStage)
    ensures Steps(FireTarget(s, task, at)) + WorkerSteps(FireEffect(s, t, task, at))
            < Steps(Firing(task, at)) + WorkerSteps(s)
  {
  }

  lemma StopLowers(s: State, t: int, c: bool, at: StopStage)
    ensures Steps(StopTarget(s, c, at)) + WorkerSteps(StopEffect(s, t, at))
            < Steps(Stopping(c, at)) + WorkerSteps(s)
  {
    hide StopEffect;
  }

  lemma WorkerLowers(s: State, a: Action)
    requires Enabled(s, a) && !a.Begin? && !a.Step?
    ensures Apply(s, a).pcs == s.pcs && WorkerSteps(Apply(s, a)) < WorkerSteps(s)
  {
  }

  /** Every step but the entry of a new call lowers the rank. */
  lemma StepLowersRank(s: State, a: Action)
    requires Enabled(s, a) && !a.Begin?
    ensures Rank(Apply(s, a)) < Rank(s)
  {
    hide WorkerSteps, Steps, FireTarget, FireEffect, StopTarget, StopEffect, CanFire, CanStop, StepsOf;
    var r := Apply(s, a);
    if a.Step? {
      assert r.pcs.Keys == s.pcs.Keys;
      OneMoves(s.pcs, r.pcs, Listing(s.pcs.Keys), a.t);
      assert WorkerSteps(r) == WorkerSteps(Effect(s, a)) by { GotoKeepsWork(Effect(s, a), a.t, Target(s, a)); }
      match At(s.pcs, a.t)
      case Firing(task, at) => FireLowers(s, a.t, task, at);
      case Stopping(c, at) => StopLowers(s, a.t, c, at);
    } else {
      WorkerLowers(s, a);
    }
  }

  lemma GotoKeepsWork(s: State, t: int, pc: PC)
    ensures WorkerSteps(Goto(s, t, pc)) == WorkerSteps(s)
  {
  }

  lemma {:induction false} QuietRunsAreBounded(s: State, run: seq<Action>)
    requires ValidRun(s, run) && Quiet(run)
    ensures |run| + Rank(Final(s, run)) <= Rank(s)
    decreases |run|
  {
    hide Rank, Apply, Enabled;
    if run != [] {
      StepLowersRank(s, run[0]);
      QuietRunsAreBounded(Apply(s, run[0]), run[1..]);
    }
  }

  // ---- A cleanup that has begun reports ----

  ghost predicate SomeoneReports(s: State) {
    s.cleanupBegun ==> CallEnded in s.log || exists t :: InCleanup(At(s.pcs, t))
  }

  lemma LogOnlyGrows(s: State, a: Action)
    requires Enabled(s, a)
    ensures s.log <= Effect(s, a).log
    ensures !(a.Begin? && a.op.Cleanup?) ==> Effect(s, a).cleanupBegun == s.cleanupBegun
  {
    hide FireEffect, StopEffect, WorkerEffect, CanFire, CanStop, At;
    if a.Step? {
      match At(s.pcs, a.t)
      case Firing(_, _) =>
      case Stopping(_, at) => StopLogs(s, a.t, at);
    } else if !a.Begin? {
      WorkerLogs(s, a);
    }
  }

  lemma StopLogs(s: State, t: int, at: StopStage)
    ensures s.log <= StopEffect(s, t, at).log
  {
  }

  lemma WorkerLogs(s: State, a: Action)
    requires Enabled(s, a) && (a.Take? || a.Finish? || a.Exit?)
    ensures s.log <= WorkerEffect(s, a).log
  {
  }

  lemma ReporterStays(s: State, a: Action)
    requires Inv(s) && Enabled(s, a) && (a.Begin? || a.Step?) && InCleanup(At(s.pcs, a.t))
    ensures InCleanup(Target(s, a)) || CallEnded in Effect(s, a).log
  {
    hide At, OneShots, Locked, ClosedInOrder, Flow;
    var pc := At(s.pcs, a.t);
    assert ReportedAt(s, pc);
  }

  lemma StepKeepsReporter(s: State, a: Action)
    requires Inv(s) && Enabled(s, a) && SomeoneReports(s)
    ensures SomeoneReports(Apply(s, a))
  {
    hide Inv, Enabled, At, Effect, Target, InCleanup;
    var r := Apply(s, a);
    LogOnlyGrows(s, a);
    if a.Begin? && a.op.Cleanup? {
      CleanupBegins(s, a);
      assert InCleanup(At(r.pcs, a.t));
    } else if s.cleanupBegun && CallEnded !in s.log {
      var t :| InCleanup(At(s.pcs, t));
      if (a.Begin? || a.Step?) && a.t == t {
        ReporterStays(s, a);
      }
      assert CallEnded in r.log || InCleanup(At(r.pcs, t));
    }
  }

  lemma CleanupBegins(s: State, a: Action)
    requires Enabled(s, a) && a.Begin? && a.op.Cleanup?
    ensures InCleanup(Target(s, a))
  {
  }

  lemma {:induction false} RunKeepsReporter(s: State, run: seq<Action>)
    requires Inv(s) && SomeoneReports(s) && ValidRun(s, run)
    ensures Inv(Final(s, run)) && SomeoneReports(Final(s, run))
    decreases |run|
  {
    hide Inv, SomeoneReports, Apply, Enabled;
    if run != [] {
      StepKeepsInv(s, run[0]);
      StepKeepsReporter(s, run[0]);
      RunKeepsReporter(Apply(s, run[0]), run[1..]);
    }
  }

  // ---- Main result ----

  /**
   * From every reachable state, and however the threads are scheduled: with no new call only a
   * bounded number of steps follows, and when none is possible any more, every call into the
   * dispatcher has returned, every accepted event has run, and a begun cleanup has reported.
   */
  lemma EverythingGetsThrough(run: seq<Action>, quiet: seq<Action>)
    requires ValidRun(INITIAL, run) && ValidRun(Final(INITIAL, run), quiet) && Quiet(quiet)
    ensures |quiet| <= Rank(Final(INITIAL, run))
    ensures var r := Final(Final(INITIAL, run), quiet);
      !CanMove(r) ==>
        && (forall t :: At(r.pcs, t).Idle?)
        && FinishedIn(r.log) == r.accepted
        && (r.cleanupBegun ==> CallEnded in r.log)
  {
    hide Inv, Rank, ValidRun, Final, Quiet, SomeoneReports, CanMove, At;
    InitialInv();
    assert SomeoneReports(INITIAL) by { InitialReporter(); }
    RunKeepsReporter(INITIAL, run);
    var s := Final(INITIAL, run);
    QuietRunsAreBounded(s, quiet);
    RunKeepsReporter(s, quiet);
    if !CanMove(Final(s, quiet)) {
      StuckMeansThrough(Final(s, quiet));
    }
  }

  lemma InitialReporter()
    ensures SomeoneReports(INITIAL)
  {
  }

  lemma StuckMeansThrough(r: State)
    requires Inv(r) && SomeoneReports(r) && !CanMove(r)
    ensures forall t :: At(r.pcs, t).Idle?
    ensures FinishedIn(r.log) == r.accepted
    ensures r.cleanupBegun ==> CallEnded in r.log
  {
    hide At, OneShots, Locked, ClosedInOrder, Reported, FinishedIn, StartedIn;
    forall t ensures At(r.pcs, t).Idle? {
      if !At(r.pcs, t).Idle? {
        SomebodyMoves(r, t);
      }
    }
    assert !Enabled(r, Take) && !Enabled(r, Finish);
  }
}
