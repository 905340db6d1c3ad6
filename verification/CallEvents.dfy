/**
 * The call-event dispatcher as a step relation: any number of threads fire events or stop the
 * dispatcher, one worker runs what was accepted, and one cleanup reports the end of the call.
 * Every lock, check, send, close and once-guard is a step of its own.
 */
module CallEvents {
  import opened Frames

  const CAPACITY := 512

  datatype Kind =
    | BotJoined | UserJoined | UserFirstSpeech | BotFirstSpeech | FirstUserAudio
    | UserTurnCommitted | AssistantTurnCommitted | ToolResultCommitted
  {
    predicate OneShot() {
      BotJoined? || UserJoined? || UserFirstSpeech? || BotFirstSpeech? || FirstUserAudio?
    }
  }

  datatype Task = Task(kind: Kind, id: nat)

  /** A sync.Once: callers wait while another runs its body. */
  datatype Once = Fresh | Running(thread: int) | Done

  /** Where a thread is in firing an event. */
  datatype FireStage = AtOnce | WantLock | Checking | Sending | Unlocking | LeavingOnce

  /** Where a thread is in stopAndDrain, and in reporting the end after it. */
  datatype StopStage =
    AtStop | StopWantLock | SettingClosing | ClosingQueue | StopUnlocking | LeavingStop | Waiting | Ending

  datatype PC = Idle | Firing(task: Task, fire: FireStage) | Stopping(cleanup: bool, stop: StopStage)

  datatype Event = Started(task: Task) | Finished(task: Task) | CallEnded

  datatype State = State(
    pcs: map<int, PC>,
    mutex: Option<int>,
    closing: bool,
    closed: bool,
    done: bool,
    stopOnce: Once,
    onces: map<Kind, Once>,
    queue: seq<Task>,
    running: Option<Task>,
    cleanupBegun: bool,
    panicked: bool,            // a send on, or a second close of, a closed channel
    accepted: seq<Task>,
    log: seq<Event>)

  const INITIAL := State(map[], None, false, false, false, Fresh, map[], [], None, false, false, [], [])

  function At(pcs: map<int, PC>, t: int): PC {
    if t in pcs then pcs[t] else Idle
  }

  function OnceOf(s: State, k: Kind): Once {
    if k in s.onces then s.onces[k] else Fresh
  }

  datatype Op = Fire(task: Task) | StopAndDrain | Cleanup

  datatype Action = Begin(t: int, op: Op) | Step(t: int) | Take | Finish | Exit

  predicate Enabled(s: State, a: Action) {
    match a
    case Begin(t, op) => At(s.pcs, t).Idle? && (op.Cleanup? ==> !s.cleanupBegun)
    case Step(t) =>
      (match At(s.pcs, t)
       case Idle => false
       case Firing(task, at) => CanFire(s, task, at)
       case Stopping(_, at) => CanStop(s, at))
    case Take => !s.done && s.running.None? && s.queue != []
    case Finish => s.running.Some?
    case Exit => !s.done && s.running.None? && s.queue == [] && s.closed
  }

  predicate CanFire(s: State, task: Task, at: FireStage) {
    (at.AtOnce? ==> !OnceOf(s, task.kind).Running?) && (at.WantLock? ==> s.mutex.None?)
  }

  predicate CanStop(s: State, at: StopStage) {
    && (at.AtStop? ==> !s.stopOnce.Running?) && (at.StopWantLock? ==> s.mutex.None?)
    && (at.Waiting? ==> s.done)
  }

  function FireTarget(s: State, task: Task, at: FireStage): (pc: PC)
    ensures !pc.Stopping?
  {
    match at
    case AtOnce => if OnceOf(s, task.kind).Done? then Idle else Firing(task, WantLock)
    case WantLock => Firing(task, Checking)
    case Checking => Firing(task, if s.closing then Unlocking else Sending)
    case Sending => Firing(task, Unlocking)
    case Unlocking => if task.kind.OneShot() then Firing(task, LeavingOnce) else Idle
    case LeavingOnce => Idle
  }

  function FireEffect(s: State, t: int, task: Task, at: FireStage): (r: State)
    ensures r == s.(mutex := r.mutex, onces := r.onces, queue := r.queue, accepted := r.accepted,
        panicked := r.panicked)
  {
    match at
    case AtOnce => if OnceOf(s, task.kind).Done? then s else s.(onces := s.onces[task.kind := Running(t)])
    case WantLock => s.(mutex := Some(t))
    case Checking => s
    case Sending =>
      if s.closed then s.(panicked := true)
      else if |s.queue| < CAPACITY then s.(queue := s.queue + [task], accepted := s.accepted + [task])
      else s
    case Unlocking => s.(mutex := None)
    case LeavingOnce => s.(onces := s.onces[task.kind := Done])
  }

  function StopTarget(s: State, c: bool, at: StopStage): PC {
    match at
    case AtStop => Stopping(c, if s.stopOnce.Done? then Waiting else StopWantLock)
    case StopWantLock => Stopping(c, SettingClosing)
    case SettingClosing => Stopping(c, ClosingQueue)
    case ClosingQueue => Stopping(c, StopUnlocking)
    case StopUnlocking => Stopping(c, LeavingStop)
    case LeavingStop => Stopping(c, Waiting)
    case Waiting => if c then Stopping(c, Ending) else Idle
    case Ending => Idle
  }

  function StopEffect(s: State, t: int, at: StopStage): (r: State)
    ensures r == s.(mutex := r.mutex, closing := r.closing, closed := r.closed, stopOnce := r.stopOnce,
                    panicked := r.panicked, log := r.log)
  {
    match at
    case AtStop => if s.stopOnce.Done? then s else s.(stopOnce := Running(t))
    case StopWantLock => s.(mutex := Some(t))
    case SettingClosing => s.(closing := true)
    case ClosingQueue => if s.closed then s.(panicked := true) else s.(closed := true)
    case StopUnlocking => s.(mutex := None)
    case LeavingStop => s.(stopOnce := Done)
    case Waiting => s
    case Ending => s.(log := s.log + [CallEnded])
  }

  function WorkerEffect(s: State, a: Action): (r: State)
    requires Enabled(s, a) && (a.Take? || a.Finish? || a.Exit?)
    ensures r == s.(running := r.running, queue := r.queue, log := r.log, done := r.done)
  {
    match a
    case Take => s.(running := Some(s.queue[0]), queue := s.queue[1..], log := s.log + [Started(s.queue[0])])
    case Finish => s.(running := None, log := s.log + [Finished(s.running.value)])
    case Exit => s.(done := true)
  }

  function Start(op: Op): PC {
    match op
    case Fire(task) => Firing(task, if task.kind.OneShot() then AtOnce else WantLock)
    case StopAndDrain => Stopping(false, AtStop)
    case Cleanup => Stopping(true, AtStop)
  }

  /** Where the acting thread goes. */
  function Target(s: State, a: Action): PC
    requires Enabled(s, a) && (a.Begin? || a.Step?)
  {
    match a
    case Begin(_, op) => Start(op)
    case Step(t) =>
      match At(s.pcs, t)
      case Firing(task, at) => FireTarget(s, task, at)
      case Stopping(c, at) => StopTarget(s, c, at)
  }

  /** What an action does to everything but the threads' places. */
  function Effect(s: State, a: Action): (r: State)
    requires Enabled(s, a)
    ensures r.pcs == s.pcs
  {
    match a
    case Begin(_, op) => if op.Cleanup? then s.(cleanupBegun := true) else s
    case Step(t) =>
      (match At(s.pcs, t)
       case Firing(task, at) => FireEffect(s, t, task, at)
       case Stopping(_, at) => StopEffect(s, t, at))
    case _ => WorkerEffect(s, a)
  }

  /** Thread t moves on to `pc`; the others stay where they are. */
  function Goto(s: State, t: int, pc: PC): (r: State)
    ensures r == s.(pcs := r.pcs)
    ensures forall u :: At(r.pcs, u) == if u == t then pc else At(s.pcs, u)
  {
    s.(pcs := s.pcs[t := pc])
  }

  function Apply(s: State, a: Action): State
    requires Enabled(s, a)
  {
    if a.Begin? || a.Step? then Goto(Effect(s, a), a.t, Target(s, a)) else Effect(s, a)
  }

  predicate ValidRun(s: State, run: seq<Action>)
    decreases |run|
  {
    run == [] || (Enabled(s, run[0]) && ValidRun(Apply(s, run[0]), run[1..]))
  }

  function Final(s: State, run: seq<Action>): State
    requires ValidRun(s, run)
    decreases |run|
  {
    if run == [] then s else Final(Apply(s, run[0]), run[1..])
  }

  // ---- What the log says ----

  function StartedIn(log: seq<Event>): seq<Task> {
    if log == [] then []
    else StartedIn(log[..|log| - 1]) + (if log[|log| - 1].Started? then [log[|log| - 1].task] else [])
  }

  function FinishedIn(log: seq<Event>): seq<Task> {
    if log == [] then []
    else FinishedIn(log[..|log| - 1]) + (if log[|log| - 1].Finished? then [log[|log| - 1].task] else [])
  }

  function Count(tasks: seq<Task>, k: Kind): nat {
    if tasks == [] then 0 else Count(tasks[..|tasks| - 1], k) + (if tasks[|tasks| - 1].kind == k then 1 else 0)
  }

  function RunningNow(s: State): seq<Task> {
    if s.running.Some? then [s.running.value] else []
  }

  // ---- Invariants ----

  predicate HoldsLock(pc: PC) {
    || (pc.Firing? && (pc.fire.Checking? || pc.fire.Sending? || pc.fire.Unlocking?))
    || (pc.Stopping? && (pc.stop.SettingClosing? || pc.stop.ClosingQueue? || pc.stop.StopUnlocking?))
  }

  predicate InStopBody(pc: PC) {
    pc.Stopping? && !pc.stop.AtStop? && !pc.stop.Waiting? && !pc.stop.Ending?
  }

  predicate LockedAt(s: State, t: int, pc: PC) {
    (s.mutex == Some(t) <==> HoldsLock(pc)) && (s.stopOnce == Running(t) <==> InStopBody(pc))
  }

  ghost predicate Locked(s: State) {
    forall t :: LockedAt(s, t, At(s.pcs, t))
  }

  predicate OrderedAt(s: State, pc: PC) {
    && (pc.Firing? && pc.fire.AtOnce? ==> pc.task.kind.OneShot())
    && (pc.Firing? && pc.fire.Sending? ==> !s.closing)
    && (pc.Stopping? && (pc.stop.StopWantLock? || pc.stop.SettingClosing?) ==> !s.closing)
    && (pc.Stopping? && pc.stop.ClosingQueue? ==> s.closing && !s.closed)
    && (pc.Stopping? && (pc.stop.StopUnlocking? || pc.stop.LeavingStop? || pc.stop.Waiting?) ==> s.closed)
  }

  /** The flag is set before the queue is closed, and nobody sends between the two or after. */
  ghost predicate ClosedInOrder(s: State) {
    FlagsOrdered(s) && forall t :: OrderedAt(s, At(s.pcs, t))
  }

  predicate InOnce(pc: PC, k: Kind) {
    pc.Firing? && !pc.fire.AtOnce? && pc.task.kind == k
  }

  predicate BeforeSend(pc: PC, k: Kind) {
    pc.Firing? && (pc.fire.WantLock? || pc.fire.Checking? || pc.fire.Sending?) && pc.task.kind == k
  }

  /** What a thread's place says about the guard of a kind and the number of its accepted events. */
  predicate OnceAt(once: Once, count: nat, k: Kind, t: int, pc: PC) {
    (once == Running(t) <==> InOnce(pc, k)) && (BeforeSend(pc, k) ==> count == 0)
  }

  /** A one-shot event holds its guard until it is through, and finds nothing accepted before it. */
  ghost predicate OneShots(s: State) {
    forall k: Kind :: k.OneShot() ==>
      && CountOk(OnceOf(s, k), Count(s.accepted, k))
      && forall t :: OnceAt(OnceOf(s, k), Count(s.accepted, k), k, t, At(s.pcs, t))
  }

  ghost predicate Flow(s: State) {
    && s.accepted == FinishedIn(s.log) + RunningNow(s) + s.queue
    && StartedIn(s.log) == FinishedIn(s.log) + RunningNow(s)
    && |s.queue| <= CAPACITY
    && (s.done ==> s.closed && s.queue == [] && s.running.None?)
  }

  predicate InCleanup(pc: PC) {
    pc.Stopping? && pc.cleanup
  }

  predicate IsEnding(pc: PC) {
    pc.Stopping? && pc.stop.Ending?
  }

  predicate ReportedAt(s: State, pc: PC) {
    (InCleanup(pc) ==> s.cleanupBegun && CallEnded !in s.log) && (IsEnding(pc) ==> pc.cleanup && s.done)
  }

  /** At most one thread is in the cleanup, and it has not reported yet; a report is the last event. */
  ghost predicate Reported(s: State) {
    && (forall t :: ReportedAt(s, At(s.pcs, t)))
    && (forall t, u :: InCleanup(At(s.pcs, t)) && InCleanup(At(s.pcs, u)) ==> t == u)
    && (CallEnded in s.log ==> s.cleanupBegun && s.done)
    && (forall i :: 0 <= i < |s.log| && s.log[i].CallEnded? ==> i == |s.log| - 1)
  }

  ghost predicate Inv(s: State) {
    Locked(s) && ClosedInOrder(s) && OneShots(s) && Flow(s) && Reported(s)
  }

  /** The lock and the stop guard are only passed between "free" and the acting thread. */
  ghost predicate LockPassed(s: State, r: State, t: int) {
    && (r.mutex == s.mutex || ((r.mutex.None? || r.mutex == Some(t)) && (s.mutex.None? || s.mutex == Some(t))))
    && (r.stopOnce == s.stopOnce
        || ((r.stopOnce.Done? || r.stopOnce == Running(t)) && (s.stopOnce.Fresh? || s.stopOnce == Running(t))))
  }

  lemma LockFire(s: State, t: int, task: Task, at: FireStage)
    requires CanFire(s, task, at) && LockedAt(s, t, Firing(task, at))
    ensures LockedAt(FireEffect(s, t, task, at), t, FireTarget(s, task, at))
    ensures LockPassed(s, FireEffect(s, t, task, at), t)
  {
  }

  lemma LockStop(s: State, t: int, c: bool, at: StopStage)
    requires CanStop(s, at) && LockedAt(s, t, Stopping(c, at))
    ensures LockedAt(StopEffect(s, t, at), t, StopTarget(s, c, at))
    ensures LockPassed(s, StopEffect(s, t, at), t)
  {
  }

  lemma LockStep(s: State, a: Action)
    requires Enabled(s, a) && (a.Begin? || a.Step?) && LockedAt(s, a.t, At(s.pcs, a.t))
    ensures LockedAt(Effect(s, a), a.t, Target(s, a)) && LockPassed(s, Effect(s, a), a.t)
  {
    hide FireEffect, FireTarget, StopEffect, StopTarget, CanFire, CanStop;
    if a.Step? {
      match At(s.pcs, a.t)
      case Firing(task, at) => LockFire(s, a.t, task, at);
      case Stopping(c, at) => LockStop(s, a.t, c, at);
    }
  }

  lemma KeepsLocked(s: State, a: Action)
    requires Locked(s) && Enabled(s, a)
    ensures Locked(Apply(s, a))
  {
    hide At, Goto, Target, Effect, Enabled, HoldsLock, InStopBody;
    var r := Apply(s, a);
    if a.Begin? || a.Step? {
      LockStep(s, a);
      forall u ensures LockedAt(r, u, At(r.pcs, u)) {
        assert LockedAt(s, u, At(s.pcs, u));
      }
    } else {
      WorkerLeavesThreads(s, a);
    }
  }

  lemma WorkerLeavesThreads(s: State, a: Action)
    requires Enabled(s, a) && !a.Begin? && !a.Step?
    ensures var r := Apply(s, a);
      r == s.(running := r.running, queue := r.queue, log := r.log, done := r.done)
  {
    hide WorkerEffect;
  }

  /** While one thread holds the lock, or is stopping the dispatcher, no other does. */
  lemma OthersOut(s: State, t: int, u: int)
    requires Locked(s) && t != u
    ensures HoldsLock(At(s.pcs, t)) ==> !HoldsLock(At(s.pcs, u))
    ensures InStopBody(At(s.pcs, t)) ==> !InStopBody(At(s.pcs, u))
  {
    hide HoldsLock, InStopBody;
    assert LockedAt(s, t, At(s.pcs, t)) && LockedAt(s, u, At(s.pcs, u));
  }

  predicate FlagsOrdered(s: State) {
    !s.panicked && (s.closed ==> s.closing) && (s.stopOnce.Fresh? ==> !s.closing) && (s.stopOnce.Done? ==> s.closed)
  }

  lemma OrderFire(s: State, t: int, task: Task, at: FireStage)
    requires FlagsOrdered(s) && OrderedAt(s, Firing(task, at))
    ensures FlagsOrdered(FireEffect(s, t, task, at)) && OrderedAt(FireEffect(s, t, task, at), FireTarget(s, task, at))
  {
  }

  /** Stopping changes the flags only with the lock and the guard held. */
  lemma OrderStop(s: State, t: int, c: bool, at: StopStage)
    requires CanStop(s, at) && FlagsOrdered(s) && OrderedAt(s, Stopping(c, at)) && LockedAt(s, t, Stopping(c, at))
    ensures var r := StopEffect(s, t, at);
      && FlagsOrdered(r) && OrderedAt(r, StopTarget(s, c, at)) && (s.closed ==> r.closed)
      && ((r.closing == s.closing && r.closed == s.closed)
          || (HoldsLock(Stopping(c, at)) && InStopBody(Stopping(c, at))))
  {
  }

  lemma OrderStep(s: State, a: Action)
    requires Enabled(s, a) && (a.Begin? || a.Step?) && LockedAt(s, a.t, At(s.pcs, a.t))
    requires FlagsOrdered(s) && OrderedAt(s, At(s.pcs, a.t))
    ensures var r := Effect(s, a);
      && FlagsOrdered(r) && OrderedAt(r, Target(s, a)) && (s.closed ==> r.closed)
      && ((r.closing == s.closing && r.closed == s.closed)
          || (HoldsLock(At(s.pcs, a.t)) && InStopBody(At(s.pcs, a.t))))
  {
    hide FireEffect, FireTarget, StopEffect, StopTarget, CanFire, CanStop, LockedAt;
    if a.Step? {
      match At(s.pcs, a.t)
      case Firing(task, at) => OrderFire(s, a.t, task, at);
      case Stopping(c, at) => OrderStop(s, a.t, c, at);
    }
  }

  lemma KeepsClosedInOrder(s: State, a: Action)
    requires Locked(s) && ClosedInOrder(s) && Enabled(s, a)
    ensures ClosedInOrder(Apply(s, a))
  {
    hide At, Goto, Target, Effect, Enabled, Locked, LockedAt;
    var r := Apply(s, a);
    if a.Begin? || a.Step? {
      assert LockedAt(s, a.t, At(s.pcs, a.t)) by { LockedEverywhere(s, a.t); }
      OrderStep(s, a);
      forall u ensures OrderedAt(r, At(r.pcs, u)) {
        if u != a.t {
          OthersOut(s, a.t, u);
          assert OrderedAt(s, At(s.pcs, u));
        }
      }
    } else {
      WorkerLeavesThreads(s, a);
      forall u ensures OrderedAt(r, At(r.pcs, u)) {
        assert OrderedAt(s, At(s.pcs, u));
      }
    }
  }

  lemma LockedEverywhere(s: State, t: int)
    requires Locked(s)
    ensures LockedAt(s, t, At(s.pcs, t))
  {
  }

  lemma CountSnoc(tasks: seq<Task>, x: Task, k: Kind)
    ensures Count(tasks + [x], k) == Count(tasks, k) + (if x.kind == k then 1 else 0)
  {
    assert (tasks + [x])[..|tasks|] == tasks;
  }

  predicate CountOk(once: Once, count: nat) {
    count <= 1 && (once.Fresh? ==> count == 0)
  }

  /** The guard of a kind, and its count, change only in the hands of the acting thread. */
  predicate OncePassed(before: Once, n: nat, after: Once, m: nat, t: int) {
    || (after == before && m == n)
    || ((before.Fresh? || before == Running(t)) && (after.Done? || after == Running(t)))
  }

  lemma AcceptedByFire(s: State, t: int, task: Task, at: FireStage, k: Kind)
    ensures var n, m := Count(s.accepted, k), Count(FireEffect(s, t, task, at).accepted, k);
      m == n || (m == n + 1 && at.Sending? && task.kind == k)
  {
    hide Count;
    CountSnoc(s.accepted, task, k);
  }

  lemma GuardByFire(s: State, t: int, task: Task, at: FireStage, k: Kind)
    ensures var before, after := OnceOf(s, k), OnceOf(FireEffect(s, t, task, at), k);
      after == if task.kind != k then before
               else if at.AtOnce? && !before.Done? then Running(t)
               else if at.LeavingOnce? then Done
               else before
  {
  }

  lemma OnceFire(s: State, t: int, task: Task, at: FireStage, k: Kind)
    requires CanFire(s, task, at) && k.OneShot()
    requires OnceAt(OnceOf(s, k), Count(s.accepted, k), k, t, Firing(task, at))
        && CountOk(OnceOf(s, k), Count(s.accepted, k))
    ensures var r := FireEffect(s, t, task, at);
      && OnceAt(OnceOf(r, k), Count(r.accepted, k), k, t, FireTarget(s, task, at))
      && CountOk(OnceOf(r, k), Count(r.accepted, k))
      && OncePassed(OnceOf(s, k), Count(s.accepted, k), OnceOf(r, k), Count(r.accepted, k), t)
  {
    hide Count, FireEffect, OnceOf;
    AcceptedByFire(s, t, task, at, k);
    GuardByFire(s, t, task, at, k);
  }

  lemma OnceStep(s: State, a: Action, k: Kind)
    requires Enabled(s, a) && (a.Begin? || a.Step?) && k.OneShot()
    requires OnceAt(OnceOf(s, k), Count(s.accepted, k), k, a.t, At(s.pcs, a.t))
        && CountOk(OnceOf(s, k), Count(s.accepted, k))
    ensures var r := Effect(s, a);
      && OnceAt(OnceOf(r, k), Count(r.accepted, k), k, a.t, Target(s, a))
      && CountOk(OnceOf(r, k), Count(r.accepted, k))
      && OncePassed(OnceOf(s, k), Count(s.accepted, k), OnceOf(r, k), Count(r.accepted, k), a.t)
  {
    hide Count, FireEffect, FireTarget, StopEffect, CanFire, CanStop;
    if a.Step? {
      match At(s.pcs, a.t)
      case Firing(task, at) => OnceFire(s, a.t, task, at, k);
      case Stopping(c, at) =>
    }
  }

  lemma BeforeSendIsInOnce(pc: PC, k: Kind)
    ensures BeforeSend(pc, k) ==> InOnce(pc, k)
  {
  }

  lemma KeepsOneShots(s: State, a: Action)
    requires OneShots(s) && Enabled(s, a)
    ensures OneShots(Apply(s, a))
  {
    hide At, Goto, Target, Effect, Enabled, Count, OnceOf, InOnce, BeforeSend;
    var r := Apply(s, a);
    if a.Begin? || a.Step? {
      forall k: Kind | k.OneShot()
        ensures CountOk(OnceOf(r, k), Count(r.accepted, k))
        ensures forall u :: OnceAt(OnceOf(r, k), Count(r.accepted, k), k, u, At(r.pcs, u))
      {
        OnceStep(s, a, k);
        OnceOfFrame(Effect(s, a), r);
        forall u ensures OnceAt(OnceOf(r, k), Count(r.accepted, k), k, u, At(r.pcs, u)) {
          assert OnceAt(OnceOf(s, k), Count(s.accepted, k), k, u, At(s.pcs, u));
          BeforeSendIsInOnce(At(s.pcs, u), k);
        }
      }
    } else {
      WorkerLeavesThreads(s, a);
      OnceOfFrame(s, r);
      forall k: Kind, u | k.OneShot() ensures OnceAt(OnceOf(r, k), Count(r.accepted, k), k, u, At(r.pcs, u)) {
        assert OnceAt(OnceOf(s, k), Count(s.accepted, k), k, u, At(s.pcs, u));
      }
    }
  }

  lemma OnceOfFrame(s: State, r: State)
    requires r.onces == s.onces
    ensures forall k :: OnceOf(r, k) == OnceOf(s, k)
  {
  }

  lemma LogSnoc(log: seq<Event>, e: Event)
    ensures StartedIn(log + [e]) == StartedIn(log) + (if e.Started? then [e.task] else [])
    ensures FinishedIn(log + [e]) == FinishedIn(log) + (if e.Finished? then [e.task] else [])
  {
    assert (log + [e])[..|log|] == log;
  }

  lemma FlowWorker(s: State, a: Action)
    requires Flow(s) && Enabled(s, a) && (a.Take? || a.Finish? || a.Exit?)
    ensures Flow(WorkerEffect(s, a))
  {
    hide StartedIn, FinishedIn;
    match a
    case Take =>
      LogSnoc(s.log, Started(s.queue[0]));
      assert s.queue == [s.queue[0]] + s.queue[1..];
    case Finish => LogSnoc(s.log, Finished(s.running.value));
    case Exit =>
  }

  lemma FlowFire(s: State, t: int, task: Task, at: FireStage)
    requires Flow(s) && FlagsOrdered(s)
    ensures Flow(FireEffect(s, t, task, at))
  {
    hide StartedIn, FinishedIn;
  }

  lemma FlowStop(s: State, t: int, at: StopStage)
    requires Flow(s) && FlagsOrdered(s)
    ensures Flow(StopEffect(s, t, at))
  {
    hide StartedIn, FinishedIn;
    LogSnoc(s.log, CallEnded);
  }

  lemma KeepsFlow(s: State, a: Action)
    requires ClosedInOrder(s) && Flow(s) && Enabled(s, a)
    ensures Flow(Apply(s, a))
  {
    hide StartedIn, FinishedIn, At, Goto, FlagsOrdered, Target, CanFire, CanStop, FireEffect, StopEffect, WorkerEffect;
    match a
    case Begin(_, _) =>
    case Step(t) =>
      match At(s.pcs, t) {
        case Firing(task, at) => FlowFire(s, t, task, at);
        case Stopping(_, at) => FlowStop(s, t, at);
      }
    case _ => FlowWorker(s, a);
  }

  /** Only the one cleanup thread gets to report, and only after the worker is done. */
  lemma ReportStep(s: State, a: Action)
    requires Enabled(s, a) && (a.Begin? || a.Step?) && ReportedAt(s, At(s.pcs, a.t))
    requires CallEnded in s.log ==> s.cleanupBegun && s.done
    ensures var r := Effect(s, a);
      && ReportedAt(r, Target(s, a)) && (s.cleanupBegun ==> r.cleanupBegun) && r.done == s.done
      && (InCleanup(Target(s, a)) && !InCleanup(At(s.pcs, a.t)) ==> !s.cleanupBegun)
      && (r.log == s.log || (IsEnding(At(s.pcs, a.t)) && r.log == s.log + [CallEnded]))
      && (r.log != s.log ==> !InCleanup(Target(s, a)))
  {
    hide FireEffect, FireTarget, CanFire, StopEffect, StopTarget, CanStop;
    if a.Step? && At(s.pcs, a.t).Stopping? {
      ReportStop(s, a.t, At(s.pcs, a.t).cleanup, At(s.pcs, a.t).stop);
    }
  }

  lemma ReportStop(s: State, t: int, c: bool, at: StopStage)
    requires CanStop(s, at) && ReportedAt(s, Stopping(c, at))
    requires CallEnded in s.log ==> s.cleanupBegun && s.done
    ensures var r := StopEffect(s, t, at);
      && ReportedAt(r, StopTarget(s, c, at))
      && (StopTarget(s, c, at).Stopping? ==> StopTarget(s, c, at).cleanup == c && r.log == s.log)
      && (r.log == s.log || (at.Ending? && r.log == s.log + [CallEnded]))
  {
  }

  lemma KeepsReported(s: State, a: Action)
    requires Flow(s) && Reported(s) && Enabled(s, a)
    ensures Reported(Apply(s, a))
  {
    hide StartedIn, FinishedIn, At, Goto, Target, Effect;
    var r := Apply(s, a);
    if a.Begin? || a.Step? {
      assert ReportedAt(s, At(s.pcs, a.t));
      ReportStep(s, a);
      forall u ensures ReportedAt(r, At(r.pcs, u)) {
        assert ReportedAt(s, At(s.pcs, u));
      }
    } else {
      hide InCleanup;
      ReportWorker(s, a);
      forall u ensures ReportedAt(r, At(r.pcs, u)) {
        assert ReportedAt(s, At(s.pcs, u));
      }
    }
  }

  /** The worker is not at work any more once the end has been reported. */
  lemma ReportWorker(s: State, a: Action)
    requires Enabled(s, a) && !a.Begin? && !a.Step? && (s.done ==> s.running.None?)
    ensures var r := Effect(s, a);
      && r.pcs == s.pcs && r.cleanupBegun == s.cleanupBegun && (s.done ==> r.done)
      && (r.log == s.log || (!s.done && |r.log| == |s.log| + 1 && r.log == s.log + [r.log[|s.log|]]
          && !r.log[|s.log|].CallEnded?))
  {
  }

  lemma StepKeepsInv(s: State, a: Action)
    requires Inv(s) && Enabled(s, a)
    ensures Inv(Apply(s, a))
  {
    hide Locked, ClosedInOrder, OneShots, Flow, Reported, Apply, Enabled;
    KeepsLocked(s, a);
    KeepsClosedInOrder(s, a);
    KeepsOneShots(s, a);
    KeepsFlow(s, a);
    KeepsReported(s, a);
  }

  lemma {:induction false} RunKeepsInv(s: State, run: seq<Action>)
    requires Inv(s) && ValidRun(s, run)
    ensures Inv(Final(s, run))
    decreases |run|
  {
    hide Inv, Apply, Enabled;
    if run != [] {
      StepKeepsInv(s, run[0]);
      RunKeepsInv(Apply(s, run[0]), run[1..]);
    }
  }

  // ---- Main results ----

  /**
   * In every interleaving nothing is sent on the closed queue, the accepted events are started in
   * the order of their acceptance, each exactly once, and a one-shot event is accepted at most once.
   */
  lemma AcceptedEventsRunOnce(run: seq<Action>)
    requires ValidRun(INITIAL, run)
    ensures var s := Final(INITIAL, run);
      && !s.panicked
      && s.accepted == StartedIn(s.log) + s.queue
      && StartedIn(s.log) == FinishedIn(s.log) + RunningNow(s)
      && forall k: Kind :: k.OneShot() ==> Count(s.accepted, k) <= 1
  {
    hide Final, ValidRun, Apply, Count;
    InitialInv();
    RunKeepsInv(INITIAL, run);
  }

  lemma InitialInv()
    ensures Inv(INITIAL)
  {
  }

  /**
   * When the end of the call has been reported, that is the last thing in the log, now and for
   * ever: every accepted event had finished before, and no event starts or is accepted after.
   */
  lemma EndIsReportedLast(run: seq<Action>)
    requires ValidRun(INITIAL, run) && CallEnded in Final(INITIAL, run).log
    ensures var s := Final(INITIAL, run);
      && s.log[|s.log| - 1].CallEnded?
      && CallEnded !in s.log[..|s.log| - 1]
      && FinishedIn(s.log) == s.accepted
      && s.queue == [] && s.running.None?
  {
    hide Final, ValidRun, Apply, Count, StartedIn, FinishedIn;
    InitialInv();
    RunKeepsInv(INITIAL, run);
  }

  // ---- Nobody waits for ever ----

  ghost predicate CanMove(s: State) {
    exists a: Action :: !a.Begin? && Enabled(s, a)
  }

  /** A thread that wants the lock, or holds it, can move itself or waits for a holder that can. */
  lemma LockMoves(s: State, t: int)
    requires Locked(s)
    requires var pc := At(s.pcs, t);
      HoldsLock(pc) || (pc.Firing? && !pc.fire.AtOnce?) || (pc.Stopping? && InStopBody(pc))
    ensures CanMove(s)
  {
    hide At;
    if s.mutex.Some? {
      assert LockedAt(s, s.mutex.value, At(s.pcs, s.mutex.value));
      assert Enabled(s, Step(s.mutex.value));
    } else {
      assert LockedAt(s, t, At(s.pcs, t));
      assert Enabled(s, Step(t));
    }
  }

  lemma WorkerMoves(s: State)
    requires !s.done && s.closed
    ensures CanMove(s)
  {
    assert Enabled(s, Take) || Enabled(s, Finish) || Enabled(s, Exit);
  }

  lemma GuardMoves(s: State, t: int)
    requires Locked(s) && OneShots(s) && At(s.pcs, t).Firing?
    requires At(s.pcs, t).fire.AtOnce? ==> At(s.pcs, t).task.kind.OneShot()
    ensures CanMove(s)
  {
    hide Locked, Count, At, HoldsLock, InStopBody;
    var pc := At(s.pcs, t);
    var once := OnceOf(s, pc.task.kind);
    if !pc.fire.AtOnce? {
      LockMoves(s, t);
    } else if once.Running? {
      assert OnceAt(once, Count(s.accepted, pc.task.kind), pc.task.kind, once.thread, At(s.pcs, once.thread));
      LockMoves(s, once.thread);
    } else {
      assert Enabled(s, Step(t));
    }
  }

  lemma StopMoves(s: State, t: int)
    requires Locked(s) && At(s.pcs, t).Stopping? && At(s.pcs, t).stop.AtStop?
    ensures CanMove(s)
  {
    hide At, HoldsLock;
    if s.stopOnce.Running? {
      assert LockedAt(s, s.stopOnce.thread, At(s.pcs, s.stopOnce.thread));
      LockMoves(s, s.stopOnce.thread);
    } else {
      assert Enabled(s, Step(t));
    }
  }

  lemma SomebodyMoves(s: State, t: int)
    requires Inv(s) && !At(s.pcs, t).Idle?
    ensures CanMove(s)
  {
    hide Apply, Count, StartedIn, FinishedIn, At, HoldsLock, Locked;
    var pc := At(s.pcs, t);
    if pc.Firing? {
      assert OrderedAt(s, pc);
      GuardMoves(s, t);
    } else if InStopBody(pc) {
      LockMoves(s, t);
    } else if pc.stop.AtStop? {
      StopMoves(s, t);
    } else if pc.stop.Waiting? && !s.done {
      assert OrderedAt(s, pc);
      WorkerMoves(s);
    } else {
      assert Enabled(s, Step(t));
    }
  }

  /** As long as some thread is not back to idle, there is a next step that needs no new call. */
  lemma NobodyIsStuck(run: seq<Action>, t: int)
    requires ValidRun(INITIAL, run) && !At(Final(INITIAL, run).pcs, t).Idle?
    ensures CanMove(Final(INITIAL, run))
  {
    hide Inv, Final, ValidRun, At;
    InitialInv();
    RunKeepsInv(INITIAL, run);
    SomebodyMoves(Final(INITIAL, run), t);
  }
}
