/**
 * One processor of the pipeline: the input loop, the process loops and the interrupt dance
 * between them, as atomic steps over bounded channels.
 *
 * A select with several ready cases may take any of them, so every enabled action may be the
 * next one. A process loop is identified by its index in `loops`; the last one is current.
 */
module Processor {
  import opened Frames
  import opened Sequences

  const INPUT_DATA_CAPACITY := 100
  const INPUT_SYS_CAPACITY := 16
  const PROC_CAPACITY := 100

  datatype LoopPc =
    | Top                                  // before the priority check of the loop context
    | Selecting                            // past the check, in the select
    | Handling(env: Envelope, sent: bool)  // inside ProcessFrame; `sent` once a forwarder has pushed it on
    | Ending                               // EndFrame handled, `cancelling` stored, context not yet cancelled
    | Exited

  datatype Loop = Loop(cancelled: bool, pc: LoopPc)

  datatype InputPc =
    | Priority                                      // first select: context, then system channel
    | Fair                                          // second select: either channel
    | Holding(env: Envelope)                        // a data frame on its way to the process channel
    | Interrupting(sys: Envelope)                   // about to cancel the current loop
    | Waiting(sys: Envelope)                        // for the loops to exit, or for the timeout
    | Draining(sys: Envelope, keep: seq<Envelope>)  // emptying the process channel
    | Refilling(sys: Envelope, keep: seq<Envelope>) // loop restarted, pushing the kept frames back
    | Dispatching(sys: Envelope, sent: bool)        // ProcessFrame for a system frame
    | Stopped

  datatype Stage = Stage(
    sysCh: seq<Envelope>,
    dataCh: seq<Envelope>,
    procCh: seq<Envelope>,
    input: InputPc,
    loops: seq<Loop>,
    cancelling: bool,
    cancelled: bool,            // the per-processor context is done
    timedOut: bool,             // some interrupt gave up waiting for the loops
    accepted: seq<Envelope>,    // history: data frames taken by the data channel
    handed: seq<Envelope>,      // history: data frames given to ProcessFrame
    purged: seq<Envelope>,      // history: data frames dropped by an interrupt
    abandoned: seq<Envelope>)   // history: data frames dropped because the context was done
  {
    predicate AllExited() {
      forall k :: 0 <= k < |loops| ==> loops[k].pc == Exited
    }

    /** The context a process loop sees: its own, or the processor's. */
    predicate LoopDone(k: nat)
      requires k < |loops|
    {
      loops[k].cancelled || cancelled
    }
  }

  /** The current process loop. */
  function Current(s: Stage): Loop
    requires s.loops != []
  {
    s.loops[|s.loops| - 1]
  }

  /** Frames the input loop has in hand. */
  function InHand(s: Stage): seq<Envelope> {
    match s.input
    case Holding(env) => [env]
    case Draining(_, keep) => keep
    case Refilling(_, keep) => keep
    case _ => []
  }

  /** Frames an interrupt has taken out of the process channel and will push back. */
  function Held(s: Stage): seq<Envelope> {
    if s.input.Draining? then s.input.keep else []
  }

  /** Accepted frames not yet handed over, in the order in which they would be. */
  function Rest(s: Stage): seq<Envelope> {
    if s.input.Draining? then s.input.keep + s.procCh + s.dataCh else s.procCh + InHand(s) + s.dataCh
  }

  /** A started processor: one process loop, input loop at its priority pass. */
  const INITIAL := Stage([], [], [], Priority, [Loop(false, Top)], false, false, false, [], [], [], [])

  datatype Action =
    | AcceptData(env: Envelope)
    | AcceptSystem(env: Envelope)
    | NothingUrgent        // priority pass falls through
    | TakeSystem
    | TakeData
    | ForwardData
    | StopInput
    | CancelLoop
    | LoopsGone
    | WaitTimeout
    | DrainOne
    | RestartLoop
    | RefillOne
    | RefillDone
    | RefillGivesUp
    | Dispatched
    | LoopCheck(k: nat)
    | LoopTake(k: nat)
    | LoopExit(k: nat)
    | LoopReturn(k: nat)
    | LoopCancels(k: nat)
    | MarkCancelling       // Stop, first half
    | CancelContext        // Stop, second half, or the context of the whole call

  predicate Enabled(s: Stage, a: Action) {
    match a
    case AcceptData(env) => !env.frame.IsSystem() && |s.dataCh| < INPUT_DATA_CAPACITY
    case AcceptSystem(env) => env.frame.IsSystem() && |s.sysCh| < INPUT_SYS_CAPACITY
    case NothingUrgent => s.input.Priority? && s.sysCh == [] && !s.cancelled
    case TakeSystem => (s.input.Priority? || s.input.Fair?) && s.sysCh != []
    case TakeData => s.input.Fair? && s.dataCh != []
    case ForwardData => s.input.Holding? && |s.procCh| < PROC_CAPACITY
    case StopInput => s.cancelled && (s.input.Priority? || s.input.Fair? || s.input.Holding?)
    case CancelLoop => s.input.Interrupting? && s.loops != []
    case LoopsGone => s.input.Waiting? && s.AllExited()
    case WaitTimeout => s.input.Waiting?
    case DrainOne => s.input.Draining? && s.procCh != []
    case RestartLoop => s.input.Draining? && s.procCh == []
    case RefillOne => s.input.Refilling? && s.input.keep != [] && |s.procCh| < PROC_CAPACITY
    case RefillDone => s.input.Refilling? && s.input.keep == []
    case RefillGivesUp => s.input.Refilling? && s.input.keep != [] && s.cancelled
    case Dispatched => s.input.Dispatching?
    case LoopCheck(k) => k < |s.loops| && s.loops[k].pc.Top? && !s.LoopDone(k)
    case LoopTake(k) => k < |s.loops| && s.loops[k].pc.Selecting? && s.procCh != []
    case LoopExit(k) => k < |s.loops| && (s.loops[k].pc.Top? || s.loops[k].pc.Selecting?) && s.LoopDone(k)
    case LoopReturn(k) => k < |s.loops| && s.loops[k].pc.Handling?
    case LoopCancels(k) => k < |s.loops| && s.loops[k].pc.Ending?
    case MarkCancelling => true
    case CancelContext => true
  }

  function SetPc(s: Stage, k: nat, pc: LoopPc): Stage
    requires k < |s.loops|
  {
    s.(loops := s.loops[k := s.loops[k].(pc := pc)])
  }

  function Apply(s: Stage, a: Action): Stage
    requires Enabled(s, a)
  {
    match a
    case AcceptData(env) => s.(dataCh := s.dataCh + [env], accepted := s.accepted + [env])
    case AcceptSystem(env) => s.(sysCh := s.sysCh + [env])
    case NothingUrgent => s.(input := Fair)
    case TakeSystem =>
      var sys := s.sysCh[0];
      s.(sysCh := s.sysCh[1..],
         input := if sys.frame.InterruptFrame? then Interrupting(sys) else Dispatching(sys, false))
    case TakeData => s.(dataCh := s.dataCh[1..], input := Holding(s.dataCh[0]))
    case ForwardData => s.(procCh := s.procCh + [s.input.env], input := Priority)
    case StopInput => s.(input := Stopped, abandoned := s.abandoned + InHand(s))
    case CancelLoop =>
      s.(loops := s.loops[|s.loops| - 1 := Current(s).(cancelled := true)], input := Waiting(s.input.sys))
    case LoopsGone => s.(input := Draining(s.input.sys, []))
    case WaitTimeout => s.(input := Draining(s.input.sys, []), timedOut := true)
    case DrainOne =>
      var env := s.procCh[0];
      if env.frame.IsInterruptible() then
        s.(procCh := s.procCh[1..], purged := s.purged + [env])
      else
        s.(procCh := s.procCh[1..], input := Draining(s.input.sys, s.input.keep + [env]))
    case RestartLoop =>
      s.(loops := s.loops + [Loop(false, Top)], input := Refilling(s.input.sys, s.input.keep))
    case RefillOne =>
      s.(procCh := s.procCh + [s.input.keep[0]], input := Refilling(s.input.sys, s.input.keep[1..]))
    case RefillDone => s.(input := Dispatching(s.input.sys, false))
    case RefillGivesUp => s.(input := Dispatching(s.input.sys, false), abandoned := s.abandoned + s.input.keep)
    case Dispatched => s.(input := Priority)
    case LoopCheck(k) => SetPc(s, k, Selecting)
    case LoopTake(k) =>
      SetPc(s.(procCh := s.procCh[1..], handed := s.handed + [s.procCh[0]]), k, Handling(s.procCh[0], false))
    case LoopExit(k) => SetPc(s, k, Exited)
    case LoopReturn(k) =>
      if s.loops[k].pc.env.frame.EndFrame? then SetPc(s.(cancelling := true), k, Ending) else SetPc(s, k, Top)
    case LoopCancels(k) => SetPc(s.(cancelled := true), k, Exited)
    case MarkCancelling => s.(cancelling := true)
    case CancelContext => s.(cancelled := true)
  }

  predicate ValidRun(s: Stage, run: seq<Action>)
    decreases |run|
  {
    run == [] || (Enabled(s, run[0]) && ValidRun(Apply(s, run[0]), run[1..]))
  }

  function Final(s: Stage, run: seq<Action>): Stage
    requires ValidRun(s, run)
    decreases |run|
  {
    if run == [] then s else Final(Apply(s, run[0]), run[1..])
  }

  // ---- How frames flow through one step ----

  datatype Fate = Queued | Handed | Purged | Abandoned

  /** Where an action sends the frames it removes from the waiting ones. */
  function FateOf(a: Action): Fate {
    match a
    case LoopTake(_) => Handed
    case DrainOne => Purged
    case StopInput => Abandoned
    case RefillGivesUp => Abandoned
    case _ => Queued
  }

  /** The frames waiting in `s` are `x + b + z`; the step to `t` removes `b` and records its fate. */
  ghost predicate Flows(s: Stage, t: Stage, fate: Fate, x: seq<Envelope>, b: seq<Envelope>, z: seq<Envelope>) {
    && Rest(s) == x + b + z
    && Rest(t) == x + z
    && t.accepted == s.accepted
    && t.handed == s.handed + (if fate.Handed? then b else [])
    && t.purged == s.purged + (if fate.Purged? then b else [])
    && t.abandoned == s.abandoned + (if fate.Abandoned? then b else [])
    && (fate.Queued? ==> b == [])
  }

  /** Moving the head of the middle part to the end of the first changes nothing. */
  lemma MoveHead<T>(p: seq<T>, k: seq<T>, d: seq<T>)
    requires k != []
    ensures p + k + d == (p + [k[0]]) + k[1..] + d
  {
    assert k == [k[0]] + k[1..];
  }

  lemma HeadBlock<T>(p: seq<T>, k: seq<T>, d: seq<T>)
    requires k != []
    ensures p + k + d == p + [k[0]] + (k[1..] + d)
    ensures p + k[1..] + d == p + (k[1..] + d)
  {
    assert k == [k[0]] + k[1..];
  }

  lemma FlowOfTakeData(s: Stage)
    requires Enabled(s, TakeData)
    ensures Rest(Apply(s, TakeData)) == Rest(s)
  {
    HeadBlock(s.procCh, s.dataCh, []);
    assert s.procCh + [] + s.dataCh == s.procCh + s.dataCh + [];
    assert s.procCh + [s.dataCh[0]] + s.dataCh[1..] == s.procCh + [s.dataCh[0]] + (s.dataCh[1..] + []);
  }

  lemma FlowOfForward(s: Stage)
    requires Enabled(s, ForwardData)
    ensures Rest(Apply(s, ForwardData)) == Rest(s)
  {
  }

  lemma FlowOfRestart(s: Stage)
    requires Enabled(s, RestartLoop)
    ensures Rest(Apply(s, RestartLoop)) == Rest(s)
  {
    assert s.input.keep + [] == [] + s.input.keep;
  }

  lemma FlowOfRefill(s: Stage)
    requires Enabled(s, RefillOne)
    ensures Rest(Apply(s, RefillOne)) == Rest(s)
  {
    MoveHead(s.procCh, s.input.keep, s.dataCh);
  }

  lemma FlowOfAbandon(s: Stage, a: Action) returns (x: seq<Envelope>, b: seq<Envelope>, z: seq<Envelope>)
    requires Enabled(s, a) && (a.StopInput? || a.RefillGivesUp?)
    ensures Flows(s, Apply(s, a), Abandoned, x, b, z)
  {
    x, b, z := s.procCh, InHand(s), s.dataCh;
    assert Rest(Apply(s, a)) == x + z;
  }

  lemma FlowOfDrain(s: Stage) returns (x: seq<Envelope>, b: seq<Envelope>, z: seq<Envelope>)
    requires Enabled(s, DrainOne)
    ensures Flows(s, Apply(s, DrainOne), Purged, x, b, z)
    ensures forall e :: e in b ==> e.frame.IsInterruptible()
  {
    if s.procCh[0].frame.IsInterruptible() {
      x, b, z := s.input.keep, [s.procCh[0]], s.procCh[1..] + s.dataCh;
      HeadBlock(s.input.keep, s.procCh, s.dataCh);
    } else {
      x, b, z := Rest(s), [], [];
      MoveHead(s.input.keep, s.procCh, s.dataCh);
      assert x + b + z == x && x + z == x;
    }
  }

  lemma FlowOfTake(s: Stage, k: nat) returns (x: seq<Envelope>, b: seq<Envelope>, z: seq<Envelope>)
    requires Enabled(s, LoopTake(k))
    ensures Flows(s, Apply(s, LoopTake(k)), Handed, x, b, z)
    ensures b == [s.procCh[0]] && x == Held(s)
  {
    x := Held(s);
    b := [s.procCh[0]];
    z := s.procCh[1..] + (if s.input.Draining? then s.dataCh else InHand(s) + s.dataCh);
    RestBeforeTake(s, x, b, z);
    RestAfterTake(s, k, x, z);
  }

  lemma RestBeforeTake(s: Stage, x: seq<Envelope>, b: seq<Envelope>, z: seq<Envelope>)
    requires s.procCh != [] && b == [s.procCh[0]]
    requires s.input.Draining? ==> x == s.input.keep && z == s.procCh[1..] + s.dataCh
    requires !s.input.Draining? ==> x == [] && z == s.procCh[1..] + (InHand(s) + s.dataCh)
    ensures Rest(s) == x + b + z
  {
    if s.input.Draining? {
      HeadBlock(s.input.keep, s.procCh, s.dataCh);
    } else {
      HeadBlock([], s.procCh, InHand(s) + s.dataCh);
      assert Rest(s) == [] + s.procCh + (InHand(s) + s.dataCh);
    }
  }

  lemma RestAfterTake(s: Stage, k: nat, x: seq<Envelope>, z: seq<Envelope>)
    requires Enabled(s, LoopTake(k))
    requires s.input.Draining? ==> x == s.input.keep && z == s.procCh[1..] + s.dataCh
    requires !s.input.Draining? ==> x == [] && z == s.procCh[1..] + (InHand(s) + s.dataCh)
    ensures Rest(Apply(s, LoopTake(k))) == x + z
  {
    var t := Apply(s, LoopTake(k));
    assert t.procCh == s.procCh[1..] && t.dataCh == s.dataCh && t.input == s.input;
  }

  lemma FlowOfOthers(s: Stage, a: Action)
    requires Enabled(s, a) && !a.AcceptData? && FateOf(a).Queued?
    requires !(a.TakeData? || a.ForwardData? || a.RestartLoop? || a.RefillOne?)
    ensures Rest(Apply(s, a)) == Rest(s)
  {
    hide Rest;
    var t := Apply(s, a);
    assert t.procCh == s.procCh && t.dataCh == s.dataCh && InHand(t) == InHand(s);
    SameRest(s, t);
  }

  /** Only what is in the channels and in hand counts; an interrupt that holds nothing changes nothing. */
  lemma SameRest(s: Stage, t: Stage)
    requires t.procCh == s.procCh && t.dataCh == s.dataCh && InHand(t) == InHand(s)
    requires t.input.Draining? == s.input.Draining? || InHand(s) == []
    ensures Rest(t) == Rest(s)
  {
  }

  /** Every step but an acceptance removes one block of waiting frames, possibly an empty one. */
  lemma Flow(s: Stage, a: Action) returns (x: seq<Envelope>, b: seq<Envelope>, z: seq<Envelope>)
    requires Enabled(s, a) && !a.AcceptData?
    ensures Flows(s, Apply(s, a), FateOf(a), x, b, z)
    ensures a.DrainOne? ==> forall e :: e in b ==> e.frame.IsInterruptible()
    ensures a.LoopTake? ==> b == [s.procCh[0]] && x == Held(s)
  {
    hide Rest, Held;
    if a.StopInput? || a.RefillGivesUp? {
      x, b, z := FlowOfAbandon(s, a);
    } else if a.DrainOne? {
      x, b, z := FlowOfDrain(s);
    } else if a.LoopTake? {
      x, b, z := FlowOfTake(s, a.k);
    } else {
      x, b, z := Rest(s), [], [];
      match a {
        case TakeData => FlowOfTakeData(s);
        case ForwardData => FlowOfForward(s);
        case RestartLoop => FlowOfRestart(s);
        case RefillOne => FlowOfRefill(s);
        case _ => FlowOfOthers(s, a);
      }
      assert x + b + z == x && x + z == x;
    }
  }

  lemma FlowOfAccept(s: Stage, a: Action)
    requires Enabled(s, a) && a.AcceptData?
    ensures Rest(Apply(s, a)) == Rest(s) + [a.env]
  {
  }

  // ---- What holds in every interleaving, timed-out waits included ----

  ghost predicate Conserved(s: Stage) {
    multiset(s.accepted) ==
    multiset(s.handed) + multiset(s.purged) + multiset(s.abandoned) + multiset(Rest(s))
  }

  ghost predicate Safe(s: Stage) {
    Conserved(s) && LosesOnlyWhatItMay(s) && Bounded(s)
  }

  ghost predicate LosesOnlyWhatItMay(s: Stage) {
    && (forall i :: 0 <= i < |s.purged| ==> s.purged[i].frame.IsInterruptible())
    && (s.abandoned != [] ==> s.cancelled)
  }

  lemma LossStep(s: Stage, a: Action)
    requires LosesOnlyWhatItMay(s) && Enabled(s, a)
    ensures LosesOnlyWhatItMay(Apply(s, a))
  {
  }

  ghost predicate Bounded(s: Stage) {
    && |s.procCh| <= PROC_CAPACITY
    && (s.input.Draining? || s.input.Refilling? ==> |s.procCh| + |s.input.keep| <= PROC_CAPACITY)
  }

  lemma BoundedStep(s: Stage, a: Action)
    requires Bounded(s) && Enabled(s, a)
    ensures Bounded(Apply(s, a))
  {
  }

  lemma ConservedStep(s: Stage, a: Action)
    requires Conserved(s) && Enabled(s, a)
    ensures Conserved(Apply(s, a))
  {
    if a.AcceptData? {
      FlowOfAccept(s, a);
    } else {
      var x, b, z := Flow(s, a);
      FlowConserves(s, Apply(s, a), FateOf(a), x, b, z);
    }
  }

  lemma FlowConserves(s: Stage, t: Stage, fate: Fate, x: seq<Envelope>, b: seq<Envelope>, z: seq<Envelope>)
    requires Conserved(s) && Flows(s, t, fate, x, b, z)
    ensures Conserved(t)
  {
    hide Rest;
    assert multiset(x + b + z) == multiset(x + z) + multiset(b);
  }

  lemma SafeStep(s: Stage, a: Action)
    requires Safe(s) && Enabled(s, a)
    ensures Safe(Apply(s, a))
  {
    BoundedStep(s, a);
    LossStep(s, a);
    ConservedStep(s, a);
  }

  lemma {:induction false} RunKeepsSafe(s: Stage, run: seq<Action>)
    requires Safe(s) && ValidRun(s, run)
    ensures Safe(Final(s, run))
    decreases |run|
  {
    if run != [] {
      SafeStep(s, run[0]);
      RunKeepsSafe(Apply(s, run[0]), run[1..]);
    }
  }

  /**
   * In every interleaving, including those in which a wait times out and two process loops run
   * side by side: no accepted frame is handed over twice, none disappears without a trace, the
   * purge takes interruptible frames only, frames are abandoned only once the context is done,
   * and pushing a kept frame back never finds the process channel full.
   */
  lemma EveryRunIsSafe(run: seq<Action>)
    requires ValidRun(INITIAL, run)
    ensures var t := Final(INITIAL, run);
      && multiset(t.handed) <= multiset(t.accepted)
      && multiset(t.accepted) == multiset(t.handed) + multiset(t.purged) + multiset(t.abandoned) + multiset(Rest(t))
      && (forall e :: e in t.purged ==> e.frame.IsInterruptible())
      && (t.abandoned != [] ==> t.cancelled)
      && (t.input.Refilling? && t.input.keep != [] ==> Enabled(t, RefillOne))
  {
    RunKeepsSafe(INITIAL, run);
  }

  // ---- The loops, when no wait times out ----

  /** At most the current loop is alive, and it is dead during a drain. */
  ghost predicate OneLoop(s: Stage) {
    && s.loops != []
    && (forall k :: 0 <= k < |s.loops| - 1 ==> s.loops[k].pc == Exited)
    && (s.input.Draining? ==> Current(s).pc == Exited)
  }

  lemma LoopsStep(s: Stage, a: Action)
    requires OneLoop(s) && Enabled(s, a) && a != WaitTimeout
    ensures OneLoop(Apply(s, a))
    ensures s.input.Draining? ==> !a.LoopTake?
  {
    if a.LoopCheck? || a.LoopTake? || a.LoopExit? || a.LoopReturn? || a.LoopCancels? {
      LoopActionStep(s, a);
    }
  }

  lemma LoopActionStep(s: Stage, a: Action)
    requires OneLoop(s) && Enabled(s, a)
    requires a.LoopCheck? || a.LoopTake? || a.LoopExit? || a.LoopReturn? || a.LoopCancels?
    ensures OneLoop(Apply(s, a)) && a.k == |s.loops| - 1 && !s.input.Draining?
  {
    var t := Apply(s, a);
    assert t.input == s.input && |t.loops| == |s.loops|;
    assert forall j :: 0 <= j < |s.loops| && j != a.k ==> t.loops[j] == s.loops[j];
  }

  lemma AbandonsWhenCancelled(s: Stage, a: Action)
    requires Enabled(s, a) && FateOf(a).Abandoned?
    ensures s.cancelled
  {
  }

  lemma FlowKeepsOrder(s: Stage, t: Stage, fate: Fate, x: seq<Envelope>, b: seq<Envelope>, z: seq<Envelope>)
    requires Flows(s, t, fate, x, b, z) && (fate.Handed? ==> x == [])
    requires Subseq(s.handed + Rest(s), s.accepted)
    ensures Subseq(t.handed + Rest(t), t.accepted)
  {
    hide Subseq, Rest;
    if fate.Handed? {
      assert t.handed + Rest(t) == s.handed + Rest(s);
    } else {
      assert s.handed + Rest(s) == (s.handed + x) + b + z;
      SubseqDrop(s.handed + x, b, z, s.accepted);
      assert t.handed + Rest(t) == (s.handed + x) + z;
    }
  }
}
