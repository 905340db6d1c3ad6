/**
 * Ending a call as a step relation: any number of threads ask for the end, the end frame travels
 * to the sink at its own pace, possibly reaching it more than once, and a cleanup runs apart.
 */
module CallEnd {

  const UNSPECIFIED := "unspecified"

  function Normalize(reason: string): string {
    if reason == "" then UNSPECIFIED else reason
  }

  /** Where a thread is in End. */
  datatype PC =
    | Idle
    | FirstCheck(reason: string)
    | Claiming(reason: string)
    | SecondCheck(reason: string)
    | SettingReason(reason: string)
    | Queueing(reason: string)

  /** Where the cleanup is. */
  datatype Cleanup =
    | NotBegun
    | MarkRequested(reason: string)
    | MarkStarted(reason: string)
    | RecordReason(reason: string)
    | Stopping
    | Reporting
    | Cancelling
    | Over

  datatype State = State(
    pcs: map<int, PC>,
    endRequested: bool,
    cleanupStarted: bool,
    cancelled: bool,             // the context of the whole call
    cleanupOnce: bool,           // the once-guard of CompleteEnd is used up
    cleanup: Cleanup,
    endReason: string,           // "" until set
    queued: seq<string>,         // reasons of the end frames queued at the source
    cleanups: nat,
    reported: seq<string>)       // reasons given to OnCallEnded

  const INITIAL := State(map[], false, false, false, false, NotBegun, "", [], 0, [])

  function At(pcs: map<int, PC>, t: int): PC {
    if t in pcs then pcs[t] else Idle
  }

  datatype Action =
    | CallEnd(t: int, reason: string)
    | StepEnd(t: int)
    | SinkGets(reason: string)      // an end frame with this reason reaches the sink
    | StepCleanup
    | CancelContext                 // from outside, at any time

  predicate Enabled(s: State, a: Action) {
    match a
    case CallEnd(t, _) => At(s.pcs, t).Idle?
    case StepEnd(t) => !At(s.pcs, t).Idle?
    case SinkGets(_) => true
    case StepCleanup => !s.cleanup.NotBegun? && !s.cleanup.Over?
    case CancelContext => true
  }

  predicate TooLate(s: State) {
    s.cleanupStarted || s.cancelled
  }

  function SetEndReason(s: State, reason: string): State {
    if s.endReason == "" then s.(endReason := Normalize(reason)) else s
  }

  function Target(s: State, pc: PC): PC {
    match pc
    case Idle => Idle
    case FirstCheck(r) => if TooLate(s) then Idle else Claiming(r)
    case Claiming(r) => if s.endRequested then Idle else SecondCheck(r)
    case SecondCheck(r) => if TooLate(s) then Idle else SettingReason(r)
    case SettingReason(r) => Queueing(r)
    case Queueing(_) => Idle
  }

  function Effect(s: State, pc: PC): (r: State)
    ensures r.pcs == s.pcs
  {
    match pc
    case Claiming(_) => s.(endRequested := true)
    case SettingReason(r) => SetEndReason(s, r)
    case Queueing(r) => s.(queued := s.queued + [r])
    case _ => s
  }

  function StepOfCleanup(s: State): (r: State)
    ensures r.pcs == s.pcs
  {
    match s.cleanup
    case MarkRequested(r) => s.(endRequested := true, cleanup := MarkStarted(r))
    case MarkStarted(r) => s.(cleanupStarted := true, cleanup := RecordReason(r))
    case RecordReason(r) => SetEndReason(s, r).(cleanup := Stopping)
    case Stopping => s.(cleanup := Reporting)
    case Reporting => s.(reported := s.reported + [Normalize(s.endReason)], cleanup := Cancelling)
    case Cancelling => s.(cancelled := true, cleanup := Over)
    case _ => s
  }

  function CompleteEnd(s: State, reason: string): State {
    if s.cleanupOnce then s
    else s.(cleanupOnce := true, cleanups := s.cleanups + 1, cleanup := MarkRequested(Normalize(reason)))
  }

  /** Thread t moves on to `pc`; the others stay where they are. */
  function Goto(s: State, t: int, pc: PC): (r: State)
    ensures r == s.(pcs := r.pcs)
    ensures forall u :: At(r.pcs, u) == if u == t then pc else At(s.pcs, u)
  {
    s.(pcs := s.pcs[t := pc])
  }

  function Apply(s: State, a: Action): State
    requires Enabled(s, a)
  {
    match a
    case CallEnd(t, reason) => Goto(s, t, FirstCheck(Normalize(reason)))
    case StepEnd(t) => Goto(Effect(s, At(s.pcs, t)), t, Target(s, At(s.pcs, t)))
    case SinkGets(reason) => CompleteEnd(s, reason)
    case StepCleanup => StepOfCleanup(s)
    case CancelContext => s.(cancelled := true)
  }

  predicate ValidRun(s: State, run: seq<Action>)
    decreases |run|
  {
    run == [] || (Enabled(s, run[0]) && ValidRun(Apply(s, run[0]), run[1..]))
  }

  function Final(s: State, run: seq<Action>): State
    requires ValidRun(s, run)
    decreases |run|
  {
    if run == [] then s else Final(Apply(s, run[0]), run[1..])
  }

  /** The sink only ever gets end frames that were queued at the source before. */
  predicate OnlyQueued(s: State, run: seq<Action>)
    requires ValidRun(s, run)
    decreases |run|
  {
    run == [] || ((run[0].SinkGets? ==> run[0].reason in s.queued) && OnlyQueued(Apply(s, run[0]), run[1..]))
  }

  // ---- Invariant ----

  /** Between winning the claim and queueing the frame. */
  predicate Claimed(pc: PC) {
    pc.SecondCheck? || pc.SettingReason? || pc.Queueing?
  }

  /** What a thread's place says: a claim is exclusive, and nothing is queued while one is open. */
  predicate PlaceOk(s: State, pc: PC) {
    && (!pc.Idle? ==> pc.reason != "")
    && (Claimed(pc) ==> s.endRequested && s.queued == [])
    && (pc.SecondCheck? || pc.SettingReason? ==> s.endReason == "")
    && (pc.Queueing? ==> s.endReason == pc.reason)
  }

  predicate CleanupOk(s: State) {
    && (s.cleanup.NotBegun? <==> !s.cleanupOnce)
    && s.cleanups == (if s.cleanupOnce then 1 else 0)
    && (!s.cleanup.NotBegun? ==> s.queued != [])
    && (s.cleanup.MarkRequested? || s.cleanup.MarkStarted? || s.cleanup.RecordReason? ==> s.cleanup.reason in s.queued)
    && s.reported == (if s.cleanup.Cancelling? || s.cleanup.Over? then [s.endReason] else [])
  }

  predicate QueueOk(s: State) {
    && |s.queued| <= 1
    && (s.endReason != "" ==> s.endRequested)
    && (s.queued != [] ==> s.endRequested && s.endReason == s.queued[0] && s.queued[0] != "")
  }

  ghost predicate Inv(s: State) {
    && QueueOk(s) && CleanupOk(s)
    && (forall t :: PlaceOk(s, At(s.pcs, t)))
    && (forall t, u :: Claimed(At(s.pcs, t)) && Claimed(At(s.pcs, u)) ==> t == u)
  }

  lemma EndStep(s: State, pc: PC)
    requires QueueOk(s) && CleanupOk(s) && PlaceOk(s, pc)
    ensures var r := Effect(s, pc);
      && QueueOk(r) && CleanupOk(r) && PlaceOk(r, Target(s, pc))
      && (s.endRequested ==> r.endRequested)
      && ((r.endReason == s.endReason && r.queued == s.queued) || Claimed(pc))
      && (Claimed(Target(s, pc)) ==> Claimed(pc) || !s.endRequested)
  {
  }

  lemma CleanupStep(s: State)
    requires QueueOk(s) && CleanupOk(s) && Enabled(s, StepCleanup)
    ensures var r := StepOfCleanup(s);
      && QueueOk(r) && CleanupOk(r)
      && (s.endRequested ==> r.endRequested) && r.endReason == s.endReason && r.queued == s.queued
  {
  }

  lemma StepKeepsInv(s: State, a: Action)
    requires Inv(s) && Enabled(s, a) && (a.SinkGets? ==> a.reason in s.queued)
    ensures Inv(Apply(s, a))
  {
    hide At, Goto, Effect, Target, StepOfCleanup, QueueOk, CleanupOk;
    var r := Apply(s, a);
    match a
    case StepEnd(t) =>
      assert PlaceOk(s, At(s.pcs, t));
      EndStep(s, At(s.pcs, t));
      forall u ensures PlaceOk(r, At(r.pcs, u)) {
        assert PlaceOk(s, At(s.pcs, u));
      }
      CleanupOkFrame(Effect(s, At(s.pcs, t)), r);
    case StepCleanup =>
      CleanupStep(s);
      forall u ensures PlaceOk(r, At(r.pcs, u)) {
        assert PlaceOk(s, At(s.pcs, u));
      }
    case CallEnd(t, reason) =>
      NotClaimed(Normalize(reason));
      CleanupOkFrame(s, r);
      forall u ensures PlaceOk(r, At(r.pcs, u)) {
        assert PlaceOk(s, At(s.pcs, u));
      }
    case SinkGets(reason) =>
      SinkStep(s, reason);
      forall u ensures PlaceOk(r, At(r.pcs, u)) {
        assert PlaceOk(s, At(s.pcs, u));
      }
    case CancelContext =>
      CleanupOkFrame(s, r);
      forall u ensures PlaceOk(r, At(r.pcs, u)) {
        assert PlaceOk(s, At(s.pcs, u));
      }
  }

  lemma CleanupOkFrame(s: State, r: State)
    requires r == s.(pcs := r.pcs, cancelled := r.cancelled)
    ensures CleanupOk(r) == CleanupOk(s) && QueueOk(r) == QueueOk(s)
  {
  }

  lemma NotClaimed(reason: string)
    ensures !Claimed(FirstCheck(reason))
  {
  }

  lemma SinkStep(s: State, reason: string)
    requires QueueOk(s) && CleanupOk(s) && reason in s.queued
    ensures QueueOk(CompleteEnd(s, reason)) && CleanupOk(CompleteEnd(s, reason))
  {
  }

  lemma {:induction false} RunKeepsInv(s: State, run: seq<Action>)
    requires Inv(s) && ValidRun(s, run) && OnlyQueued(s, run)
    ensures Inv(Final(s, run))
    decreases |run|
  {
    hide Inv, Apply, Enabled;
    if run != [] {
      StepKeepsInv(s, run[0]);
      RunKeepsInv(Apply(s, run[0]), run[1..]);
    }
  }

  lemma InitialInv()
    ensures Inv(INITIAL)
  {
  }

  // ---- Main results ----

  /**
   * However many threads ask for the end and however often the end frame reaches the sink: at most
   * one end frame is queued, the cleanup begins at most once, the end is reported at most once, and
   * the reason reported is the one the queued frame carries.
   */
  lemma TheEndIsQueuedAndReportedOnce(run: seq<Action>)
    requires ValidRun(INITIAL, run) && OnlyQueued(INITIAL, run)
    ensures var s := Final(INITIAL, run);
      && |s.queued| <= 1 && s.cleanups <= 1 && |s.reported| <= 1
      && (s.reported != [] ==> s.queued != [] && s.reported[0] == s.queued[0] && s.reported[0] != "")
  {
    hide Final, ValidRun, Apply, OnlyQueued;
    InitialInv();
    RunKeepsInv(INITIAL, run);
  }

  /** Two threads never hold the claim at once: a second request is dropped, whatever its reason. */
  lemma ClaimIsExclusive(run: seq<Action>, t: int, u: int)
    requires ValidRun(INITIAL, run) && OnlyQueued(INITIAL, run)
    requires Claimed(At(Final(INITIAL, run).pcs, t)) && t != u
    ensures !Claimed(At(Final(INITIAL, run).pcs, u)) && Final(INITIAL, run).queued == []
  {
    hide Final, ValidRun, Apply, OnlyQueued, At, Claimed;
    InitialInv();
    RunKeepsInv(INITIAL, run);
    assert PlaceOk(Final(INITIAL, run), At(Final(INITIAL, run).pcs, t));
  }

  // ---- An end that is asked for comes ----

  /** Once the end has been requested, a frame is queued, or about to be, or it is too late for one. */
  ghost predicate Progress(s: State) {
    s.endRequested ==> s.queued != [] || TooLate(s) || exists t :: Claimed(At(s.pcs, t))
  }

  lemma StepKeepsProgress(s: State, a: Action)
    requires Inv(s) && Progress(s) && Enabled(s, a) && (a.SinkGets? ==> a.reason in s.queued)
    ensures Progress(Apply(s, a))
  {
    hide At, Goto, Effect, Target, StepOfCleanup, QueueOk, CleanupOk, TooLate, Claimed;
    var r := Apply(s, a);
    StaysTooLate(s, a);
    match a
    case StepEnd(t) => EndMakesProgress(s, t);
    case CallEnd(t, reason) =>
      if u :| Claimed(At(s.pcs, u)) {
        NotIdle(At(s.pcs, u));
        assert Claimed(At(r.pcs, u));
      }
    case StepCleanup => CleanupHasFrame(s);
    case SinkGets(_) =>
    case CancelContext =>
  }

  lemma NotIdle(pc: PC)
    ensures Claimed(pc) ==> !pc.Idle?
  {
  }

  lemma StaysTooLate(s: State, a: Action)
    requires Enabled(s, a)
    ensures TooLate(s) ==> TooLate(Apply(s, a))
    ensures s.queued <= Apply(s, a).queued
  {
  }

  lemma CleanupHasFrame(s: State)
    requires CleanupOk(s) && Enabled(s, StepCleanup)
    ensures s.queued != []
  {
  }

  lemma EndMakesProgress(s: State, t: int)
    requires Inv(s) && Progress(s) && Enabled(s, StepEnd(t))
    ensures Progress(Apply(s, StepEnd(t)))
  {
    hide At, Goto, QueueOk, CleanupOk;
    var r, pc := Apply(s, StepEnd(t)), At(s.pcs, t);
    assert At(r.pcs, t) == Target(s, pc);
    if u :| u != t && Claimed(At(s.pcs, u)) {
      assert Claimed(At(r.pcs, u));
    }
  }

  /** Somebody who has asked for the end is still at it, or has been heard. */
  ghost predicate Heeded(s: State) {
    s.endRequested || TooLate(s) || exists t :: !At(s.pcs, t).Idle?
  }

  lemma StepKeepsHeeded(s: State, a: Action)
    requires Inv(s) && Enabled(s, a) && (Heeded(s) || a.CallEnd?)
    ensures Heeded(Apply(s, a))
  {
    hide At, Goto, QueueOk, CleanupOk;
    var r := Apply(s, a);
    if a.CallEnd? {
      assert !At(r.pcs, a.t).Idle?;
    } else if !s.endRequested && !TooLate(s) {
      var t :| !At(s.pcs, t).Idle?;
      if a.StepEnd? && a.t == t {
        assert At(r.pcs, t) == Target(s, At(s.pcs, t)) && PlaceOk(s, At(s.pcs, t));
      } else {
        assert At(r.pcs, t) == At(s.pcs, t);
      }
    }
  }

  /** The reasons given in a run, "unspecified" for the empty one. */
  function Asked(run: seq<Action>): seq<string> {
    if run == [] then []
    else
      (if run[0].CallEnd? then [if run[0].reason == "" then "unspecified" else run[0].reason] else [])
      + Asked(run[1..])
  }

  ghost predicate ReasonsFrom(s: State, reasons: seq<string>) {
    && (forall t :: !At(s.pcs, t).Idle? ==> At(s.pcs, t).reason in reasons)
    && (forall r :: r in s.queued ==> r in reasons)
  }

  lemma StepKeepsReasons(s: State, a: Action, reasons: seq<string>)
    requires ReasonsFrom(s, reasons) && Enabled(s, a)
    ensures ReasonsFrom(Apply(s, a), reasons + Asked([a]))
  {
    hide At, Goto, StepOfCleanup;
    var r := Apply(s, a);
    assert [a][1..] == [] && Asked([]) == [];
    assert forall x :: x in reasons ==> x in reasons + Asked([a]);
    forall t | !At(r.pcs, t).Idle? ensures At(r.pcs, t).reason in reasons + Asked([a]) {
      assert !At(s.pcs, t).Idle? ==> At(s.pcs, t).reason in reasons;
    }
    if a.StepCleanup? {
      CleanupQueuesNothing(s);
    }
  }

  lemma CleanupQueuesNothing(s: State)
    ensures StepOfCleanup(s).queued == s.queued
  {
  }

  lemma {:induction false} RunMakesProgress(s: State, run: seq<Action>, reasons: seq<string>)
    requires Inv(s) && Progress(s) && ReasonsFrom(s, reasons) && ValidRun(s, run) && OnlyQueued(s, run)
    ensures Progress(Final(s, run)) && ReasonsFrom(Final(s, run), reasons + Asked(run))
    ensures Heeded(s) || Asked(run) != [] ==> Heeded(Final(s, run))
    decreases |run|
  {
    hide Inv, Progress, ReasonsFrom, Heeded, Apply, Enabled;
    if run == [] {
      assert reasons + [] == reasons;
    } else {
      var a, rest := run[0], run[1..];
      StepKeepsInv(s, a);
      StepKeepsProgress(s, a);
      StepKeepsReasons(s, a, reasons);
      if Heeded(s) || a.CallEnd? {
        StepKeepsHeeded(s, a);
      }
      RunMakesProgress(Apply(s, a), rest, reasons + Asked([a]));
      AskedFirst(run);
      assert reasons + Asked([a]) + Asked(rest) == reasons + (Asked([a]) + Asked(rest));
    }
  }

  lemma AskedFirst(run: seq<Action>)
    requires run != []
    ensures Asked(run) == Asked([run[0]]) + Asked(run[1..])
    ensures Asked([run[0]]) != [] ==> run[0].CallEnd?
  {
    assert [run[0]][1..] == [];
  }

  lemma NothingAsked()
    ensures Progress(INITIAL) && ReasonsFrom(INITIAL, [])
  {
  }

  /**
   * If anybody has asked for the end and everybody is back, then an end frame with one of the reasons
   * asked for has been queued, unless the cleanup had begun or the call was cancelled first.
   */
  lemma AskedEndIsQueued(run: seq<Action>)
    requires ValidRun(INITIAL, run) && OnlyQueued(INITIAL, run) && Asked(run) != []
    requires forall t :: At(Final(INITIAL, run).pcs, t).Idle?
    ensures var s := Final(INITIAL, run);
      || s.cleanupStarted || s.cancelled
      || (|s.queued| == 1 && s.queued[0] in Asked(run))
  {
    hide Final, ValidRun, Apply, OnlyQueued, At, Asked;
    InitialInv();
    NothingAsked();
    RunKeepsInv(INITIAL, run);
    RunMakesProgress(INITIAL, run, []);
    assert [] + Asked(run) == Asked(run);
  }

  ghost predicate Reported(s: State) {
    s.cleanup.Over? ==> s.cancelled
  }

  lemma {:induction false} SinkStartsCleanup(s: State, run: seq<Action>)
    requires ValidRun(s, run) && Reported(s)
    ensures Reported(Final(s, run))
    ensures s.cleanupOnce || (exists a :: a in run && a.SinkGets?) ==> Final(s, run).cleanupOnce
    decreases |run|
  {
    if run != [] {
      SinkStartsCleanup(Apply(s, run[0]), run[1..]);
      assert forall a :: a in run ==> a == run[0] || a in run[1..];
    }
  }

  /** When an end frame has reached the sink and its cleanup is over, the end has been reported with its reason. */
  lemma SunkEndIsReported(run: seq<Action>)
    requires ValidRun(INITIAL, run) && OnlyQueued(INITIAL, run)
    requires exists a :: a in run && a.SinkGets?
    requires !Enabled(Final(INITIAL, run), StepCleanup)
    ensures var s := Final(INITIAL, run);
      |s.queued| == 1 && s.reported == [s.queued[0]] && s.cleanups == 1 && s.cancelled
  {
    hide Final, ValidRun, Apply, OnlyQueued, At;
    InitialInv();
    RunKeepsInv(INITIAL, run);
    SinkStartsCleanup(INITIAL, run);
  }

  // ---- Why the sink must only get queued frames ----

  /** A thread has won the claim and is about to record its reason. */
  function Won(reason: string): State {
    INITIAL.(pcs := map[0 := SettingReason(reason)], endRequested := true)
  }

  lemma {:induction false} RunConcat(s: State, a: seq<Action>, b: seq<Action>)
    requires ValidRun(s, a) && ValidRun(Final(s, a), b)
    ensures ValidRun(s, a + b) && Final(s, a + b) == Final(Final(s, a), b)
    decreases |a|
  {
    hide Apply, Enabled;
    if a == [] {
      assert a + b == b;
    } else {
      assert (a + b)[1..] == a[1..] + b;
      RunConcat(Apply(s, a[0]), a[1..], b);
    }
  }

  lemma OneStep(s: State, a: Action)
    requires Enabled(s, a)
    ensures ValidRun(s, [a]) && Final(s, [a]) == Apply(s, a)
  {
    hide Apply;
    assert [a][1..] == [];
  }

  /** Runs can be extended by one more enabled action. */
  lemma Extend(s: State, run: seq<Action>, a: Action, r: State)
    requires ValidRun(s, run) && Enabled(Final(s, run), a) && r == Apply(Final(s, run), a)
    ensures ValidRun(s, run + [a]) && Final(s, run + [a]) == r
  {
    OneStep(Final(s, run), a);
    RunConcat(s, run, [a]);
  }

  lemma WinTheClaim(reason: string) returns (run: seq<Action>)
    requires reason != ""
    ensures ValidRun(INITIAL, run) && Final(INITIAL, run) == Won(reason)
  {
    hide ValidRun, Final;
    OneStep(INITIAL, CallEnd(0, reason));
    run := [CallEnd(0, reason)];
    var s1 := INITIAL.(pcs := map[0 := FirstCheck(reason)]);
    var s2 := INITIAL.(pcs := map[0 := Claiming(reason)]);
    var s3 := INITIAL.(pcs := map[0 := SecondCheck(reason)], endRequested := true);
    assert Final(INITIAL, run) == s1;
    Extend(INITIAL, run, StepEnd(0), s2);
    run := run + [StepEnd(0)];
    Extend(INITIAL, run, StepEnd(0), s3);
    run := run + [StepEnd(0)];
    Extend(INITIAL, run, StepEnd(0), Won(reason));
    run := run + [StepEnd(0)];
  }

  /** If an end frame could reach the sink without being queued, the reasons could differ. */
  lemma ForeignEndFrameSplitsReasons(ours: string, foreign: string) returns (run: seq<Action>)
    requires ours != "" && foreign != "" && ours != foreign
    ensures ValidRun(INITIAL, run)
    ensures Final(INITIAL, run).queued == [ours] && Final(INITIAL, run).reported == [foreign]
  {
    hide ValidRun, Final;
    run := WinTheClaim(ours);
    var s := CompleteEnd(Won(ours), foreign);
    Extend(INITIAL, run, SinkGets(foreign), s);
    run := run + [SinkGets(foreign)];
    for i := 0 to 5
      invariant ValidRun(INITIAL, run) && Final(INITIAL, run) == s
      invariant s.pcs == Won(ours).pcs && s.queued == []
      invariant i == 0 ==> s.cleanup == MarkRequested(foreign) && s.endReason == "" && s.reported == []
      invariant i == 1 ==> s.cleanup == MarkStarted(foreign) && s.endReason == "" && s.reported == []
      invariant i == 2 ==> s.cleanup == RecordReason(foreign) && s.endReason == "" && s.reported == []
      invariant i == 3 ==> s.cleanup == Stopping && s.endReason == foreign && s.reported == []
      invariant i == 4 ==> s.cleanup == Reporting && s.endReason == foreign && s.reported == []
      invariant i == 5 ==> s.reported == [foreign] && s.endReason == foreign
    {
      Extend(INITIAL, run, StepCleanup, StepOfCleanup(s));
      run, s := run + [StepCleanup], StepOfCleanup(s);
    }
    for i := 0 to 2
      invariant ValidRun(INITIAL, run) && Final(INITIAL, run) == s && s.endReason == foreign && s.reported == [foreign]
      invariant At(s.pcs, 0) == [SettingReason(ours), Queueing(ours), Idle][i]
      invariant s.queued == if i == 2 then [ours] else []
    {
      Extend(INITIAL, run, StepEnd(0), Apply(s, StepEnd(0)));
      run, s := run + [StepEnd(0)], Apply(s, StepEnd(0));
    }
  }
}
