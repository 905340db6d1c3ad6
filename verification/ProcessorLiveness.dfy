/**
 * The chain always gets the EndFrame through: once system frames stop being injected only a
 * bounded number of steps is possible, and when none is possible any more the last stage has
 * been handed the EndFrame.
 */
module ProcessorLiveness {
  import opened Frames
  import opened Sequences
  import opened Processor
  import opened ProcessorChain

  // ---- Nothing blocks for good ----

  /** No step of the chain itself is possible; only an injection from outside could be. */
  ghost predicate Stuck(c: Chain) {
    forall m: Move :: !m.Inject? ==> !MoveEnabled(c, m)
  }

  /** Only system frames are in the system channel and in the hands of the input loop. */
  ghost predicate SystemOnly(s: Stage) {
    && (forall i :: 0 <= i < |s.sysCh| ==> s.sysCh[i].frame.IsSystem())
    && (match s.input
        case Interrupting(sys) => sys.frame.IsSystem()
        case Waiting(sys) => sys.frame.IsSystem()
        case Draining(sys, _) => sys.frame.IsSystem()
        case Refilling(sys, _) => sys.frame.IsSystem()
        case Dispatching(sys, _) => sys.frame.IsSystem()
        case _ => true)
  }

  lemma SystemOnlyStep(s: Stage, a: Action)
    requires SystemOnly(s) && Enabled(s, a)
    ensures SystemOnly(Apply(s, a))
  {
    var t := Apply(s, a);
    if a.AcceptSystem? {
      assert t.sysCh == s.sysCh + [a.env] && t.input == s.input;
    } else if a.TakeSystem? {
      assert t.sysCh == s.sysCh[1..];
    } else {
      assert t.sysCh == s.sysCh;
    }
  }

  ghost predicate AllSystemOnly(ss: seq<Stage>) {
    forall i :: 0 <= i < |ss| ==> SystemOnly(ss[i])
  }

  lemma MoveKeepsSystemOnly(c: Chain, m: Move)
    requires AllSystemOnly(c.stages) && MoveEnabled(c, m)
    ensures AllSystemOnly(MoveTo(c, m).stages)
  {
    hide Enabled, Apply;
    match m {
      case Feed => SystemOnlyStep(c.stages[0], AcceptData(c.todo[0]));
      case Local(i, a) => SystemOnlyStep(c.stages[i], a);
      case PassData(i, k) =>
        if i + 1 < |c.stages| {
          SystemOnlyStep(c.stages[i + 1], AcceptData(c.stages[i].loops[k].pc.env));
        }
      case LoseData(i, k) =>
      case PassSystem(i) =>
        if i + 1 < |c.stages| {
          SystemOnlyStep(c.stages[i + 1], AcceptSystem(c.stages[i].input.sys));
        }
      case LoseSystem(i) =>
      case Inject(i, sys) => SystemOnlyStep(c.stages[i], AcceptSystem(sys));
    }
  }

  lemma {:induction false} RunKeepsSystemOnly(c: Chain, run: seq<Move>)
    requires AllSystemOnly(c.stages) && ValidMoves(c, run)
    ensures AllSystemOnly(FinalChain(c, run).stages)
    decreases |run|
  {
    hide SystemOnly;
    if run != [] {
      MoveKeepsSystemOnly(c, run[0]);
      RunKeepsSystemOnly(MoveTo(c, run[0]), run[1..]);
    }
  }

  /** Neither a step of its own nor a push to the next stage is left to this stage. */
  ghost predicate StageStuck(s: Stage) {
    && (forall a :: Enabled(s, a) ==> !Own(s, a))
    && (forall k :: !Unpushed(s, k))
    && !UnpushedSystem(s)
  }

  /** Nothing is on its way through the stage, and it takes whatever it is offered. */
  ghost predicate Quiet(s: Stage) {
    && s.loops != []
    && Rest(s) == []
    && Unsent(s) == []
    && (s.sysCh == [] || s.cancelled)
  }

  lemma CannotDo(s: Stage, a: Action)
    requires StageStuck(s) && Own(s, a)
    ensures !Enabled(s, a)
  {
  }

  lemma NothingToPush(s: Stage, k: nat)
    requires StageStuck(s)
    ensures !Unpushed(s, k) && !UnpushedSystem(s)
  {
  }

  /** A live current loop that can do nothing is waiting on an empty process channel. */
  lemma StuckLoopIsIdle(s: Stage, end: Envelope)
    requires Control(s, end) && StageStuck(s)
    ensures Current(s).pc == Exited ||
            (s.procCh == [] && !s.LoopDone(|s.loops| - 1) && Current(s).pc.Selecting?)
  {
    hide StageStuck;
    var k := |s.loops| - 1;
    NothingToPush(s, k);
    CannotDo(s, LoopCheck(k));
    CannotDo(s, LoopTake(k));
    CannotDo(s, LoopExit(k));
    CannotDo(s, LoopCancels(k));
    if s.loops[k].pc.Handling? {
      CannotDo(s, LoopReturn(k));
    }
  }

  lemma StuckInput(s: Stage, end: Envelope)
    requires Control(s, end) && StageStuck(s)
    ensures s.input.Stopped? || (s.input.Fair? && !s.cancelled && s.sysCh == [] && s.dataCh == [])
  {
    hide StageStuck;
    StuckLoopIsIdle(s, end);
    NothingToPush(s, 0);
    CannotDo(s, NothingUrgent);
    CannotDo(s, TakeSystem);
    CannotDo(s, TakeData);
    CannotDo(s, StopInput);
    CannotDo(s, ForwardData);
    CannotDo(s, CancelLoop);
    CannotDo(s, LoopsGone);
    CannotDo(s, DrainOne);
    CannotDo(s, RestartLoop);
    CannotDo(s, RefillOne);
    CannotDo(s, RefillDone);
    if s.input.Dispatching? {
      CannotDo(s, Dispatched);
    }
  }

  lemma StuckIsQuiet(s: Stage, frames: seq<Envelope>)
    requires EndsOnce(frames) && StageInv(s, frames) && StageStuck(s)
    ensures Quiet(s)
  {
    hide Kept, Subseq;
    StuckInput(s, End(frames));
    StuckLoopIsIdle(s, End(frames));
    if s.input.Stopped? {
      EndClosesStage(s, frames);
    }
  }

  /** With the stages after `i` quiet, a stuck chain leaves stage `i` nothing to do either. */
  lemma StuckStage(c: Chain, i: nat, frames: seq<Envelope>)
    requires EndsOnce(frames) && Inv(c, frames) && AllSystemOnly(c.stages) && Stuck(c) && i < |c.stages|
    requires i + 1 < |c.stages| ==> Quiet(c.stages[i + 1])
    ensures StageStuck(c.stages[i])
  {
    hide StageInv, Stuck, SystemOnly, Enabled, Own;
    var s := c.stages[i];
    StuckOwn(c, i);
    forall k: nat
      ensures !Unpushed(s, k)
    {
      if Unpushed(s, k) {
        StuckData(c, i, k, frames);
      }
    }
    StuckSystem(c, i);
  }

  lemma CannotMove(c: Chain, m: Move)
    requires Stuck(c) && !m.Inject?
    ensures !MoveEnabled(c, m)
  {
  }

  lemma UnpushedIsData(s: Stage, k: nat, frames: seq<Envelope>)
    requires EndsOnce(frames) && StageInv(s, frames) && Unpushed(s, k)
    ensures !s.loops[k].pc.env.frame.IsSystem()
  {
    hide Kept, Subseq;
    HandedIsFed(s, frames, |s.handed| - 1);
  }

  lemma StuckData(c: Chain, i: nat, k: nat, frames: seq<Envelope>)
    requires EndsOnce(frames) && Stuck(c) && i < |c.stages| && StageInv(c.stages[i], frames)
    requires i + 1 < |c.stages| ==> Quiet(c.stages[i + 1])
    ensures !Unpushed(c.stages[i], k)
  {
    hide StageInv, Stuck;
    if Unpushed(c.stages[i], k) {
      UnpushedIsData(c.stages[i], k, frames);
      CannotMove(c, PassData(i, k));
    }
  }

  lemma StuckOwn(c: Chain, i: nat)
    requires Stuck(c) && i < |c.stages|
    ensures forall a :: Enabled(c.stages[i], a) ==> !Own(c.stages[i], a)
  {
    hide Enabled, Own;
    forall a | Enabled(c.stages[i], a)
      ensures !Own(c.stages[i], a)
    {
      assert !MoveEnabled(c, Local(i, a));
    }
  }

  lemma StuckSystem(c: Chain, i: nat)
    requires Stuck(c) && i < |c.stages| && SystemOnly(c.stages[i])
    requires i + 1 < |c.stages| ==> Quiet(c.stages[i + 1])
    ensures !UnpushedSystem(c.stages[i])
  {
    hide Stuck;
    CannotMove(c, PassSystem(i));
    CannotMove(c, LoseSystem(i));
  }

  lemma {:induction false} StuckFrom(c: Chain, i: nat, frames: seq<Envelope>)
    requires EndsOnce(frames) && Inv(c, frames) && AllSystemOnly(c.stages) && Stuck(c) && i < |c.stages|
    ensures forall j :: i <= j < |c.stages| ==> Quiet(c.stages[j])
    decreases |c.stages| - i
  {
    hide Quiet, StageInv, StageStuck, Stuck, SystemOnly;
    if i + 1 < |c.stages| {
      StuckFrom(c, i + 1, frames);
    }
    StuckStage(c, i, frames);
    StuckIsQuiet(c.stages[i], frames);
  }

  lemma {:induction false} QuietMeansThrough(c: Chain, i: nat, frames: seq<Envelope>)
    requires EndsOnce(frames) && Inv(c, frames) && c.todo == [] && i < |c.stages|
    requires forall j :: 0 <= j < |c.stages| ==> Quiet(c.stages[j])
    ensures Kept(c.stages[i].handed) == Kept(frames)
    decreases i
  {
    hide Kept, Subseq, Control;
    var s := c.stages[i];
    assert StageInv(s, frames) && Quiet(s);
    assert s.handed + Rest(s) == s.handed;
    if i == 0 {
      assert s.accepted == frames;
    } else {
      QuietMeansThrough(c, i - 1, frames);
      assert Linked(c.stages[i - 1], s) && Quiet(c.stages[i - 1]);
      assert c.stages[i - 1].handed == s.accepted;
    }
  }

  lemma NextIsData(c: Chain, frames: seq<Envelope>)
    requires EndsOnce(frames) && Inv(c, frames) && c.todo != []
    ensures !c.todo[0].frame.IsSystem()
  {
    hide StageInv, Linked;
    assert frames[|c.stages[0].accepted|] == c.todo[0];
  }

  /** A chain that can move no further has delivered the EndFrame and every frame that must survive. */
  lemma {:induction false} StuckMeansDelivered(c: Chain, frames: seq<Envelope>)
    requires EndsOnce(frames) && Inv(c, frames) && AllSystemOnly(c.stages) && Stuck(c)
    ensures var last := c.stages[|c.stages| - 1];
      End(frames) in last.handed && Kept(last.handed) == Kept(frames)
  {
    hide Subseq, StageInv, Linked;
    StuckFrom(c, 0, frames);
    assert !MoveEnabled(c, Feed) && Quiet(c.stages[0]);
    if c.todo != [] {
      NextIsData(c, frames);
    }
    QuietMeansThrough(c, |c.stages| - 1, frames);
    KeptMember(frames, End(frames));
    KeptMember(c.stages[|c.stages| - 1].handed, End(frames));
  }

  // ---- Only finitely many steps without an injection ----

  const DATA_STEP := 100
  const SYSTEM_STEP := 1000

  /** Steps left to the current loop; `d` is the worth of a data frame not yet pushed on. */
  function LoopRank(s: Stage, d: nat): nat
    requires s.loops != []
  {
    match Current(s).pc
    case Top => 2
    case Selecting => 1
    case Handling(_, sent) => if sent then 4 else d + 5
    case Ending => 1
    case Exited => 0
  }

  /** Steps left to the input loop; `v` is the worth of a system frame after this stage. */
  function InputRank(s: Stage, d: nat, v: nat): nat {
    match s.input
    case Priority => 2
    case Fair => 1
    case Holding(_) => d + 30
    case Interrupting(_) => v + 900
    case Waiting(_) => v + 800
    case Draining(_, keep) => v + 400 + 3 * |s.procCh| + 2 * |keep|
    case Refilling(_, keep) => v + 300 + |keep|
    case Dispatching(_, sent) => if sent then 5 else v + 10
    case Stopped => 0
  }

  function KeptBack(s: Stage): nat {
    match s.input
    case Draining(_, keep) => |keep|
    case Refilling(_, keep) => |keep|
    case _ => 0
  }

  /** What is still to be done with the frames of a stage that has `h - 1` stages after it. */
  function StageRank(s: Stage, h: nat): nat
    requires s.loops != [] && h > 0
  {
    var d := h * DATA_STEP;
    var v := h * SYSTEM_STEP - SYSTEM_STEP;
    LoopRank(s, d) + InputRank(s, d, v)
      + Times(d + 40, |s.dataCh|) + Times(d + 20, |s.procCh| + KeptBack(s))
      + Times(v + SYSTEM_STEP, |s.sysCh|)
  }

  function Times(x: nat, n: nat): nat {
    if n == 0 then 0 else x + Times(x, n - 1)
  }

  lemma {:induction false} TimesMonotone(x: nat, m: nat, n: nat)
    requires m <= n
    ensures Times(x, m) <= Times(x, n)
    decreases n
  {
    if m < n {
      TimesMonotone(x, m, n - 1);
    }
  }

  lemma InputStepRank(s: Stage, a: Action, h: nat)
    requires OneLoop(s) && Bounded(s) && Enabled(s, a) && Own(s, a) && h > 0
    requires !(a.LoopCheck? || a.LoopTake? || a.LoopExit? || a.LoopReturn? || a.LoopCancels?)
    ensures Apply(s, a).loops != [] && StageRank(Apply(s, a), h) < StageRank(s, h)
  {
    if s.input.Draining? || s.input.Refilling? {
      RefillStepRank(s, a, h);
    } else {
      PlainStepRank(s, a, h);
    }
  }

  lemma DrainRank(s: Stage, h: nat)
    requires OneLoop(s) && Enabled(s, DrainOne) && h > 0
    ensures Apply(s, DrainOne).loops != [] && StageRank(Apply(s, DrainOne), h) < StageRank(s, h)
  {
    var t, n := Apply(s, DrainOne), |s.procCh| + KeptBack(s);
    assert |t.procCh| + KeptBack(t) == n || |t.procCh| + KeptBack(t) == n - 1;
  }

  lemma RestartRank(s: Stage, h: nat)
    requires OneLoop(s) && Enabled(s, RestartLoop) && h > 0
    ensures Apply(s, RestartLoop).loops != [] && StageRank(Apply(s, RestartLoop), h) < StageRank(s, h)
  {
    hide Times;
  }

  lemma RefillRank(s: Stage, h: nat)
    requires OneLoop(s) && Enabled(s, RefillOne) && h > 0
    ensures Apply(s, RefillOne).loops != [] && StageRank(Apply(s, RefillOne), h) < StageRank(s, h)
  {
    hide Times;
    var t := Apply(s, RefillOne);
    assert |t.procCh| + KeptBack(t) == |s.procCh| + KeptBack(s);
  }

  lemma RefillEndsRank(s: Stage, a: Action, h: nat)
    requires OneLoop(s) && Enabled(s, a) && (a.RefillDone? || a.RefillGivesUp?) && h > 0
    ensures Apply(s, a).loops != [] && StageRank(Apply(s, a), h) < StageRank(s, h)
  {
    hide Times;
    TimesMonotone(h * DATA_STEP + 20, |s.procCh|, |s.procCh| + KeptBack(s));
  }

  lemma RefillStepRank(s: Stage, a: Action, h: nat)
    requires OneLoop(s) && (s.input.Draining? || s.input.Refilling?) && Enabled(s, a) && Own(s, a) && h > 0
    requires !(a.LoopCheck? || a.LoopTake? || a.LoopExit? || a.LoopReturn? || a.LoopCancels?)
    ensures Apply(s, a).loops != [] && StageRank(Apply(s, a), h) < StageRank(s, h)
  {
    hide Apply, StageRank;
    match a
    case DrainOne => DrainRank(s, h);
    case RestartLoop => RestartRank(s, h);
    case RefillOne => RefillRank(s, h);
    case RefillDone => RefillEndsRank(s, a, h);
    case RefillGivesUp => RefillEndsRank(s, a, h);
  }

  lemma PlainStepRank(s: Stage, a: Action, h: nat)
    requires OneLoop(s) && Bounded(s) && Enabled(s, a) && Own(s, a) && h > 0
    requires !s.input.Draining? && !s.input.Refilling?
    requires !(a.LoopCheck? || a.LoopTake? || a.LoopExit? || a.LoopReturn? || a.LoopCancels?)
    ensures Apply(s, a).loops != [] && StageRank(Apply(s, a), h) < StageRank(s, h)
  {
    var t := Apply(s, a);
    assert t.loops != [] && Current(t).pc == Current(s).pc;
    assert KeptBack(s) == 0 && KeptBack(t) == 0;
  }

  lemma LoopStepRank(s: Stage, a: Action, h: nat)
    requires OneLoop(s) && Enabled(s, a) && Own(s, a) && h > 0
    requires a.LoopCheck? || a.LoopTake? || a.LoopExit? || a.LoopReturn? || a.LoopCancels?
    ensures Apply(s, a).loops != [] && StageRank(Apply(s, a), h) < StageRank(s, h)
  {
    LoopActionStep(s, a);
    var t := Apply(s, a);
    assert t.input == s.input && t.dataCh == s.dataCh && t.sysCh == s.sysCh;
  }

  lemma AcceptRank(s: Stage, env: Envelope, h: nat)
    requires s.loops != [] && h > 0
    ensures Enabled(s, AcceptData(env)) ==>
      StageRank(Apply(s, AcceptData(env)), h) == StageRank(s, h) + h * DATA_STEP + 40
    ensures Enabled(s, AcceptSystem(env)) ==>
      StageRank(Apply(s, AcceptSystem(env)), h) == StageRank(s, h) + h * SYSTEM_STEP
  {
  }

  lemma PushRank(s: Stage, k: nat, h: nat)
    requires OneLoop(s) && Unpushed(s, k) && k == |s.loops| - 1 && h > 0
    ensures StageRank(Pushed(s, k), h) == StageRank(s, h) - h * DATA_STEP - 1
  {
  }

  lemma PushSystemRank(s: Stage, h: nat)
    requires s.loops != [] && UnpushedSystem(s) && h > 0
    ensures StageRank(PushedSystem(s), h) == StageRank(s, h) - (h * SYSTEM_STEP - SYSTEM_STEP) - 5
  {
  }

  predicate HasLoops(ss: seq<Stage>) {
    forall i :: 0 <= i < |ss| ==> ss[i].loops != []
  }

  /** The sum over the stages; the last one has no stage after it. */
  function RankFrom(ss: seq<Stage>): nat
    requires HasLoops(ss)
  {
    if ss == [] then 0 else StageRank(ss[0], |ss|) + RankFrom(ss[1..])
  }

  function Rank(c: Chain): nat
    requires HasLoops(c.stages)
  {
    RankFrom(c.stages) + Times(|c.stages| * DATA_STEP + 41, |c.todo|)
  }

  /** Exchanging one stage changes the sum by that stage's share. */
  lemma {:induction false} RankExchange(ss: seq<Stage>, i: nat, t: Stage)
    requires i < |ss| && t.loops != []
    requires HasLoops(ss)
    ensures RankFrom(ss[i := t]) - StageRank(t, |ss| - i) == RankFrom(ss) - StageRank(ss[i], |ss| - i)
    decreases |ss|
  {
    hide StageRank;
    if i == 0 {
      assert ss[i := t][1..] == ss[1..];
    } else {
      assert ss[i := t][1..] == ss[1..][i - 1 := t];
      RankExchange(ss[1..], i - 1, t);
    }
  }

  lemma InvLoops(c: Chain, frames: seq<Envelope>)
    requires EndsOnce(frames) && Inv(c, frames)
    ensures HasLoops(c.stages)
    ensures forall i :: 0 <= i < |c.stages| ==> OneLoop(c.stages[i]) && Bounded(c.stages[i])
  {
    hide Kept, Subseq;
    forall i | 0 <= i < |c.stages|
      ensures OneLoop(c.stages[i]) && Bounded(c.stages[i])
    {
      assert StageInv(c.stages[i], frames);
    }
  }

  lemma OwnMoveRank(c: Chain, i: nat, a: Action)
    requires HasLoops(c.stages)
    requires MoveEnabled(c, Local(i, a)) && OneLoop(c.stages[i]) && Bounded(c.stages[i])
    ensures Apply(c.stages[i], a).loops != []
    ensures Rank(MoveTo(c, Local(i, a))) < Rank(c)
  {
    hide StageRank;
    var s, h := c.stages[i], |c.stages| - i;
    if a.LoopCheck? || a.LoopTake? || a.LoopExit? || a.LoopReturn? || a.LoopCancels? {
      LoopStepRank(s, a, h);
    } else {
      InputStepRank(s, a, h);
    }
    RankExchange(c.stages, i, Apply(s, a));
  }

  lemma PassDataRank(c: Chain, i: nat, k: nat)
    requires HasLoops(c.stages)
    requires MoveEnabled(c, PassData(i, k)) && OneLoop(c.stages[i])
    ensures HasLoops(MoveTo(c, PassData(i, k)).stages)
    ensures Rank(MoveTo(c, PassData(i, k))) < Rank(c)
  {
    hide StageRank;
    var s, h := c.stages[i], |c.stages| - i;
    PushRank(s, k, h);
    RankExchange(c.stages, i, Pushed(s, k));
    if i + 1 < |c.stages| {
      var next, env := c.stages[i + 1], s.loops[k].pc.env;
      AcceptRank(next, env, h - 1);
      RankExchange(c.stages[i := Pushed(s, k)], i + 1, Apply(next, AcceptData(env)));
    }
  }

  lemma PassSystemRank(c: Chain, i: nat)
    requires HasLoops(c.stages)
    requires MoveEnabled(c, PassSystem(i))
    ensures HasLoops(MoveTo(c, PassSystem(i)).stages)
    ensures Rank(MoveTo(c, PassSystem(i))) < Rank(c)
  {
    hide StageRank;
    var s, h := c.stages[i], |c.stages| - i;
    PushSystemRank(s, h);
    RankExchange(c.stages, i, PushedSystem(s));
    if i + 1 < |c.stages| {
      var next, sys := c.stages[i + 1], s.input.sys;
      AcceptRank(next, sys, h - 1);
      RankExchange(c.stages[i := PushedSystem(s)], i + 1, Apply(next, AcceptSystem(sys)));
    }
  }

  lemma FeedRank(c: Chain)
    requires HasLoops(c.stages)
    requires MoveEnabled(c, Feed)
    ensures Rank(MoveTo(c, Feed)) < Rank(c)
  {
    hide StageRank;
    var s, h := c.stages[0], |c.stages|;
    AcceptRank(s, c.todo[0], h);
    RankExchange(c.stages, 0, Apply(s, AcceptData(c.todo[0])));
  }

  /** Every step the chain takes by itself brings it closer to standing still. */
  lemma MoveLowersRank(c: Chain, m: Move, frames: seq<Envelope>)
    requires EndsOnce(frames) && Inv(c, frames) && MoveEnabled(c, m) && !m.Inject?
    requires HasLoops(c.stages)
    ensures HasLoops(MoveTo(c, m).stages)
    ensures Rank(MoveTo(c, m)) < Rank(c)
  {
    hide StageRank, StageInv, Linked, Apply, Enabled;
    InvLoops(c, frames);
    MoveStep(c, m, frames);
    InvLoops(MoveTo(c, m), frames);
    match m {
      case Feed => FeedRank(c);
      case Local(i, a) => OwnMoveRank(c, i, a);
      case PassData(i, k) => PassDataRank(c, i, k);
      case LoseData(i, k) => NothingIsLost(c, i, k, frames);
      case PassSystem(i) => PassSystemRank(c, i);
      case LoseSystem(i) =>
        PushSystemRank(c.stages[i], |c.stages| - i);
        RankExchange(c.stages, i, PushedSystem(c.stages[i]));
    }
  }

  lemma {:induction false} QuietRunsAreBounded(c: Chain, run: seq<Move>, frames: seq<Envelope>)
    requires EndsOnce(frames) && Inv(c, frames) && ValidMoves(c, run)
    requires forall i :: 0 <= i < |run| ==> !run[i].Inject?
    requires HasLoops(c.stages)
    ensures |run| <= Rank(c)
    decreases |run|
  {
    hide Rank, Inv, MoveEnabled, MoveTo, HasLoops;
    if run != [] {
      MoveStep(c, run[0], frames);
      MoveLowersRank(c, run[0], frames);
      QuietRunsAreBounded(MoveTo(c, run[0]), run[1..], frames);
    }
  }

  /**
   * From any reachable state, whatever was injected on the way there: the chain can take only a
   * bounded number of further steps by itself, and a run of such steps that cannot be continued
   * has brought the EndFrame, and every other frame that must survive, to the last stage.
   */
  lemma EndFrameGetsThrough(n: nat, frames: seq<Envelope>, before: seq<Move>, after: seq<Move>)
    requires n > 0 && EndsOnce(frames) && ValidMoves(Started(n, frames), before)
    requires ValidMoves(FinalChain(Started(n, frames), before), after)
    requires forall i :: 0 <= i < |after| ==> !after[i].Inject?
    ensures var c := FinalChain(Started(n, frames), before);
      && HasLoops(c.stages)
      && |after| <= Rank(c)
      && (Stuck(FinalChain(c, after)) ==>
            var d := FinalChain(c, after);
            && d.stages != []
            && End(frames) in d.stages[|d.stages| - 1].handed
            && Kept(d.stages[|d.stages| - 1].handed) == Kept(frames))
  {
    hide Rank, MoveEnabled, MoveTo, StageInv, Linked, SystemOnly, Kept, Stuck;
    var start := Started(n, frames);
    StartedInv(n, frames);
    StartedSystemOnly(n, frames);
    RunKeepsInv(start, before, frames);
    RunKeepsSystemOnly(start, before);
    var c := FinalChain(start, before);
    InvLoops(c, frames);
    QuietRunsAreBounded(c, after, frames);
    RunKeepsInv(c, after, frames);
    RunKeepsSystemOnly(c, after);
    if Stuck(FinalChain(c, after)) {
      StuckMeansDelivered(FinalChain(c, after), frames);
    }
  }

  lemma StartedSystemOnly(n: nat, frames: seq<Envelope>)
    ensures AllSystemOnly(Started(n, frames).stages)
  {
  }
}
