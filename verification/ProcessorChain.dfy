/**
 * A chain of forwarding processors: what each stage's ProcessFrame receives, it pushes to the
 * next stage. System frames may be injected anywhere at any time; no wait times out and nothing
 * but an EndFrame stops a stage.
 */
module ProcessorChain {
  import opened Frames
  import opened Sequences
  import opened Processor

  datatype Chain = Chain(stages: seq<Stage>, todo: seq<Envelope>)

  datatype Move =
    | Feed                            // the source queues the next frame at the first stage
    | Local(i: nat, act: Action)
    | PassData(i: nat, k: nat)        // ProcessFrame of stage i pushes its data frame on
    | LoseData(i: nat, k: nat)        // the next stage is shutting down and drops it
    | PassSystem(i: nat)
    | LoseSystem(i: nat)
    | Inject(i: nat, sys: Envelope)   // a system frame from outside the chain

  /** Actions a stage takes by itself; a forwarder returns only after it has pushed its frame. */
  predicate Own(s: Stage, a: Action) {
    match a
    case AcceptData(_) => false
    case AcceptSystem(_) => false
    case WaitTimeout => false
    case MarkCancelling => false
    case CancelContext => false
    case LoopReturn(k) => k < |s.loops| && s.loops[k].pc.Handling? && s.loops[k].pc.sent
    case Dispatched => s.input.Dispatching? && s.input.sent
    case _ => true
  }

  predicate Unpushed(s: Stage, k: nat) {
    k < |s.loops| && s.loops[k].pc.Handling? && !s.loops[k].pc.sent
  }

  predicate UnpushedSystem(s: Stage) {
    s.input.Dispatching? && !s.input.sent
  }

  predicate MoveEnabled(c: Chain, m: Move) {
    var n := |c.stages|;
    match m
    case Feed => n > 0 && c.todo != [] && Enabled(c.stages[0], AcceptData(c.todo[0]))
    case Local(i, a) => i < n && Enabled(c.stages[i], a) && Own(c.stages[i], a)
    case PassData(i, k) =>
      && i < n && Unpushed(c.stages[i], k)
      && (i + 1 < n ==> Enabled(c.stages[i + 1], AcceptData(c.stages[i].loops[k].pc.env)))
    case LoseData(i, k) =>
      i + 1 < n && Unpushed(c.stages[i], k) && (c.stages[i + 1].cancelling || c.stages[i + 1].cancelled)
    case PassSystem(i) =>
      && i < n && UnpushedSystem(c.stages[i])
      && (i + 1 < n ==> Enabled(c.stages[i + 1], AcceptSystem(c.stages[i].input.sys)))
    case LoseSystem(i) =>
      i + 1 < n && UnpushedSystem(c.stages[i]) && (c.stages[i + 1].cancelling || c.stages[i + 1].cancelled)
    case Inject(i, sys) => i < n && Enabled(c.stages[i], AcceptSystem(sys))
  }

  function Pushed(s: Stage, k: nat): Stage
    requires Unpushed(s, k)
  {
    SetPc(s, k, Handling(s.loops[k].pc.env, true))
  }

  function PushedSystem(s: Stage): Stage
    requires UnpushedSystem(s)
  {
    s.(input := Dispatching(s.input.sys, true))
  }

  function MoveTo(c: Chain, m: Move): Chain
    requires MoveEnabled(c, m)
  {
    var ss := c.stages;
    match m
    case Feed => Chain(ss[0 := Apply(ss[0], AcceptData(c.todo[0]))], c.todo[1..])
    case Local(i, a) => c.(stages := ss[i := Apply(ss[i], a)])
    case PassData(i, k) =>
      var here := ss[i := Pushed(ss[i], k)];
      if i + 1 < |ss| then
        c.(stages := here[i + 1 := Apply(ss[i + 1], AcceptData(ss[i].loops[k].pc.env))])
      else
        c.(stages := here)
    case LoseData(i, k) => c.(stages := ss[i := Pushed(ss[i], k)])
    case PassSystem(i) =>
      var here := ss[i := PushedSystem(ss[i])];
      if i + 1 < |ss| then
        c.(stages := here[i + 1 := Apply(ss[i + 1], AcceptSystem(ss[i].input.sys))])
      else
        c.(stages := here)
    case LoseSystem(i) => c.(stages := ss[i := PushedSystem(ss[i])])
    case Inject(i, sys) => c.(stages := ss[i := Apply(ss[i], AcceptSystem(sys))])
  }

  predicate ValidMoves(c: Chain, run: seq<Move>)
    decreases |run|
  {
    run == [] || (MoveEnabled(c, run[0]) && ValidMoves(MoveTo(c, run[0]), run[1..]))
  }

  function FinalChain(c: Chain, run: seq<Move>): Chain
    requires ValidMoves(c, run)
    decreases |run|
  {
    if run == [] then c else FinalChain(MoveTo(c, run[0]), run[1..])
  }

  /** `n` started stages and a source about to feed `frames`. */
  function Started(n: nat, frames: seq<Envelope>): Chain {
    Chain(seq(n, _ => INITIAL), frames)
  }

  /** Data frames ending in their only EndFrame. */
  predicate EndsOnce(frames: seq<Envelope>) {
    && frames != []
    && frames[|frames| - 1].frame.EndFrame?
    && (forall i :: 0 <= i < |frames| - 1 ==> !frames[i].frame.EndFrame?)
    && (forall i :: 0 <= i < |frames| ==> !frames[i].frame.IsSystem())
  }

  function End(frames: seq<Envelope>): Envelope
    requires EndsOnce(frames)
  {
    frames[|frames| - 1]
  }

  // ---- One stage fed from `frames` ----

  /** The data frame the current loop has been handed and has not pushed on yet. */
  function Unsent(s: Stage): seq<Envelope>
    requires s.loops != []
  {
    if Current(s).pc.Handling? && !Current(s).pc.sent then [Current(s).pc.env] else []
  }

  /** Where the loops stand: who is alive, and that only the EndFrame shuts the stage down. */
  ghost predicate Control(s: Stage, end: Envelope) {
    && OneLoop(s)
    && Bounded(s)
    && (Current(s).pc.Handling? ==> s.handed != [] && s.handed[|s.handed| - 1] == Current(s).pc.env)
    && (Current(s).pc.Handling? || Current(s).pc.Selecting? ==> !s.cancelling && !s.cancelled)
    && (s.cancelling || s.cancelled ==> end in s.handed)
    && (s.cancelling && !s.cancelled ==> Current(s).pc.Ending?)
    && (Current(s).pc.Ending? ==> s.cancelling && !s.cancelled)
    && (s.input.Stopped? ==> s.cancelled)
    && (s.input.Waiting? ==> Current(s).cancelled)
    && (!s.cancelled && !s.input.Waiting? && !s.input.Draining? ==> !Current(s).cancelled && Current(s).pc != Exited)
  }

  ghost predicate Carries(s: Stage, frames: seq<Envelope>) {
    && Subseq(s.handed + Rest(s), s.accepted)
    && Subseq(s.accepted, frames)
    && Kept(s.handed + Rest(s)) == Kept(s.accepted)
  }

  ghost predicate StageInv(s: Stage, frames: seq<Envelope>)
    requires EndsOnce(frames)
  {
    Control(s, End(frames)) && Carries(s, frames)
  }

  /** Once the EndFrame has been handed over nothing is left to hand over. */
  lemma EndClosesStage(s: Stage, frames: seq<Envelope>)
    requires EndsOnce(frames) && Carries(s, frames) && End(frames) in s.handed
    ensures Rest(s) == []
    ensures s.handed[|s.handed| - 1] == End(frames)
  {
    var all := s.handed + Rest(s);
    SubseqTrans(all, s.accepted, frames);
    var i :| 0 <= i < |s.handed| && s.handed[i] == End(frames);
    assert all[i] == End(frames);
    SubseqLast(all, frames, i);
  }

  lemma HandedIsFed(s: Stage, frames: seq<Envelope>, i: nat)
    requires Carries(s, frames) && i < |s.handed|
    ensures s.handed[i] in frames
  {
    SubseqTrans(s.handed + Rest(s), s.accepted, frames);
    SubseqMember(s.handed + Rest(s), frames, i);
    assert (s.handed + Rest(s))[i] == s.handed[i];
  }

  predicate OfLoop(a: Action) {
    a.LoopCheck? || a.LoopTake? || a.LoopExit? || a.LoopReturn? || a.LoopCancels?
  }

  lemma ControlOfLoop(s: Stage, a: Action, end: Envelope)
    requires Control(s, end) && Enabled(s, a) && Own(s, a) && OfLoop(a)
    requires a.LoopTake? ==> !s.cancelling && !s.cancelled
    requires a.LoopReturn? && s.loops[a.k].pc.env.frame.EndFrame? ==> s.handed[|s.handed| - 1] == end
    ensures Control(Apply(s, a), end)
  {
    hide Rest, OneLoop, Bounded;
    LoopActionStep(s, a);
    BoundedStep(s, a);
    CurrentActs(s, a);
  }

  /** The loop that acts is the current one, and only its place changes. */
  lemma CurrentActs(s: Stage, a: Action)
    requires OneLoop(s) && Enabled(s, a) && OfLoop(a)
    ensures s.loops != [] && a.k == |s.loops| - 1 && Apply(s, a).loops != []
    ensures Apply(s, a).input == s.input && Current(Apply(s, a)).cancelled == Current(s).cancelled
    ensures s.handed <= Apply(s, a).handed
  {
    LoopActionStep(s, a);
  }

  lemma ControlOfInput(s: Stage, a: Action, end: Envelope)
    requires Control(s, end) && Enabled(s, a) && Own(s, a) && !OfLoop(a)
    ensures Control(Apply(s, a), end)
  {
    hide Rest, OneLoop, Bounded;
    LoopsStep(s, a);
    BoundedStep(s, a);
    InputActs(s, a);
  }

  /** The input loop leaves the process loops alone, but for cancelling one and starting another. */
  lemma InputActs(s: Stage, a: Action)
    requires OneLoop(s) && Enabled(s, a) && Own(s, a) && !OfLoop(a)
    ensures var t := Apply(s, a);
      && s.loops != [] && t.loops != []
      && t.handed == s.handed && t.cancelling == s.cancelling && t.cancelled == s.cancelled
      && Current(t) == (if a.CancelLoop? then Current(s).(cancelled := true)
                        else if a.RestartLoop? then Loop(false, Top) else Current(s))
    ensures s.input.Draining? ==> Current(s).pc == Exited
  {
  }

  lemma ControlStep(s: Stage, a: Action, frames: seq<Envelope>)
    requires EndsOnce(frames) && StageInv(s, frames) && Enabled(s, a) && Own(s, a)
    ensures Control(Apply(s, a), End(frames))
  {
    hide Kept, Subseq, Rest, Apply, OneLoop, Bounded;
    if OfLoop(a) {
      CurrentActs(s, a);
      if a.LoopReturn? && s.loops[a.k].pc.env.frame.EndFrame? {
        HandedIsFed(s, frames, |s.handed| - 1);
        OnlyEndEnds(frames, s.handed[|s.handed| - 1]);
      }
      if a.LoopTake? && (s.cancelling || s.cancelled) {
        EndClosesStage(s, frames);
        NothingToTake(s, a);
      }
      ControlOfLoop(s, a, End(frames));
    } else {
      ControlOfInput(s, a, End(frames));
    }
  }

  lemma OnlyEndEnds(frames: seq<Envelope>, e: Envelope)
    requires EndsOnce(frames) && e in frames && e.frame.EndFrame?
    ensures e == End(frames)
  {
  }

  lemma NothingToTake(s: Stage, a: Action)
    requires Enabled(s, a) && a.LoopTake?
    ensures Rest(s) != []
  {
  }

  lemma CarriesStep(s: Stage, a: Action, frames: seq<Envelope>)
    requires EndsOnce(frames) && StageInv(s, frames) && Enabled(s, a) && Own(s, a)
    ensures Carries(Apply(s, a), frames)
  {
    hide Kept, Subseq, Apply, Enabled;
    var x, b, z := Flow(s, a);
    LoopsStep(s, a);
    if FateOf(a).Abandoned? {
      AbandonsWhenCancelled(s, a);
      EndClosesStage(s, frames);
      assert b == [];
    }
    FlowKeepsOrder(s, Apply(s, a), FateOf(a), x, b, z);
    FlowKeepsKept(s, Apply(s, a), FateOf(a), x, b, z);
  }

  lemma FlowKeepsKept(s: Stage, t: Stage, fate: Fate, x: seq<Envelope>, b: seq<Envelope>, z: seq<Envelope>)
    requires Flows(s, t, fate, x, b, z) && (fate.Handed? ==> x == [])
    requires fate.Abandoned? ==> b == []
    requires fate.Purged? ==> forall e :: e in b ==> e.frame.IsInterruptible()
    requires Kept(s.handed + Rest(s)) == Kept(s.accepted)
    ensures Kept(t.handed + Rest(t)) == Kept(t.accepted)
  {
    hide Kept, Rest;
    if fate.Handed? {
      assert t.handed + Rest(t) == s.handed + Rest(s);
    } else {
      assert s.handed + Rest(s) == (s.handed + x) + b + z;
      assert t.handed + Rest(t) == (s.handed + x) + z;
      KeptIgnoresInterruptible(s.handed + x, b, z);
    }
  }

  lemma OwnStep(s: Stage, a: Action, frames: seq<Envelope>)
    requires EndsOnce(frames) && StageInv(s, frames) && Enabled(s, a) && Own(s, a)
    ensures StageInv(Apply(s, a), frames)
  {
    ControlStep(s, a, frames);
    CarriesStep(s, a, frames);
  }

  /** A stage's own step never takes back, repeats or silently drops what it was handed. */
  lemma OwnStepHandsOver(s: Stage, a: Action)
    requires OneLoop(s) && Enabled(s, a) && Own(s, a)
    ensures Apply(s, a).loops != [] && Apply(s, a).accepted == s.accepted
    ensures a.LoopTake? ==>
      Unsent(s) == [] && Unsent(Apply(s, a)) == [s.procCh[0]] && Apply(s, a).handed == s.handed + [s.procCh[0]]
    ensures !a.LoopTake? ==> Unsent(Apply(s, a)) == Unsent(s) && Apply(s, a).handed == s.handed
  {
    hide Rest, OneLoop;
    if OfLoop(a) {
      CurrentActs(s, a);
    } else {
      InputActs(s, a);
      InputAccepts(s, a);
    }
  }

  lemma InputAccepts(s: Stage, a: Action)
    requires Enabled(s, a) && Own(s, a)
    ensures Apply(s, a).accepted == s.accepted
  {
  }

  lemma AcceptStep(s: Stage, env: Envelope, frames: seq<Envelope>)
    requires EndsOnce(frames) && StageInv(s, frames) && Enabled(s, AcceptData(env))
    requires Subseq(s.accepted + [env], frames)
    ensures StageInv(Apply(s, AcceptData(env)), frames)
  {
    hide Kept, Subseq;
    var a := AcceptData(env);
    LoopsStep(s, a);
    BoundedStep(s, a);
    AcceptCarries(s, env, frames);
  }

  lemma AcceptCarries(s: Stage, env: Envelope, frames: seq<Envelope>)
    requires Carries(s, frames) && Enabled(s, AcceptData(env)) && Subseq(s.accepted + [env], frames)
    ensures Carries(Apply(s, AcceptData(env)), frames)
  {
    hide Kept, Subseq;
    FlowOfAccept(s, AcceptData(env));
    SubseqSnoc(s.handed + Rest(s), s.accepted, env);
    assert s.handed + (Rest(s) + [env]) == (s.handed + Rest(s)) + [env];
    KeptSnoc(s.handed + Rest(s), s.accepted, env);
  }

  lemma PushStep(s: Stage, k: nat, frames: seq<Envelope>)
    requires EndsOnce(frames) && StageInv(s, frames) && Unpushed(s, k)
    ensures StageInv(Pushed(s, k), frames) && k == |s.loops| - 1
    ensures Unsent(s) == [s.loops[k].pc.env] && Unsent(Pushed(s, k)) == []
  {
    hide Kept, Subseq;
    assert Rest(Pushed(s, k)) == Rest(s);
  }

  lemma SystemStep(s: Stage, t: Stage, frames: seq<Envelope>)
    requires EndsOnce(frames) && StageInv(s, frames)
    requires (UnpushedSystem(s) && t == PushedSystem(s)) ||
             (exists sys :: Enabled(s, AcceptSystem(sys)) && t == Apply(s, AcceptSystem(sys)))
    ensures StageInv(t, frames) && t.accepted == s.accepted && t.handed == s.handed && Unsent(t) == Unsent(s)
    ensures forall next :: Linked(s, next) ==> Linked(t, next)
  {
    hide Kept, Subseq;
    assert Rest(t) == Rest(s);
  }

  // ---- The whole chain ----

  /** What one stage has handed over, its successor has accepted or is about to be offered. */
  ghost predicate Linked(s: Stage, next: Stage) {
    s.loops != [] && s.handed == next.accepted + Unsent(s)
  }

  ghost predicate Inv(c: Chain, frames: seq<Envelope>)
    requires EndsOnce(frames)
  {
    && c.stages != []
    && AllInv(c.stages, frames)
    && AllLinked(c.stages)
    && c.stages[0].accepted + c.todo == frames
  }

  ghost predicate AllInv(ss: seq<Stage>, frames: seq<Envelope>)
    requires EndsOnce(frames)
  {
    forall i :: 0 <= i < |ss| ==> StageInv(ss[i], frames)
  }

  ghost predicate AllLinked(ss: seq<Stage>) {
    forall i :: 0 <= i < |ss| - 1 ==> Linked(ss[i], ss[i + 1])
  }

  lemma StartedInv(n: nat, frames: seq<Envelope>)
    requires EndsOnce(frames) && n > 0
    ensures Inv(Started(n, frames), frames)
  {
  }

  lemma FeedStep(c: Chain, frames: seq<Envelope>)
    requires EndsOnce(frames) && Inv(c, frames) && MoveEnabled(c, Feed)
    ensures Inv(MoveTo(c, Feed), frames)
  {
    hide Kept, Subseq;
    var s, env := c.stages[0], c.todo[0];
    assert s.accepted + [env] + c.todo[1..] == frames;
    SubseqRefl(frames);
    SubseqPrefix(s.accepted + [env], c.todo[1..], frames);
    AcceptStep(s, env, frames);
    assert (s.accepted + [env]) + c.todo[1..] == frames;
  }

  /** Exchanging one stage for a state that accepted the same frames keeps the chain's invariant. */
  lemma ReplaceStage(c: Chain, i: nat, t: Stage, frames: seq<Envelope>)
    requires EndsOnce(frames) && Inv(c, frames) && i < |c.stages|
    requires StageInv(t, frames) && t.accepted == c.stages[i].accepted
    requires i + 1 < |c.stages| ==> Linked(t, c.stages[i + 1])
    ensures Inv(c.(stages := c.stages[i := t]), frames)
  {
    hide StageInv, Linked;
    if i > 0 {
      LinkedUpstream(c.stages[i - 1], c.stages[i], t);
    }
    ExchangeInv(c.stages, i, t, frames);
    ExchangeLinked(c.stages, i, t);
  }

  lemma ExchangeInv(ss: seq<Stage>, i: nat, t: Stage, frames: seq<Envelope>)
    requires EndsOnce(frames) && AllInv(ss, frames) && i < |ss| && StageInv(t, frames)
    ensures AllInv(ss[i := t], frames)
  {
    hide StageInv;
  }

  lemma ExchangeLinked(ss: seq<Stage>, i: nat, t: Stage)
    requires AllLinked(ss) && i < |ss|
    requires i > 0 ==> Linked(ss[i - 1], t)
    requires i + 1 < |ss| ==> Linked(t, ss[i + 1])
    ensures AllLinked(ss[i := t])
  {
    hide Linked;
  }

  lemma LinkedUpstream(before: Stage, s: Stage, t: Stage)
    requires Linked(before, s) && t.accepted == s.accepted
    ensures Linked(before, t)
  {
  }

  lemma LinkedDownstream(s: Stage, t: Stage, next: Stage)
    requires Linked(s, next) && t.handed == s.handed && t.loops == s.loops
    ensures Linked(t, next)
  {
  }

  lemma LinkedAfterOwnStep(s: Stage, a: Action, next: Stage)
    requires OneLoop(s) && Enabled(s, a) && Own(s, a) && Linked(s, next)
    ensures Linked(Apply(s, a), next)
  {
    OwnStepHandsOver(s, a);
  }

  lemma LocalStep(c: Chain, i: nat, a: Action, frames: seq<Envelope>)
    requires EndsOnce(frames) && Inv(c, frames) && MoveEnabled(c, Local(i, a))
    ensures Inv(MoveTo(c, Local(i, a)), frames)
  {
    hide Linked, Apply, Enabled, Kept, Subseq;
    var s := c.stages[i];
    assert StageInv(s, frames);
    OwnStep(s, a, frames);
    OwnStepHandsOver(s, a);
    if i + 1 < |c.stages| {
      LinkedAfterOwnStep(s, a, c.stages[i + 1]);
    }
    ReplaceStage(c, i, Apply(s, a), frames);
  }

  lemma PassStep(c: Chain, i: nat, k: nat, frames: seq<Envelope>)
    requires EndsOnce(frames) && Inv(c, frames) && MoveEnabled(c, PassData(i, k))
    ensures Inv(MoveTo(c, PassData(i, k)), frames)
  {
    var s := c.stages[i];
    assert StageInv(s, frames);
    PushStep(s, k, frames);
    if i + 1 < |c.stages| {
      PassOn(c, i, k, frames);
    } else {
      ReplaceStage(c, i, Pushed(s, k), frames);
    }
  }

  lemma PassOn(c: Chain, i: nat, k: nat, frames: seq<Envelope>)
    requires EndsOnce(frames) && Inv(c, frames) && MoveEnabled(c, PassData(i, k)) && i + 1 < |c.stages|
    ensures Inv(MoveTo(c, PassData(i, k)), frames)
  {
    hide StageInv, Linked, Apply, Enabled;
    var s, next := c.stages[i], c.stages[i + 1];
    Handover(s, next, k, frames);
    ReplaceTwo(c, i, Pushed(s, k), Apply(next, AcceptData(s.loops[k].pc.env)), frames);
  }

  lemma Handover(s: Stage, next: Stage, k: nat, frames: seq<Envelope>)
    requires EndsOnce(frames) && StageInv(s, frames) && StageInv(next, frames) && Linked(s, next)
    requires Unpushed(s, k) && Enabled(next, AcceptData(s.loops[k].pc.env))
    ensures StageInv(Pushed(s, k), frames)
    ensures StageInv(Apply(next, AcceptData(s.loops[k].pc.env)), frames)
    ensures Linked(Pushed(s, k), Apply(next, AcceptData(s.loops[k].pc.env)))
    ensures Pushed(s, k).accepted == s.accepted
    ensures var u := Apply(next, AcceptData(s.loops[k].pc.env));
      u.handed == next.handed && u.loops == next.loops
  {
    hide Kept, Subseq;
    var env := s.loops[k].pc.env;
    PushStep(s, k, frames);
    assert next.accepted + [env] == s.handed;
    SubseqPrefix(s.handed, Rest(s), s.accepted);
    SubseqTrans(s.handed, s.accepted, frames);
    AcceptStep(next, env, frames);
  }

  lemma ReplaceTwo(c: Chain, i: nat, t: Stage, u: Stage, frames: seq<Envelope>)
    requires EndsOnce(frames) && Inv(c, frames) && i + 1 < |c.stages|
    requires StageInv(t, frames) && t.accepted == c.stages[i].accepted
    requires StageInv(u, frames) && Linked(t, u)
    requires u.handed == c.stages[i + 1].handed && u.loops == c.stages[i + 1].loops
    ensures Inv(c.(stages := c.stages[i := t][i + 1 := u]), frames)
  {
    hide StageInv, Linked;
    if i > 0 {
      LinkedUpstream(c.stages[i - 1], c.stages[i], t);
    }
    if i + 2 < |c.stages| {
      LinkedDownstream(c.stages[i + 1], u, c.stages[i + 2]);
    }
    ExchangeInv(c.stages, i, t, frames);
    ExchangeInv(c.stages[i := t], i + 1, u, frames);
    ExchangeTwoLinked(c.stages, i, t, u);
  }

  lemma ExchangeTwoLinked(ss: seq<Stage>, i: nat, t: Stage, u: Stage)
    requires AllLinked(ss) && i + 1 < |ss| && Linked(t, u)
    requires i > 0 ==> Linked(ss[i - 1], t)
    requires i + 2 < |ss| ==> Linked(u, ss[i + 2])
    ensures AllLinked(ss[i := t][i + 1 := u])
  {
    hide Linked;
  }

  lemma SystemMove(c: Chain, m: Move, frames: seq<Envelope>)
    requires EndsOnce(frames) && Inv(c, frames) && MoveEnabled(c, m)
    requires m.PassSystem? || m.LoseSystem? || m.Inject?
    ensures Inv(MoveTo(c, m), frames)
  {
    hide StageInv, Linked;
    var i := m.i;
    var s := c.stages[i];
    var t := if m.Inject? then Apply(s, AcceptSystem(m.sys)) else PushedSystem(s);
    SystemChange(c, i, t, frames);
    if m.PassSystem? && i + 1 < |c.stages| {
      var next := c.stages[i + 1];
      SystemChange(c.(stages := c.stages[i := t]), i + 1, Apply(next, AcceptSystem(s.input.sys)), frames);
    }
  }

  lemma SystemChange(c: Chain, i: nat, t: Stage, frames: seq<Envelope>)
    requires EndsOnce(frames) && Inv(c, frames) && i < |c.stages|
    requires var s := c.stages[i];
      (UnpushedSystem(s) && t == PushedSystem(s)) ||
      (exists sys :: Enabled(s, AcceptSystem(sys)) && t == Apply(s, AcceptSystem(sys)))
    ensures Inv(c.(stages := c.stages[i := t]), frames)
  {
    hide StageInv, Linked;
    SystemStep(c.stages[i], t, frames);
    ReplaceStage(c, i, t, frames);
  }

  /** No data frame is ever offered to a stage that is already shutting down. */
  lemma NothingIsLost(c: Chain, i: nat, k: nat, frames: seq<Envelope>)
    requires EndsOnce(frames) && Inv(c, frames)
    ensures !MoveEnabled(c, LoseData(i, k))
  {
    hide Kept, Subseq;
    if MoveEnabled(c, LoseData(i, k)) {
      var s, next := c.stages[i], c.stages[i + 1];
      PushStep(s, k, frames);
      assert Linked(s, next) && StageInv(next, frames);
      var j :| 0 <= j < |next.handed| && next.handed[j] == End(frames);
      SubseqMember(next.handed + Rest(next), next.accepted, j);
      assert End(frames) in next.accepted;
      var m :| 0 <= m < |next.accepted| && next.accepted[m] == End(frames);
      assert s.handed[m] == End(frames);
      SubseqPrefix(s.handed, Rest(s), s.accepted);
      SubseqTrans(s.handed, s.accepted, frames);
      SubseqLast(s.handed, frames, m);
    }
  }

  lemma MoveStep(c: Chain, m: Move, frames: seq<Envelope>)
    requires EndsOnce(frames) && Inv(c, frames) && MoveEnabled(c, m)
    ensures Inv(MoveTo(c, m), frames)
  {
    match m {
      case Feed => FeedStep(c, frames);
      case Local(i, a) => LocalStep(c, i, a, frames);
      case PassData(i, k) => PassStep(c, i, k, frames);
      case LoseData(i, k) => NothingIsLost(c, i, k, frames);
      case _ => SystemMove(c, m, frames);
    }
  }

  lemma {:induction false} RunKeepsInv(c: Chain, run: seq<Move>, frames: seq<Envelope>)
    requires EndsOnce(frames) && Inv(c, frames) && ValidMoves(c, run)
    ensures Inv(FinalChain(c, run), frames)
    decreases |run|
  {
    if run != [] {
      MoveStep(c, run[0], frames);
      RunKeepsInv(MoveTo(c, run[0]), run[1..], frames);
    }
  }

  lemma {:induction false} AcceptedAlongChain(c: Chain, i: nat, frames: seq<Envelope>)
    requires EndsOnce(frames) && Inv(c, frames) && i < |c.stages|
    ensures Kept(c.stages[i].accepted) <= Kept(frames)
    ensures Kept(c.stages[i].handed) <= Kept(c.stages[i].accepted)
    decreases i
  {
    hide Kept, Subseq, Control;
    var s := c.stages[i];
    assert StageInv(s, frames);
    KeptConcat(s.handed, Rest(s));
    if i == 0 {
      KeptConcat(s.accepted, c.todo);
    } else {
      AcceptedAlongChain(c, i - 1, frames);
      var before := c.stages[i - 1];
      assert Linked(before, s);
      KeptConcat(s.accepted, Unsent(before));
    }
  }

  /** What the last stage has received, in a chain of any length, in any reachable state. */
  ghost predicate DeliveredSoFar(c: Chain, frames: seq<Envelope>)
    requires EndsOnce(frames) && c.stages != []
  {
    var last := c.stages[|c.stages| - 1];
    && Subseq(last.handed, frames)
    && Kept(last.handed) <= Kept(frames)
    && (End(frames) in last.handed ==>
          last.handed[|last.handed| - 1] == End(frames) && Kept(last.handed) == Kept(frames))
    && (forall i :: 0 <= i < |c.stages| - 1 ==>
          c.stages[i].cancelled ==> End(frames) in c.stages[i + 1].accepted)
  }

  lemma StopsAfterHandover(s: Stage, next: Stage, frames: seq<Envelope>)
    requires EndsOnce(frames) && StageInv(s, frames) && Linked(s, next) && s.cancelled
    ensures End(frames) in next.accepted
  {
  }

  lemma InvDelivers(c: Chain, frames: seq<Envelope>)
    requires EndsOnce(frames) && Inv(c, frames)
    ensures DeliveredSoFar(c, frames)
  {
    hide Kept, Subseq;
    var n := |c.stages|;
    var last, end := c.stages[n - 1], End(frames);
    assert StageInv(last, frames);
    SubseqPrefix(last.handed, Rest(last), last.accepted);
    SubseqTrans(last.handed, last.accepted, frames);
    AcceptedAlongChain(c, n - 1, frames);
    if end in last.handed {
      EndClosesStage(last, frames);
      EndCompletesKept(last.handed, frames);
    }
    forall i | 0 <= i < n - 1 && c.stages[i].cancelled
      ensures End(frames) in c.stages[i + 1].accepted
    {
      StopsAfterHandover(c.stages[i], c.stages[i + 1], frames);
    }
  }

  lemma EndCompletesKept(got: seq<Envelope>, frames: seq<Envelope>)
    requires EndsOnce(frames) && Kept(got) <= Kept(frames) && End(frames) in got
    ensures Kept(got) == Kept(frames)
  {
    var end, init := End(frames), frames[..|frames| - 1];
    KeptMember(got, end);
    KeptMember(init, end);
    assert Kept(frames) == Kept(init) + [end];
    var i :| 0 <= i < |Kept(got)| && Kept(got)[i] == end;
    assert Kept(frames)[i] == end;
    assert i < |Kept(init)| ==> end in Kept(init);
  }

  /**
   * Any number of forwarding stages, any interrupts, any interleaving: what the last stage is
   * handed is a subsequence of the input with every non-interruptible frame in its place, the
   * EndFrame comes last and completes it, and no stage stops before its successor has accepted
   * the EndFrame.
   */
  lemma ChainDelivers(n: nat, frames: seq<Envelope>, run: seq<Move>)
    requires n > 0 && EndsOnce(frames) && ValidMoves(Started(n, frames), run)
    ensures var c := FinalChain(Started(n, frames), run);
      c.stages != [] && DeliveredSoFar(c, frames)
  {
    StartedInv(n, frames);
    RunKeepsInv(Started(n, frames), run, frames);
    InvDelivers(FinalChain(Started(n, frames), run), frames);
  }
}
