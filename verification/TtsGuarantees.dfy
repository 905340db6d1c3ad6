/** What every run of the synthesis stage guarantees: about the EndFrame it holds back, and about audio. */
module TtsGuarantees {
  import opened Frames
  import opened Text
  import opened Tts

  predicate ValidRun(s: State, run: seq<Step>)
    requires s.Wf()
    decreases |run|
  {
    run == [] || (Enabled(s, run[0]) && (StepKeepsRate(s, run[0]); ValidRun(Next(s, run[0]), run[1..])))
  }

  function Final(s: State, run: seq<Step>): (t: State)
    requires s.Wf() && ValidRun(s, run)
    decreases |run|
  {
    if run == [] then s else StepKeepsRate(s, run[0]); Final(Next(s, run[0]), run[1..])
  }

  lemma EventKeepsRest(s: State, e: Event)
    requires s.Wf()
    ensures var t := HandleEvent(s, e);
      && t.rate == s.rate && t.ctx == s.ctx && t.events == s.events && t.wire == s.wire
      && t.aggregation == s.aggregation && s.pushed <= t.pushed
    ensures !(e.Done? && s.ctx != "" && s.ctx == e.ctx) ==> OnlyPlays(s, HandleEvent(s, e))
  {
    hide FlushWords, PadLast, CutFrames, EmitPendingWords;
    if s.ctx != "" && s.ctx == e.ctx {
      match e {
        case AudioChunk(_, data) => CutFramesKeeps(s.(pcm := s.pcm + data));
        case WordTimestamps(_, words) => EmitKeeps(s.(pending := s.pending + words));
        case Done(_) => FlushPlays(s);
      }
    }
  }

  lemma StepKeepsRate(s: State, step: Step)
    requires s.Wf() && Enabled(s, step)
    ensures Next(s, step).rate == s.rate && Next(s, step).Wf()
  {
    hide HandleEvent, HandleCommand;
    match step {
      case Receive(_) =>
      case Consume => EventKeepsRest(s.(events := s.events[1..]), s.events[0]);
      case Execute(cmd, w) => CommandKeepsRate(s, cmd, w);
    }
  }

  lemma CommandKeepsRate(s: State, cmd: Command, w: World)
    ensures HandleCommand(s, cmd, w).rate == s.rate
  {
    hide Blank, AddText, EndResponse, SpeakNow, SendText, FinishContext, CancelContext, OpenContext, Clear;
  }

  // ---- The deferred EndFrame ----

  /**
   * A held-back EndFrame waits on a context that is open, that the reader still lets events of
   * through for, and whose completion was the last thing written. An EndFrame that has been
   * pushed is the last frame pushed, and the orchestrator has stopped.
   */
  ghost predicate DeferralInv(s: State) {
    && HeldWell(s)
    && EndFrameIsLast(s.pushed, s.stopped)
  }

  ghost predicate HeldWell(s: State) {
    && (s.pendingEnd.Some? ==>
          && s.ctx != "" && s.active == s.ctx && s.textSent && !s.stopped
          && s.wire != [] && s.wire[|s.wire| - 1] == Finish(s.ctx)
          && s.pendingEnd.value.env.frame.EndFrame?)
    && (s.ctx != "" && !s.stopped ==> s.active == s.ctx)
  }

  ghost predicate EndFrameIsLast(pushed: seq<Envelope>, stopped: bool) {
    forall i :: 0 <= i < |pushed| && pushed[i].frame.EndFrame? ==> i == |pushed| - 1 && stopped
  }

  lemma CommandKeepsHeldWell(s: State, cmd: Command, w: World)
    requires HeldWell(s) && !s.stopped && !cmd.env.frame.EndFrame?
    ensures HeldWell(HandleCommand(s, cmd, w)) && !HandleCommand(s, cmd, w).stopped
  {
    hide HandleCommand;
    OtherChannels(s, cmd, w);
    if s.pendingEnd.Some? {
      CommandsAreShutOut(s, cmd, w);
    } else {
      ContextStaysActive(s, cmd, w);
    }
  }

  lemma ContextStaysActive(s: State, cmd: Command, w: World)
    requires s.pendingEnd.None? && !cmd.env.frame.EndFrame?
    ensures var t := HandleCommand(s, cmd, w);
      t.active == t.ctx || (t.ctx == s.ctx && t.active == s.active)
  {
    hide AddText, EndResponse, SpeakNow, CancelContext, OpenContext;
  }

  lemma CommandPushesFew(s: State, cmd: Command, w: World)
    requires !cmd.env.frame.EndFrame?
    ensures var p := HandleCommand(s, cmd, w).pushed;
      || p == s.pushed
      || p == s.pushed + [cmd.env]
      || p == s.pushed + [Envelope(TTSDoneFrame, Downstream)] + [cmd.env]
  {
    hide AddText, EndResponse, SpeakNow, CancelContext, OpenContext, Clear;
    assert cmd.env == Envelope(cmd.env.frame, cmd.env.dir);
  }

  lemma EndKeepsDeferral(s: State, cmd: Command, w: World)
    requires DeferralInv(s) && !s.stopped && cmd.env.frame.EndFrame?
    ensures DeferralInv(HandleEnd(s, cmd, w))
  {
    hide Blank, SendText, FinishContext;
    if s.pendingEnd.None? {
      var t := FlushForEnd(s, w);
      assert t.pushed == s.pushed && t.ctx == s.ctx && t.active == s.active && !t.stopped && t.pendingEnd.None?;
      assert t.textSent ==> t.ctx != "" && t.wire != [] && t.wire[|t.wire| - 1] == Finish(t.ctx);
    }
  }

  lemma CommandKeepsDeferral(s: State, cmd: Command, w: World)
    requires DeferralInv(s) && !s.stopped
    ensures DeferralInv(HandleCommand(s, cmd, w))
  {
    if cmd.env.frame.EndFrame? {
      EndKeepsDeferral(s, cmd, w);
    } else {
      CommandKeepsHeldWell(s, cmd, w);
      CommandPushesFew(s, cmd, w);
      hide HandleCommand;
    }
  }

  lemma EventKeepsDeferral(s: State, e: Event)
    requires DeferralInv(s) && s.Wf() && !s.stopped
    ensures DeferralInv(HandleEvent(s, e))
  {
    if s.ctx != "" && s.ctx == e.ctx && e.Done? {
      FlushPlays(s);
      hide FlushWords, PadLast;
    } else {
      EventKeepsRest(s, e);
      hide HandleEvent;
    }
  }

  lemma StepKeepsDeferral(s: State, step: Step)
    requires DeferralInv(s) && s.Wf() && Enabled(s, step)
    ensures DeferralInv(Next(s, step))
  {
    hide HandleCommand, HandleEvent;
    match step {
      case Receive(_) =>
      case Consume => EventKeepsDeferral(s.(events := s.events[1..]), s.events[0]);
      case Execute(cmd, w) => CommandKeepsDeferral(s, cmd, w);
    }
  }

  /** In every reachable state. */
  lemma {:induction false} RunKeepsDeferral(s: State, run: seq<Step>)
    requires s.Wf() && DeferralInv(s) && ValidRun(s, run)
    ensures DeferralInv(Final(s, run))
    decreases |run|
  {
    hide DeferralInv, Enabled, Next;
    if run != [] {
      StepKeepsRate(s, run[0]);
      StepKeepsDeferral(s, run[0]);
      RunKeepsDeferral(Next(s, run[0]), run[1..]);
    }
  }

  lemma EveryRunDefersProperly(rate: int, run: seq<Step>)
    requires Initial(rate).Wf() && ValidRun(Initial(rate), run)
    ensures DeferralInv(Final(Initial(rate), run))
  {
    RunKeepsDeferral(Initial(rate), run);
  }

  /** While an EndFrame is held back, a command changes nothing; a second EndFrame is only acknowledged. */
  lemma CommandsAreShutOut(s: State, cmd: Command, w: World)
    requires s.pendingEnd.Some?
    ensures HandleCommand(s, cmd, w) == if cmd.env.frame.EndFrame? then Close(s, cmd.done) else s
  {
  }

  /** The EndFrame `d`, held back in `s`, has gone out as the last frame and its channel has been closed. */
  ghost predicate Released(s: State, d: Deferred, t: State) {
    && t.stopped && t.pendingEnd.None?
    && s.pushed < t.pushed
    && t.pushed[|t.pushed| - 1] == d.env
    && (d.done.Some? ==> t.closed != [] && t.closed[|t.closed| - 1] == d.done.value)
  }

  ghost predicate StillHeld(s: State, d: Deferred, t: State) {
    t.pendingEnd == Some(d) && t.ctx == s.ctx && t.active == s.ctx && !t.stopped && s.pushed <= t.pushed
  }

  lemma HeldStep(s: State, d: Deferred, step: Step)
    requires s.Wf() && DeferralInv(s) && s.pendingEnd == Some(d) && Enabled(s, step)
    ensures var t := Next(s, step);
      if step.Consume? && s.events[0] == Done(s.ctx) then Released(s, d, t)
      else StillHeld(s, d, t) && (Done(s.ctx) in s.events || step == Receive(Done(s.ctx)) ==> Done(s.ctx) in t.events)
  {
    hide FlushWords, PadLast, HandleCommand;
    match step {
      case Receive(e) =>
        assert Done(s.ctx) in s.events ==> Done(s.ctx) in Next(s, step).events;
      case Consume =>
        var u := s.(events := s.events[1..]);
        EventKeepsRest(u, s.events[0]);
        assert s.events == [s.events[0]] + s.events[1..];
        if s.events[0] == Done(s.ctx) {
          FlushPlays(u);
        }
      case Execute(cmd, w) => CommandsAreShutOut(s, cmd, w);
    }
  }

  /** Once released, the stage only queues events: nothing more is pushed or closed. */
  lemma {:induction false} StoppedForGood(s: State, run: seq<Step>)
    requires s.Wf() && s.stopped && ValidRun(s, run)
    ensures var t := Final(s, run);
      t.stopped && t.pushed == s.pushed && t.closed == s.closed && t.pendingEnd == s.pendingEnd
    decreases |run|
  {
    if run != [] {
      StepKeepsRate(s, run[0]);
      StoppedForGood(Next(s, run[0]), run[1..]);
    }
  }

  /**
   * Every run from a state that holds back an EndFrame either still holds back that EndFrame on
   * the same context, with a done event that arrived for it still queued, or has released it as
   * the last frame it will ever push.
   */
  lemma {:induction false} EndFrameIsHeldThenReleased(s: State, d: Deferred, run: seq<Step>)
    requires s.Wf() && DeferralInv(s) && s.pendingEnd == Some(d) && ValidRun(s, run)
    ensures var t := Final(s, run);
      || Released(s, d, t)
      || (StillHeld(s, d, t) &&
          (Done(s.ctx) in s.events || Receive(Done(s.ctx)) in run ==> Done(s.ctx) in t.events))
    decreases |run|
  {
    hide HandleCommand, HandleEvent;
    if run != [] {
      var u := Next(s, run[0]);
      StepKeepsRate(s, run[0]);
      StepKeepsDeferral(s, run[0]);
      HeldStep(s, d, run[0]);
      if Released(s, d, u) {
        StoppedForGood(u, run[1..]);
      } else {
        EndFrameIsHeldThenReleased(u, d, run[1..]);
        assert run == [run[0]] + run[1..];
        assert s.pushed <= u.pushed <= Final(u, run[1..]).pushed;
      }
    }
  }

  /** So once its done event has arrived and the queue has been emptied, the EndFrame is out. */
  lemma {:induction false} DoneReleasesEndFrame(s: State, d: Deferred, run: seq<Step>)
    requires s.Wf() && DeferralInv(s) && s.pendingEnd == Some(d) && ValidRun(s, run)
    requires Done(s.ctx) in s.events || Receive(Done(s.ctx)) in run
    requires Final(s, run).events == []
    ensures Released(s, d, Final(s, run))
  {
    EndFrameIsHeldThenReleased(s, d, run);
  }

  // ---- Done channels ----

  /** The channel an executed EndFrame brings along. */
  function Channel(step: Step): seq<nat> {
    match step
    case Execute(cmd, _) => if cmd.env.frame.EndFrame? && cmd.done.Some? then [cmd.done.value] else []
    case _ => []
  }

  function Channels(run: seq<Step>): seq<nat> {
    if run == [] then [] else Channels(run[..|run| - 1]) + Channel(run[|run| - 1])
  }

  function Waiting(s: State): seq<nat> {
    if s.pendingEnd.Some? && s.pendingEnd.value.done.Some? then [s.pendingEnd.value.done.value] else []
  }

  lemma {:induction false} RunSplits(s: State, run: seq<Step>, last: Step)
    requires s.Wf() && ValidRun(s, run + [last])
    ensures ValidRun(s, run) && Final(s, run).Wf() && Enabled(Final(s, run), last)
    ensures Final(s, run + [last]) == Next(Final(s, run), last)
    decreases |run|
  {
    hide Next, Enabled;
    if run == [] {
      assert run + [last] == [last];
      StepKeepsRate(s, last);
      assert ValidRun(s, [last]) && Enabled(s, last);
    } else {
      StepKeepsRate(s, run[0]);
      assert (run + [last])[1..] == run[1..] + [last];
      RunSplits(Next(s, run[0]), run[1..], last);
    }
  }

  /**
   * Every executed EndFrame's channel is closed exactly once, except that the held-back one is
   * still waiting: the closed channels and the waiting one are, as a bag, the executed ones.
   */
  lemma {:induction false} ChannelsCloseOnce(rate: int, run: seq<Step>)
    requires Initial(rate).Wf() && ValidRun(Initial(rate), run)
    ensures var t := Final(Initial(rate), run);
      multiset(t.closed) + multiset(Waiting(t)) == multiset(Channels(run))
    decreases |run|
  {
    hide Next, Enabled, ValidRun;
    if run != [] {
      var before, last := run[..|run| - 1], run[|run| - 1];
      assert run == before + [last];
      RunSplits(Initial(rate), before, last);
      ChannelsCloseOnce(rate, before);
      ChannelStep(Final(Initial(rate), before), last);
    }
  }

  lemma ChannelStep(s: State, step: Step)
    requires s.Wf() && Enabled(s, step)
    ensures var t := Next(s, step);
      multiset(t.closed) + multiset(Waiting(t)) == multiset(s.closed) + multiset(Waiting(s)) + multiset(Channel(step))
  {
    hide HandleCommand, HandleEnd, HandleEvent;
    match step {
      case Receive(_) =>
      case Consume => EventChannel(s.(events := s.events[1..]), s.events[0]);
      case Execute(cmd, w) =>
        if cmd.env.frame.EndFrame? {
          CommandIsEnd(s, cmd, w);
          EndChannel(s, cmd, w);
        } else {
          OtherChannels(s, cmd, w);
        }
    }
  }

  lemma EventChannel(s: State, e: Event)
    requires s.Wf()
    ensures var t := HandleEvent(s, e);
      multiset(t.closed) + multiset(Waiting(t)) == multiset(s.closed) + multiset(Waiting(s))
  {
    if e.Done? && s.ctx != "" && s.ctx == e.ctx {
      hide FlushWords, PadLast;
      FlushPlays(s);
    } else {
      hide HandleEvent;
      EventKeepsRest(s, e);
    }
  }

  /** Flushing pushes audio and words and leaves everything else alone. */
  lemma FlushPlays(s: State)
    requires s.Wf()
    ensures OnlyPlays(s, FlushWords(PadLast(s)))
  {
    hide FlushWords;
    assert OnlyPlays(s, PadLast(s));
    FlushKeeps(PadLast(s));
  }

  lemma CommandIsEnd(s: State, cmd: Command, w: World)
    requires cmd.env.frame.EndFrame?
    ensures HandleCommand(s, cmd, w) == HandleEnd(s, cmd, w)
  {
  }

  lemma EndChannel(s: State, cmd: Command, w: World)
    ensures var t, c := HandleEnd(s, cmd, w), (if cmd.done.Some? then [cmd.done.value] else []);
      multiset(t.closed) + multiset(Waiting(t)) == multiset(s.closed) + multiset(Waiting(s)) + multiset(c)
  {
    hide Blank, SendText, FinishContext;
    if s.pendingEnd.None? {
      var t := FlushForEnd(s, w);
      assert t.closed == s.closed && t.pendingEnd.None?;
    }
  }

  lemma OtherChannels(s: State, cmd: Command, w: World)
    requires !cmd.env.frame.EndFrame?
    ensures var t := HandleCommand(s, cmd, w);
      t.closed == s.closed && t.pendingEnd == s.pendingEnd && t.stopped == s.stopped
  {
    hide AddText, EndResponse, SpeakNow, CancelContext, OpenContext, Clear;
  }

  // ---- Audio ----

  /** The audio pushed so far, in order. */
  function Audio(pushed: seq<Envelope>): seq<byte> {
    if pushed == [] then []
    else Audio(pushed[..|pushed| - 1]) +
         (if pushed[|pushed| - 1].frame.AudioFrame? then pushed[|pushed| - 1].frame.data else [])
  }

  lemma AudioSnoc(p: seq<Envelope>, env: Envelope)
    ensures Audio(p + [env]) == Audio(p) + (if env.frame.AudioFrame? then env.frame.data else [])
  {
    assert (p + [env])[..|p|] == p;
  }

  lemma {:induction false} EmitPushesNoAudio(s: State)
    ensures Audio(EmitPendingWords(s).pushed) == Audio(s.pushed)
    decreases |s.pending|
  {
    if s.pending != [] && s.pending[0].start <= s.framesPushed as real {
      var f := WordFrame(s.pending[0], false);
      AudioSnoc(s.pushed, Envelope(f, Downstream));
      EmitPushesNoAudio(Push(s.(pending := s.pending[1..]), f, Downstream));
    }
  }

  lemma Regroup(a: seq<byte>, b: seq<byte>, n: nat)
    requires n <= |b|
    ensures (a + b[..n]) + b[n..] == a + b
  {
    assert b == b[..n] + b[n..];
  }

  /** Cutting frames moves bytes from the buffer to the neighbour, and leaves less than one frame. */
  lemma {:induction false} CutFramesConserve(s: State)
    requires s.Wf()
    ensures Audio(CutFrames(s).pushed) + CutFrames(s).pcm == Audio(s.pushed) + s.pcm
    ensures |CutFrames(s).pcm| < FrameBytes(s.rate)
    decreases |s.pcm|
  {
    hide Audio, EmitPendingWords;
    var n := FrameBytes(s.rate);
    if |s.pcm| >= n {
      var u := Push(s.(pcm := s.pcm[n..], framesPushed := s.framesPushed + 1), AudioFrame(s.pcm[..n]), Downstream);
      AudioSnoc(s.pushed, Envelope(AudioFrame(s.pcm[..n]), Downstream));
      EmitPushesNoAudio(u);
      CutFramesConserve(CutFrame(s));
      Regroup(Audio(s.pushed), s.pcm, n);
    }
  }

  lemma {:induction false} FlushPushesNoAudio(s: State)
    ensures Audio(FlushWords(s).pushed) == Audio(s.pushed)
    decreases |s.pending|
  {
    if s.pending != [] {
      var f := WordFrame(s.pending[0], true);
      AudioSnoc(s.pushed, Envelope(f, Downstream));
      FlushPushesNoAudio(Push(s.(pending := s.pending[1..]), f, Downstream));
    }
  }

  /** Completing a context plays out the buffer followed by fewer than one frame of zero bytes. */
  lemma DoneCompletesAudio(s: State) returns (zeros: nat)
    requires s.Wf() && DeferralInv(s) && |s.pcm| < FrameBytes(s.rate) && s.ctx != ""
    ensures zeros < FrameBytes(s.rate)
    ensures Audio(HandleEvent(s, Done(s.ctx)).pushed) == Audio(s.pushed) + s.pcm + Zeros(zeros)
    ensures HandleEvent(s, Done(s.ctx)).pcm == []
  {
    hide Audio;
    var n := FrameBytes(s.rate);
    var u := PadLast(s);
    zeros := if s.pcm == [] then 0 else n - |s.pcm|;
    if s.pcm != [] {
      var padded := s.pcm + Zeros(zeros);
      assert padded[..n] == padded && padded[n..] == [];
      AudioSnoc(s.pushed, Envelope(AudioFrame(padded), Downstream));
      assert Audio(s.pushed) + (s.pcm + Zeros(zeros)) == Audio(s.pushed) + s.pcm + Zeros(zeros);
    } else {
      assert Audio(s.pushed) + s.pcm + Zeros(zeros) == Audio(s.pushed);
    }
    FlushKeeps(u);
    FlushPushesNoAudio(u);
    var v := FlushWords(u);
    AudioSnoc(v.pushed, Envelope(TTSDoneFrame, Downstream));
    if s.pendingEnd.Some? {
      AudioSnoc(v.pushed + [Envelope(TTSDoneFrame, Downstream)], s.pendingEnd.value.env);
    }
  }

  /** A step that empties the audio buffer: an accepted start, speak, interrupt or end of response, or a done event. */
  predicate Clears(s: State, step: Step) {
    match step
    case Receive(_) => false
    case Consume => s.events != [] && s.events[0] == Done(s.ctx) && s.ctx != ""
    case Execute(cmd, _) =>
      s.pendingEnd.None? &&
      (cmd.env.frame.InterruptFrame? || cmd.env.frame.LLMResponseStartFrame? || cmd.env.frame.TTSSpeakFrame? ||
       cmd.env.frame.LLMResponseEndFrame?)
  }

  /** The audio bytes a step takes in for the current context. */
  function Received(s: State, step: Step): seq<byte> {
    if step.Consume? && s.events != [] && s.ctx != "" && s.events[0].AudioChunk? && s.events[0].ctx == s.ctx
    then s.events[0].data else []
  }

  predicate NoClears(s: State, run: seq<Step>)
    requires s.Wf() && ValidRun(s, run)
    decreases |run|
  {
    run == [] ||
    (!Clears(s, run[0]) && !RelaysAudio(run[0]) &&
     (StepKeepsRate(s, run[0]); NoClears(Next(s, run[0]), run[1..])))
  }

  /** A command that relays an audio frame from elsewhere; none is ever sent to this stage. */
  predicate RelaysAudio(step: Step) {
    step.Execute? && step.cmd.env.frame.AudioFrame?
  }

  function ReceivedIn(s: State, run: seq<Step>): seq<byte>
    requires s.Wf() && ValidRun(s, run)
    decreases |run|
  {
    if run == [] then []
    else Received(s, run[0]) + (StepKeepsRate(s, run[0]); ReceivedIn(Next(s, run[0]), run[1..]))
  }

  lemma StepConserves(s: State, step: Step)
    requires s.Wf() && Enabled(s, step) && !Clears(s, step) && !RelaysAudio(step)
    ensures Audio(Next(s, step).pushed) + Next(s, step).pcm == Audio(s.pushed) + s.pcm + Received(s, step)
  {
    match step {
      case Receive(_) =>
      case Consume => ConsumeConserves(s);
      case Execute(cmd, w) =>
        var t := HandleCommand(s, cmd, w);
        CommandPushes(s, cmd, w);
        assert t.pushed == s.pushed || t.pushed == s.pushed + [cmd.env];
        AudioSnoc(s.pushed, cmd.env);
    }
    assert Audio(s.pushed) + s.pcm + [] == Audio(s.pushed) + s.pcm;
  }

  lemma CommandPushes(s: State, cmd: Command, w: World)
    requires !Clears(s, Execute(cmd, w))
    ensures var t := HandleCommand(s, cmd, w);
      t.pcm == s.pcm && (t.pushed == s.pushed || t.pushed == s.pushed + [cmd.env])
  {
    hide AddText, EndResponse, SpeakNow, CancelContext, OpenContext, Clear;
  }

  lemma ConsumeConserves(s: State)
    requires s.Wf() && Enabled(s, Consume) && !Clears(s, Consume)
    ensures Audio(Next(s, Consume).pushed) + Next(s, Consume).pcm == Audio(s.pushed) + s.pcm + Received(s, Consume)
  {
    hide Audio;
    var u := s.(events := s.events[1..]);
    if s.ctx != "" && s.ctx == s.events[0].ctx {
      match s.events[0] {
        case AudioChunk(_, data) =>
          CutFramesConserve(u.(pcm := u.pcm + data));
          assert Audio(s.pushed) + (s.pcm + data) == Audio(s.pushed) + s.pcm + data;
        case WordTimestamps(_, words) => EmitPushesNoAudio(u.(pending := u.pending + words));
        case Done(_) =>
      }
    }
    assert Audio(s.pushed) + s.pcm + [] == Audio(s.pushed) + s.pcm;
  }

  /** Between two clears, the audio pushed and the audio still buffered are the audio received. */
  lemma {:induction false} AudioIsConserved(s: State, run: seq<Step>)
    requires s.Wf() && ValidRun(s, run) && NoClears(s, run)
    ensures var t := Final(s, run);
      Audio(t.pushed) + t.pcm == Audio(s.pushed) + s.pcm + ReceivedIn(s, run)
    decreases |run|
  {
    hide Audio, Next, Enabled, Clears, Received;
    if run == [] {
      assert Audio(s.pushed) + s.pcm + [] == Audio(s.pushed) + s.pcm;
    } else {
      StepKeepsRate(s, run[0]);
      StepConserves(s, run[0]);
      var u := Next(s, run[0]);
      AudioIsConserved(u, run[1..]);
      assert Audio(s.pushed) + s.pcm + Received(s, run[0]) + ReceivedIn(u, run[1..])
          == Audio(s.pushed) + s.pcm + (Received(s, run[0]) + ReceivedIn(u, run[1..]));
    }
  }

  lemma StepKeepsRemainder(s: State, step: Step)
    requires s.Wf() && Enabled(s, step) && |s.pcm| < FrameBytes(s.rate)
    ensures |Next(s, step).pcm| < FrameBytes(s.rate)
  {
    hide AddText, SpeakNow, CancelContext, OpenContext;
    if step.Consume? && s.ctx != "" && s.ctx == s.events[0].ctx {
      var u := s.(events := s.events[1..]);
      match s.events[0] {
        case AudioChunk(_, data) => CutFramesKeeps(u.(pcm := u.pcm + data));
        case WordTimestamps(_, words) =>
        case Done(_) => FlushKeeps(PadLast(u));
      }
    }
  }

  /** The buffer never holds a whole frame, so what an end of response or an interrupt discards is less than one. */
  lemma {:induction false} RemainderIsPartial(s: State, run: seq<Step>)
    requires s.Wf() && ValidRun(s, run) && |s.pcm| < FrameBytes(s.rate)
    ensures Final(s, run).rate == s.rate && |Final(s, run).pcm| < FrameBytes(s.rate)
    decreases |run|
  {
    hide Next, Enabled;
    if run != [] {
      StepKeepsRate(s, run[0]);
      StepKeepsRemainder(s, run[0]);
      RemainderIsPartial(Next(s, run[0]), run[1..]);
    }
  }

  /** The framing loop makes progress for exactly the unset rate and the rates from 50 Hz up. */
  lemma FramingMakesProgressIff(rate: int)
    ensures FrameBytes(rate) > 0 <==> rate <= 0 || rate >= 50
    ensures FrameBytes(rate) % 2 == 0
    ensures forall pcm: seq<byte> :: 0 < rate < 50 ==> |pcm| >= FrameBytes(rate) && pcm[FrameBytes(rate)..] == pcm
  {
  }
}
