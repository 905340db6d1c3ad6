/**
 * The playback sink: a queue paced by a 20 ms tick, as functions on its state, and what every run
 * of it guarantees.
 */
module Playback {
  import opened Frames

  /** A frame sent upstream, with the number of bot audio frames already dequeued in the turn. */
  datatype Report = Report(frame: Frame, dequeued: nat)

  datatype State = State(
    queue: seq<Frame>,
    interrupted: bool,
    started: bool,
    finished: bool,        // the playback loop has returned after an EndFrame
    dequeued: nat,         // bot audio frames dequeued since the last start or speak frame
    up: seq<Report>,
    down: seq<Frame>)

  const INITIAL := State([], false, false, false, 0, [], [])

  /** The caller is gone: nothing that is queued needs to be heard. */
  predicate StopsImmediately(reason: string) {
    reason == "client_disconnected" || reason == "error"
  }

  function KeptFrames(q: seq<Frame>): seq<Frame> {
    if q == [] then []
    else if q[|q| - 1].IsInterruptible() then KeptFrames(q[..|q| - 1])
    else KeptFrames(q[..|q| - 1]) + [q[|q| - 1]]
  }

  function StartTurn(s: State): State {
    s.(interrupted := false, started := false, queue := [], dequeued := 0)
  }

  function HandleQueueFrame(s: State, f: Frame): State {
    match f
    case AudioFrame(_) => if s.interrupted then s else s.(queue := s.queue + [f])
    case WordTimestampFrame(_) => if s.interrupted then s else s.(queue := s.queue + [f])
    case TTSDoneFrame => if s.interrupted then s else s.(queue := s.queue + [f])
    case EndFrame(reason) =>
      if StopsImmediately(reason) then s.(queue := [f], interrupted := true) else s.(queue := s.queue + [f])
    case LLMResponseStartFrame => StartTurn(s)
    case TTSSpeakFrame(_) => StartTurn(s)
    case InterruptFrame => s.(interrupted := true, queue := KeptFrames(s.queue))
    case _ => s
  }

  function SendUp(s: State, f: Frame): State {
    s.(up := s.up + [Report(f, s.dequeued)])
  }

  function Broadcast(s: State, f: Frame): State {
    SendUp(s.(down := s.down + [f]), f)
  }

  /** Handles the head of the queue; the second result says that the tick ends here. */
  function PlayHead(s: State): (State, bool)
    requires s.queue != []
  {
    var f := s.queue[0];
    var t := s.(queue := s.queue[1..]);
    match f
    case AudioFrame(_) =>
      var u := if t.started then t else Broadcast(t.(started := true), BotStartedSpeakingFrame);
      (u.(dequeued := u.dequeued + 1), true)
    case WordTimestampFrame(_) => (SendUp(t, f), false)
    case TTSDoneFrame => (Broadcast(SendUp(t, f), BotStoppedSpeakingFrame), false)
    case EndFrame(_) => (t.(down := t.down + [f], finished := true), true)
    case _ => (t, false)
  }

  /** One tick: plays up to and including the next audio frame, or an EndFrame. */
  function Tick(s: State): State
    decreases |s.queue|
  {
    if s.queue == [] then s else
    var (t, over) := PlayHead(s);
    if over then t else Tick(t)
  }

  datatype Op = Enqueue(f: Frame) | TickNow

  function Next(s: State, op: Op): State {
    match op
    case Enqueue(f) => HandleQueueFrame(s, f)
    case TickNow => Tick(s)
  }

  /** The loop takes frames and ticks until a tick reports the EndFrame. */
  predicate ValidRun(s: State, run: seq<Op>)
    decreases |run|
  {
    run == [] || (!s.finished && ValidRun(Next(s, run[0]), run[1..]))
  }

  function Final(s: State, run: seq<Op>): State
    decreases |run|
  {
    if run == [] then s else Final(Next(s, run[0]), run[1..])
  }

  // ---- While interrupted ----

  ghost predicate OnlyKept(q: seq<Frame>) {
    forall i :: 0 <= i < |q| ==> !q[i].IsInterruptible()
  }

  lemma {:induction false} KeptFramesAreKept(q: seq<Frame>)
    ensures OnlyKept(KeptFrames(q))
    ensures forall f :: f in KeptFrames(q) ==> f in q
    decreases |q|
  {
    if q != [] {
      KeptFramesAreKept(q[..|q| - 1]);
    }
  }

  predicate Playable(f: Frame) {
    f.AudioFrame? || f.WordTimestampFrame? || f.TTSDoneFrame? || f.EndFrame?
  }

  /** The queue holds only frames it can play, and only uninterruptible ones while interrupted. */
  ghost predicate QueueInv(s: State) {
    && (forall f :: f in s.queue ==> Playable(f))
    && (s.interrupted ==> OnlyKept(s.queue))
  }

  lemma {:induction false} TickKeepsInv(s: State)
    requires QueueInv(s)
    ensures QueueInv(Tick(s)) && Tick(s).interrupted == s.interrupted
    decreases |s.queue|
  {
    if s.queue != [] && !PlayHead(s).1 {
      TickKeepsInv(PlayHead(s).0);
    }
  }

  lemma StepKeepsInv(s: State, op: Op)
    requires QueueInv(s)
    ensures QueueInv(Next(s, op))
  {
    if op.TickNow? {
      TickKeepsInv(s);
    } else {
      KeptFramesAreKept(s.queue);
    }
  }

  lemma {:induction false} RunKeepsInv(s: State, run: seq<Op>)
    requires QueueInv(s)
    ensures QueueInv(Final(s, run))
    decreases |run|
  {
    hide QueueInv;
    if run != [] {
      StepKeepsInv(s, run[0]);
      RunKeepsInv(Next(s, run[0]), run[1..]);
    }
  }

  /** A frame that begins a turn. */
  predicate BeginsTurn(f: Frame) {
    f.LLMResponseStartFrame? || f.TTSSpeakFrame?
  }

  predicate NoTurnBegins(run: seq<Op>) {
    forall i :: 0 <= i < |run| ==> !(run[i].Enqueue? && BeginsTurn(run[i].f))
  }

  lemma SilentTick(s: State)
    requires QueueInv(s) && s.interrupted
    ensures Tick(s).up == s.up && Tick(s).dequeued == s.dequeued && Tick(s).interrupted
  {
    if s.queue != [] {
      assert s.queue[0] in s.queue && Playable(s.queue[0]);
    }
  }

  /** After an interrupt, no bot audio is played and nothing is reported until the next turn begins. */
  lemma {:induction false} InterruptedIsSilent(s: State, run: seq<Op>)
    requires QueueInv(s) && s.interrupted && NoTurnBegins(run)
    ensures var t := Final(s, run);
      && t.interrupted && OnlyKept(t.queue)
      && t.dequeued == s.dequeued && t.up == s.up
    decreases |run|
  {
    if run != [] {
      assert NoTurnBegins(run[1..]);
      assert !(run[0].Enqueue? && BeginsTurn(run[0].f));
      StepKeepsInv(s, run[0]);
      if run[0].TickNow? {
        SilentTick(s);
      }
      InterruptedIsSilent(Next(s, run[0]), run[1..]);
    }
  }

  // ---- A queued EndFrame ----

  predicate HasEnd(q: seq<Frame>) {
    q != [] && (q[0].EndFrame? || HasEnd(q[1..]))
  }

  /** Audio frames ahead of the first EndFrame. */
  function AudioAhead(q: seq<Frame>): nat {
    if q == [] || q[0].EndFrame? then 0
    else (if q[0].AudioFrame? then 1 else 0) + AudioAhead(q[1..])
  }

  lemma {:induction false} EndStaysAhead(q: seq<Frame>, f: Frame)
    requires HasEnd(q)
    ensures HasEnd(q + [f]) && AudioAhead(q + [f]) == AudioAhead(q)
  {
    assert (q + [f])[0] == q[0];
    if !q[0].EndFrame? {
      assert (q + [f])[1..] == q[1..] + [f];
      EndStaysAhead(q[1..], f);
    }
  }

  lemma {:induction false} KeptFramesKeepsEnd(q: seq<Frame>)
    requires HasEnd(q)
    ensures HasEnd(KeptFrames(q)) && AudioAhead(KeptFrames(q)) == 0
    decreases |q|
  {
    var init, last := q[..|q| - 1], q[|q| - 1];
    assert q == init + [last];
    NoAudioIsKept(q);
    if HasEnd(init) {
      KeptFramesKeepsEnd(init);
      if !last.IsInterruptible() {
        EndStaysAhead(KeptFrames(init), last);
      }
    } else {
      OnlyLastEnds(init, last);
      EndAtLast(KeptFrames(init), last);
    }
  }

  lemma {:induction false} EndAtLast(q: seq<Frame>, last: Frame)
    requires last.EndFrame?
    ensures HasEnd(q + [last])
  {
    if q != [] {
      assert (q + [last])[1..] == q[1..] + [last];
      EndAtLast(q[1..], last);
    }
  }

  lemma {:induction false} OnlyLastEnds(init: seq<Frame>, last: Frame)
    requires HasEnd(init + [last]) && !HasEnd(init)
    ensures last.EndFrame?
  {
    if init != [] {
      assert (init + [last])[1..] == init[1..] + [last];
      OnlyLastEnds(init[1..], last);
    }
  }

  lemma NoAudioIsKept(q: seq<Frame>)
    ensures AudioAhead(KeptFrames(q)) == 0
  {
    KeptFramesAreKept(q);
    NoAudioMeansNoneAhead(KeptFrames(q));
  }

  lemma {:induction false} NoAudioMeansNoneAhead(q: seq<Frame>)
    requires OnlyKept(q)
    ensures AudioAhead(q) == 0
  {
    if q != [] {
      assert OnlyKept(q[1..]);
      NoAudioMeansNoneAhead(q[1..]);
    }
  }

  /** An arriving frame removes a queued EndFrame exactly if it begins a turn. */
  lemma EndSurvivesIff(s: State, f: Frame)
    requires HasEnd(s.queue)
    ensures HasEnd(HandleQueueFrame(s, f).queue) <==> !BeginsTurn(f)
    ensures !BeginsTurn(f) ==> AudioAhead(HandleQueueFrame(s, f).queue) <= AudioAhead(s.queue)
  {
    EndStaysAhead(s.queue, f);
    KeptFramesKeepsEnd(s.queue);
  }

  lemma {:induction false} TickApproachesEnd(s: State)
    requires HasEnd(s.queue) && !s.finished
    ensures var t := Tick(s);
      t.finished || (HasEnd(t.queue) && AudioAhead(t.queue) < AudioAhead(s.queue))
    decreases |s.queue|
  {
    if !PlayHead(s).1 {
      TickApproachesEnd(PlayHead(s).0);
    }
  }

  function Ticks(run: seq<Op>): nat {
    if run == [] then 0 else (if run[0].TickNow? then 1 else 0) + Ticks(run[1..])
  }

  /** A queued EndFrame leaves within one tick more than there are audio frames ahead of it, unless a turn begins. */
  lemma {:induction false} EndPlaysOut(s: State, run: seq<Op>)
    requires HasEnd(s.queue) && !s.finished && NoTurnBegins(run) && ValidRun(s, run)
    ensures !Final(s, run).finished ==> HasEnd(Final(s, run).queue) && Ticks(run) <= AudioAhead(s.queue)
    ensures Ticks(run) <= AudioAhead(s.queue) + 1
    decreases |run|
  {
    if run != [] {
      assert NoTurnBegins(run[1..]);
      var t := Next(s, run[0]);
      match run[0] {
        case Enqueue(f) =>
          assert !BeginsTurn(f);
          EndSurvivesIff(s, f);
        case TickNow => TickApproachesEnd(s);
      }
      if t.finished {
        assert run[1..] == [];
      } else {
        EndPlaysOut(t, run[1..]);
      }
    }
  }

  /** A turn that begins behind a queued EndFrame drops it: no number of ticks brings it out. */
  lemma {:induction false} EndCanBeDropped(s: State, f: Frame, ticks: nat)
    requires BeginsTurn(f) && !s.finished
    ensures var run := [Enqueue(f)] + seq(ticks, _ => TickNow);
      ValidRun(s, run) && !Final(s, run).finished && Final(s, run).down == s.down
  {
    var run := [Enqueue(f)] + seq(ticks, _ => TickNow);
    assert run[1..] == seq(ticks, _ => TickNow);
    EmptyTicks(StartTurn(s), ticks);
  }

  lemma {:induction false} EmptyTicks(s: State, ticks: nat)
    requires s.queue == [] && !s.finished
    ensures var run := seq(ticks, _ => TickNow); ValidRun(s, run) && Final(s, run) == s
  {
    if ticks > 0 {
      assert seq(ticks, _ => TickNow)[1..] == seq(ticks - 1, _ => TickNow);
      EmptyTicks(s, ticks - 1);
    }
  }
}
