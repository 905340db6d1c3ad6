/**
 * The speech synthesis stage. Its orchestrator owns all the state: it collects text into
 * sentences, drives the remote synthesizer, cuts the audio it returns into 20 ms frames, releases
 * words when the audio has reached them, and holds back an EndFrame until synthesis is done.
 */
module Tts {
  import opened Frames
  import opened Text

  const DEFAULT_OUTPUT_SAMPLE_RATE := 24000
  const FRAME_MILLISECONDS := 20
  const BYTES_PER_SAMPLE := 2
  const EVENT_CAPACITY := 100

  function SamplesPerFrame(rate: int): (n: nat) {
    (if rate <= 0 then DEFAULT_OUTPUT_SAMPLE_RATE else rate) * FRAME_MILLISECONDS / 1000
  }

  function FrameBytes(rate: int): nat {
    SamplesPerFrame(rate) * BYTES_PER_SAMPLE
  }

  datatype PendingWord = PendingWord(text: string, start: real)

  datatype Event =
    | AudioChunk(ctx: string, data: seq<byte>)
    | WordTimestamps(ctx: string, words: seq<PendingWord>)
    | Done(ctx: string)

  /** What has been written to the synthesizer's connection. */
  datatype Wire = Synthesize(ctx: string, text: string) | Finish(ctx: string) | Cancel(ctx: string)

  /** A frame relayed to the orchestrator; `done` names the channel a relayed EndFrame waits on. */
  datatype Command = Command(env: Envelope, done: Option<nat>)

  datatype Deferred = Deferred(env: Envelope, done: Option<nat>)

  /**
   * What the world answers while one command is handled: what a phonetic filter, if there is one,
   * makes of the text, whether the write of the text and the other write succeed, and the number
   * drawn for a new context.
   */
  datatype World = World(filtered: Option<string>, sends: bool, writes: bool, draw: nat) {
    /** The text as it is to be pronounced. */
    function Speakable(text: string): string {
      if filtered.Some? then filtered.value else text
    }

    /** The text goes out: a filter has not left it empty, and the write succeeds. */
    predicate Speaks() {
      !(filtered.Some? && TrimSpace(filtered.value) == "") && sends
    }
  }

  datatype State = State(
    rate: int,
    aggregation: string,
    ctx: string,
    active: string,
    pcm: seq<byte>,
    pending: seq<PendingWord>,
    framesPushed: nat,            // audio time pushed in this context, in 20 ms frames
    textSent: bool,
    pendingEnd: Option<Deferred>,
    stopped: bool,
    events: seq<Event>,
    pushed: seq<Envelope>,        // everything pushed to a neighbour, oldest first
    wire: seq<Wire>,
    closed: seq<nat>)             // done channels closed
  {
    predicate Wf() {
      FrameBytes(rate) > 0
    }
  }

  function Push(s: State, frame: Frame, dir: Direction): State {
    s.(pushed := s.pushed + [Envelope(frame, dir)])
  }

  function Close(s: State, done: Option<nat>): State {
    if done.Some? then s.(closed := s.closed + [done.value]) else s
  }

  function ContextId(draw: nat): string {
    "ctx-" + Decimal(draw)
  }

  // ---- Audio and words ----

  function WordFrame(w: PendingWord, flushed: bool): Frame {
    WordTimestampFrame(Word(w.text, w.start, flushed))
  }

  /** Releases the leading words whose start has been reached. */
  function EmitPendingWords(s: State): (t: State)
    ensures t.pcm == s.pcm && t.rate == s.rate
    decreases |s.pending|
  {
    if s.pending != [] && s.pending[0].start <= s.framesPushed as real then
      EmitPendingWords(Push(s.(pending := s.pending[1..]), WordFrame(s.pending[0], false), Downstream))
    else
      s
  }

  /** One iteration of the framing loop. */
  function CutFrame(s: State): State
    requires |s.pcm| >= FrameBytes(s.rate)
  {
    var n := FrameBytes(s.rate);
    var t := s.(pcm := s.pcm[n..], framesPushed := s.framesPushed + 1);
    EmitPendingWords(Push(t, AudioFrame(s.pcm[..n]), Downstream))
  }

  function CutFrames(s: State): State
    requires s.Wf()
    decreases |s.pcm|
  {
    if |s.pcm| >= FrameBytes(s.rate) then
      CutFrames(CutFrame(s))
    else
      s
  }

  function Zeros(n: nat): seq<byte> {
    seq(n, _ => 0)
  }

  /** Pads the rest of the audio to one frame and pushes it. */
  function PadLast(s: State): State
    requires s.Wf()
  {
    if s.pcm == [] then s else
    var n := FrameBytes(s.rate);
    var padded := if |s.pcm| < n then s.pcm + Zeros(n - |s.pcm|) else s.pcm;
    Push(s.(pcm := padded[n..], framesPushed := s.framesPushed + 1), AudioFrame(padded[..n]), Downstream)
  }

  function FlushWords(s: State): (t: State)
    decreases |s.pending|
  {
    if s.pending == [] then s else
    FlushWords(Push(s.(pending := s.pending[1..]), WordFrame(s.pending[0], true), Downstream))
  }

  // ---- Events ----

  function Forward(s: State, d: Deferred): State {
    Close(s.(pushed := s.pushed + [d.env], pendingEnd := None, stopped := true, active := ""), d.done)
  }

  function HandleEvent(s: State, e: Event): State
    requires s.Wf()
  {
    if s.ctx == "" || s.ctx != e.ctx then s else
    match e
    case AudioChunk(_, data) => CutFrames(s.(pcm := s.pcm + data))
    case WordTimestamps(_, words) => EmitPendingWords(s.(pending := s.pending + words))
    case Done(_) =>
      var t := Push(FlushWords(PadLast(s)), TTSDoneFrame, Downstream).(textSent := false);
      if t.pendingEnd.Some? then Forward(t, t.pendingEnd.value) else t
  }

  // ---- Commands ----

  /** `t` differs from `s` only in its dealings with the synthesizer: nothing pushed, closed or decided. */
  predicate OnlyTalks(s: State, t: State) {
    && t.rate == s.rate && t.pushed == s.pushed && t.closed == s.closed
    && t.pendingEnd == s.pendingEnd && t.stopped == s.stopped
  }

  function Clear(s: State): (t: State)
    ensures OnlyTalks(s, t) && t.events == s.events && t.wire == s.wire
  {
    s.(active := "", aggregation := "", ctx := "", pcm := [], pending := [], framesPushed := 0, textSent := false)
  }

  function SendText(s: State, text: string, w: World): (t: State)
    ensures OnlyTalks(s, t) && t.ctx == s.ctx && t.active == s.active && t.pcm == s.pcm && t.events == s.events
  {
    if w.Speaks() then s.(wire := s.wire + [Synthesize(s.ctx, w.Speakable(text))], textSent := true) else s
  }

  /** Tells the synthesizer that the context is complete; without it no done event is owed. */
  function FinishContext(s: State, w: World): (t: State)
    ensures OnlyTalks(s, t) && t.ctx == s.ctx && t.active == s.active && t.pcm == s.pcm && t.events == s.events
    ensures t.textSent ==> t.ctx != "" && t.wire != [] && t.wire[|t.wire| - 1] == Finish(t.ctx)
  {
    if s.ctx != "" && w.writes then s.(wire := s.wire + [Finish(s.ctx)]) else s.(textSent := false)
  }

  function CancelContext(s: State, w: World): (t: State)
    ensures OnlyTalks(s, t)
  {
    if s.ctx != "" && w.writes then s.(wire := s.wire + [Cancel(s.ctx)]) else s
  }

  /** Clears everything, drops the queued events and opens a fresh context. */
  function OpenContext(s: State, w: World): (t: State)
    ensures OnlyTalks(s, t) && t.active == t.ctx != "" && t.events == [] && t.pcm == []
  {
    Clear(s).(events := [], ctx := ContextId(w.draw), active := ContextId(w.draw))
  }

  function FlushForEnd(s: State, w: World): State {
    var t := if Blank(s.aggregation) then s else SendText(s, s.aggregation, w).(aggregation := "");
    if t.textSent then FinishContext(t, w) else t
  }

  function HandleEnd(s: State, cmd: Command, w: World): State {
    if s.pendingEnd.Some? then Close(s, cmd.done) else
    var t := FlushForEnd(s, w);
    var d := Deferred(cmd.env, cmd.done);
    if t.textSent then t.(pendingEnd := Some(d)) else Forward(t, d)
  }

  /** A piece of text: spoken once the text collected so far ends a sentence. */
  function AddText(s: State, text: string, w: World): (t: State)
    ensures OnlyTalks(s, t) && t.ctx == s.ctx && t.active == s.active && t.pcm == s.pcm && t.events == s.events
  {
    var t := s.(aggregation := s.aggregation + text);
    if EndsWithPunctuation(t.aggregation) then SendText(t, t.aggregation, w).(aggregation := "") else t
  }

  /** The end of a response: the rest of the text is spoken, or a turn that spoke nothing is closed here. */
  function EndResponse(s: State, env: Envelope, w: World): (t: State)
    ensures OnlyTalks(s, t.(pushed := s.pushed)) && t.ctx == s.ctx && t.active == s.active && t.events == s.events
    ensures t.pushed == s.pushed + [env] || t.pushed == s.pushed + [Envelope(TTSDoneFrame, Downstream)] + [env]
  {
    var t := if Blank(s.aggregation) then s else SendText(s, s.aggregation, w);
    var u := if t.textSent then FinishContext(t, w) else Push(t, TTSDoneFrame, Downstream);
    u.(aggregation := "", pcm := [], pushed := u.pushed + [env])
  }

  /** A prompt of its own: a fresh context holding just `text`. */
  function SpeakNow(s: State, text: string, w: World): (t: State)
    ensures OnlyTalks(s, t) && t.active == t.ctx != "" && t.events == [] && t.pcm == []
  {
    var t := SendText(OpenContext(s, w), text, w);
    if w.Speaks() then FinishContext(t, w) else t
  }

  function HandleCommand(s: State, cmd: Command, w: World): State {
    var f, dir := cmd.env.frame, cmd.env.dir;
    if f.EndFrame? then HandleEnd(s, cmd, w)
    else if s.pendingEnd.Some? then s
    else match f
      case InterruptFrame => Clear(CancelContext(s, w)).(events := [])
      case LLMResponseStartFrame => Push(OpenContext(s, w), f, dir)
      case TextFrame(text) => AddText(s, text, w)
      case LLMResponseEndFrame => EndResponse(s, cmd.env, w)
      case TTSSpeakFrame(text) => Push(SpeakNow(s, text, w), f, dir)
      case _ => Push(s, f, dir)
  }

  // ---- Steps of the stage ----

  datatype Step =
    | Receive(event: Event)              // the reader queues an event
    | Consume                            // the orchestrator takes the oldest queued event
    | Execute(cmd: Command, world: World)

  predicate Enabled(s: State, step: Step) {
    match step
    case Receive(_) => |s.events| < EVENT_CAPACITY
    case Consume => !s.stopped && s.events != []
    case Execute(cmd, _) => !s.stopped && Commanded(cmd.env.frame)
  }

  /** Frames the stage relays to the orchestrator; the others it passes on by itself. */
  predicate Commanded(f: Frame) {
    !(f.TTSDoneFrame? || f.BotStartedSpeakingFrame? || f.BotStoppedSpeakingFrame? || f.WordTimestampFrame?)
  }

  function Next(s: State, step: Step): State
    requires s.Wf() && Enabled(s, step)
  {
    match step
    case Receive(e) => s.(events := s.events + [e])
    case Consume => HandleEvent(s.(events := s.events[1..]), s.events[0])
    case Execute(cmd, w) => HandleCommand(s, cmd, w)
  }

  function Initial(rate: int): State {
    State(rate, "", "", "", [], [], 0, false, None, false, [], [], [], [])
  }

  // ---- What the audio and word loops leave alone ----

  /** `t` differs from `s` in the audio and word fields and in what has been pushed, and only by pushing more. */
  ghost predicate OnlyPlays(s: State, t: State) {
    && t == s.(pcm := t.pcm, pending := t.pending, framesPushed := t.framesPushed, pushed := t.pushed)
    && s.pushed <= t.pushed
    && (forall i :: |s.pushed| <= i < |t.pushed| ==>
          (t.pushed[i].frame.AudioFrame? || t.pushed[i].frame.WordTimestampFrame?) && t.pushed[i].dir.Downstream?)
  }

  lemma {:induction false} EmitKeeps(s: State)
    ensures OnlyPlays(s, EmitPendingWords(s))
    decreases |s.pending|
  {
    if s.pending != [] && s.pending[0].start <= s.framesPushed as real {
      EmitKeeps(Push(s.(pending := s.pending[1..]), WordFrame(s.pending[0], false), Downstream));
    }
  }

  lemma {:induction false} CutFramesKeeps(s: State)
    requires s.Wf()
    ensures OnlyPlays(s, CutFrames(s)) && |CutFrames(s).pcm| < FrameBytes(s.rate)
    decreases |s.pcm|
  {
    if |s.pcm| >= FrameBytes(s.rate) {
      var n := FrameBytes(s.rate);
      EmitKeeps(Push(s.(pcm := s.pcm[n..], framesPushed := s.framesPushed + 1), AudioFrame(s.pcm[..n]), Downstream));
      CutFramesKeeps(CutFrame(s));
    }
  }

  lemma {:induction false} FlushKeeps(s: State)
    ensures OnlyPlays(s, FlushWords(s)) && FlushWords(s).pending == [] && FlushWords(s).pcm == s.pcm
    decreases |s.pending|
  {
    if s.pending != [] {
      FlushKeeps(Push(s.(pending := s.pending[1..]), WordFrame(s.pending[0], true), Downstream));
    }
  }
}
