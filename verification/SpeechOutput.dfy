/**
 * What the synthesis stage pushes, exactly: whole audio frames, each word as soon as its audio has
 * gone out and not before, and every relayed frame once.
 */
module SpeechOutput {
  import opened Frames
  import opened Text
  import opened Tts
  import G = TtsGuarantees

  // ---- Frame sizes ----

  lemma Thousandth(x: int)
    ensures 1000 * (x / 1000) <= x < 1000 * (x / 1000) + 1000
  {
  }

  lemma FiftyFrames(k: int)
    requires k > 0
    ensures FrameBytes(50 * k) == 2 * k
  {
    Thousandth(1000 * k);
    assert 50 * k * 20 == 1000 * k;
  }

  /** A frame holds 20 ms of 16-bit samples: a fiftieth of a second's, rounded down to a whole sample. */
  lemma FrameIsTwentyMilliseconds(rate: int)
    ensures rate > 0 && rate % 50 == 0 ==> 50 * FrameBytes(rate) == 2 * rate
    ensures rate > 0 ==> 2 * rate - 100 < 50 * FrameBytes(rate) <= 2 * rate
    ensures rate <= 0 ==> FrameBytes(rate) == 960
  {
    if rate > 0 {
      Thousandth(rate * 20);
      if rate % 50 == 0 {
        assert rate == 50 * (rate / 50);
        FiftyFrames(rate / 50);
      }
    }
  }

  // ---- Words ----

  /** The frames of some words, in order. */
  function WordFrames(words: seq<PendingWord>, flushed: bool): seq<Envelope> {
    if words == [] then []
    else
      var w := words[0];
      [Envelope(WordTimestampFrame(Word(w.text, w.start, flushed)), Downstream)] + WordFrames(words[1..], flushed)
  }

  /** No word is kept back whose start has been reached. */
  predicate NoneOverdue(s: State) {
    s.pending != [] ==> s.pending[0].start > s.framesPushed as real
  }

  lemma FirstWord(words: seq<PendingWord>, k: nat, flushed: bool)
    requires 0 < k <= |words|
    ensures WordFrames(words[..k], flushed)
         == [Envelope(WordFrame(words[0], flushed), Downstream)] + WordFrames(words[1..][..k - 1], flushed)
  {
    assert words[..k][1..] == words[1..][..k - 1];
  }

  /** Exactly the leading words that are due are released. */
  lemma {:induction false} DueWordsAreReleased(s: State) returns (k: nat)
    ensures k <= |s.pending| && forall i :: 0 <= i < k ==> s.pending[i].start <= s.framesPushed as real
    ensures var t := EmitPendingWords(s);
      && t == s.(pending := s.pending[k..], pushed := s.pushed + WordFrames(s.pending[..k], false))
      && NoneOverdue(t)
    decreases |s.pending|
  {
    hide WordFrames;
    if s.pending != [] && s.pending[0].start <= s.framesPushed as real {
      var e := Envelope(WordFrame(s.pending[0], false), Downstream);
      var u := Push(s.(pending := s.pending[1..]), e.frame, Downstream);
      var rest := DueWordsAreReleased(u);
      k := rest + 1;
      FirstWord(s.pending, k, false);
      var words := WordFrames(u.pending[..rest], false);
      assert (s.pushed + [e]) + words == s.pushed + ([e] + words);
      assert u.pending[rest..] == s.pending[k..];
    } else {
      k := 0;
      NoFrames();
      assert s.pending[0..] == s.pending && s.pending[..0] == [] && s.pushed + [] == s.pushed;
    }
  }

  lemma NoFrames()
    ensures WordFrames([], false) == []
  {
  }

  /** A flush releases all of them, marked as flushed. */
  lemma {:induction false} AllWordsAreFlushed(s: State)
    ensures FlushWords(s) == s.(pending := [], pushed := s.pushed + WordFrames(s.pending, true))
    decreases |s.pending|
  {
    if s.pending != [] {
      var e := Envelope(WordFrame(s.pending[0], true), Downstream);
      var u := Push(s.(pending := s.pending[1..]), e.frame, Downstream);
      AllWordsAreFlushed(u);
      assert (s.pushed + [e]) + WordFrames(s.pending[1..], true) == s.pushed + ([e] + WordFrames(s.pending[1..], true));
    } else {
      assert s.pushed + [] == s.pushed;
    }
  }

  // ---- Audio ----

  /** Every audio frame pushed from `i` on is a whole one, and so many have been counted. */
  ghost predicate WholeFrames(s: State, t: State) {
    && s.pushed <= t.pushed
    && (forall i :: |s.pushed| <= i < |t.pushed| && t.pushed[i].frame.AudioFrame? ==>
          |t.pushed[i].frame.data| == FrameBytes(s.rate))
    && t.framesPushed == s.framesPushed + AudioFrames(t.pushed) - AudioFrames(s.pushed)
  }

  function AudioFrames(pushed: seq<Envelope>): int {
    if pushed == [] then 0
    else AudioFrames(pushed[..|pushed| - 1]) + (if pushed[|pushed| - 1].frame.AudioFrame? then 1 else 0)
  }

  lemma AudioFramesSnoc(p: seq<Envelope>, e: Envelope)
    ensures AudioFrames(p + [e]) == AudioFrames(p) + (if e.frame.AudioFrame? then 1 else 0)
  {
    assert (p + [e])[..|p|] == p;
  }

  lemma {:induction false} WordsAreNoAudio(p: seq<Envelope>, words: seq<PendingWord>, flushed: bool)
    ensures AudioFrames(p + WordFrames(words, flushed)) == AudioFrames(p)
    ensures forall e :: e in WordFrames(words, flushed) ==> !e.frame.AudioFrame?
    decreases |words|
  {
    if words == [] {
      assert p + [] == p;
    } else {
      var e := Envelope(WordFrame(words[0], flushed), Downstream);
      AudioFramesSnoc(p, e);
      WordsAreNoAudio(p + [e], words[1..], flushed);
      assert p + ([e] + WordFrames(words[1..], flushed)) == (p + [e]) + WordFrames(words[1..], flushed);
    }
  }

  lemma WholeFramesChain(s: State, t: State, u: State)
    requires WholeFrames(s, t) && WholeFrames(t, u) && t.rate == s.rate
    ensures WholeFrames(s, u)
  {
  }

  lemma EmitIsWhole(s: State)
    ensures WholeFrames(s, EmitPendingWords(s)) && NoneOverdue(EmitPendingWords(s))
  {
    hide EmitPendingWords, WordFrames, NoneOverdue, AudioFrames;
    var k := DueWordsAreReleased(s);
    var words := WordFrames(s.pending[..k], false);
    WordsAreNoAudio(s.pushed, s.pending[..k], false);
    assert forall i :: |s.pushed| <= i < |s.pushed + words| ==> (s.pushed + words)[i] in words;
  }

  lemma PushIsWhole(s: State, data: seq<byte>, pcm: seq<byte>)
    requires |data| == FrameBytes(s.rate)
    ensures WholeFrames(s, Push(s.(pcm := pcm, framesPushed := s.framesPushed + 1), AudioFrame(data), Downstream))
  {
    AudioFramesSnoc(s.pushed, Envelope(AudioFrame(data), Downstream));
  }

  /** Framing pushes whole frames only, counts each, and leaves no word behind that has become due. */
  lemma {:induction false} FramesAreWhole(s: State)
    requires s.Wf() && NoneOverdue(s)
    ensures WholeFrames(s, CutFrames(s)) && NoneOverdue(CutFrames(s))
    decreases |s.pcm|
  {
    hide WholeFrames, NoneOverdue, EmitPendingWords;
    var n := FrameBytes(s.rate);
    if |s.pcm| >= n {
      var t := Push(s.(pcm := s.pcm[n..], framesPushed := s.framesPushed + 1), AudioFrame(s.pcm[..n]), Downstream);
      PushIsWhole(s, s.pcm[..n], s.pcm[n..]);
      EmitIsWhole(t);
      WholeFramesChain(s, t, CutFrame(s));
      FramesAreWhole(CutFrame(s));
      WholeFramesChain(s, CutFrame(s), CutFrames(s));
    } else {
      NothingCut(s);
    }
  }

  lemma NothingCut(s: State)
    ensures WholeFrames(s, s)
  {
  }

  /** The last frame of a context is filled up with zero bytes to a whole one. */
  lemma LastFrameIsWhole(s: State)
    requires s.Wf() && |s.pcm| < FrameBytes(s.rate)
    ensures WholeFrames(s, PadLast(s))
  {
    if s.pcm != [] {
      var padded := s.pcm + Zeros(FrameBytes(s.rate) - |s.pcm|);
      assert padded[..FrameBytes(s.rate)] == padded;
      PushIsWhole(s, padded, []);
      assert padded[FrameBytes(s.rate)..] == [];
    }
  }

  // ---- Every frame the stage passes on ----

  /** Which frames are not passed on by the orchestrator: interrupts have gone ahead, and text is spoken. */
  predicate PassedOn(f: Frame) {
    !f.InterruptFrame? && !f.TextFrame? && !f.EndFrame?
  }

  /**
   * A command pushes its own frame once, unless it is an interrupt or text; ahead of the end of a response
   * comes the done of a turn in which the synthesizer was left nothing to do.
   */
  lemma RelayedExactly(s: State, cmd: Command, w: World)
    requires s.pendingEnd.None? && !cmd.env.frame.EndFrame?
    ensures var t := HandleCommand(s, cmd, w);
      var own := if PassedOn(cmd.env.frame) then [cmd.env] else [];
      || t.pushed == s.pushed + own
      || (cmd.env.frame.LLMResponseEndFrame?
          && t.pushed == s.pushed + [Envelope(TTSDoneFrame, Downstream)] + own && !t.textSent)
  {
    hide AddText, SpeakNow, CancelContext, OpenContext, Clear, SendText, Blank;
    assert cmd.env == Envelope(cmd.env.frame, cmd.env.dir);
    assert s.pushed + [] == s.pushed;
  }

  /** Events of any other context than the current one change nothing. */
  lemma StaleEventsAreIgnored(s: State, e: Event)
    requires s.Wf() && (s.ctx == "" || e.ctx != s.ctx)
    ensures HandleEvent(s, e) == s
  {
  }

  /** A done event of the current context plays the rest, flushes the words and reports the end of the turn once. */
  lemma DonePushesExactly(s: State)
    requires s.Wf() && s.ctx != "" && |s.pcm| < FrameBytes(s.rate)
    ensures var t, n := HandleEvent(s, Done(s.ctx)), FrameBytes(s.rate);
      var last := if s.pcm == [] then [] else [Envelope(AudioFrame(s.pcm + Zeros(n - |s.pcm|)), Downstream)];
      && t.pushed == s.pushed + last + WordFrames(s.pending, true) + [Envelope(TTSDoneFrame, Downstream)]
                     + (if s.pendingEnd.Some? then [s.pendingEnd.value.env] else [])
      && t.pcm == [] && t.pending == [] && !t.textSent && (t.stopped <==> s.stopped || s.pendingEnd.Some?)
  {
    var n := FrameBytes(s.rate);
    if s.pcm != [] {
      var padded := s.pcm + Zeros(n - |s.pcm|);
      assert padded[..n] == padded && padded[n..] == [];
    } else {
      assert s.pushed + [] == s.pushed;
    }
    var u := PadLast(s);
    AllWordsAreFlushed(u);
    hide PadLast, FlushWords;
    var v := u.pushed + WordFrames(u.pending, true) + [Envelope(TTSDoneFrame, Downstream)];
    assert v + [] == v;
  }

  // ---- Words are never late ----

  lemma EventLeavesNoneOverdue(s: State, e: Event)
    requires s.Wf() && NoneOverdue(s)
    ensures NoneOverdue(HandleEvent(s, e))
  {
    hide NoneOverdue, EmitPendingWords, CutFrames, FlushWords, PadLast;
    if s.ctx != "" && s.ctx == e.ctx {
      match e {
        case AudioChunk(_, data) =>
          PcmDoesNotMatter(s, s.pcm + data);
          FramesAreWhole(s.(pcm := s.pcm + data));
        case WordTimestamps(_, words) => EmitIsWhole(s.(pending := s.pending + words));
        case Done(_) =>
          AllWordsAreFlushed(PadLast(s));
          NothingPending(HandleEvent(s, e));
      }
    }
  }

  lemma PcmDoesNotMatter(s: State, pcm: seq<byte>)
    ensures NoneOverdue(s.(pcm := pcm)) == NoneOverdue(s)
  {
  }

  lemma NothingPending(s: State)
    requires s.pending == []
    ensures NoneOverdue(s)
  {
  }

  lemma CommandLeavesNoneOverdue(s: State, cmd: Command, w: World)
    requires NoneOverdue(s)
    ensures NoneOverdue(HandleCommand(s, cmd, w))
  {
    hide NoneOverdue, HandleCommand;
    WordsOfCommand(s, cmd, w);
    SameWords(s, HandleCommand(s, cmd, w));
  }

  /** The words waiting, and the audio they wait for, are the same, or no word waits. */
  predicate KeepsWords(s: State, t: State) {
    t.pending == [] || (t.pending == s.pending && t.framesPushed == s.framesPushed)
  }

  lemma SameWords(s: State, t: State)
    requires NoneOverdue(s) && KeepsWords(s, t)
    ensures NoneOverdue(t)
  {
  }

  lemma TalkKeepsWords(s: State, text: string, w: World)
    ensures KeepsWords(s, SendText(s, text, w)) && KeepsWords(s, FinishContext(s, w))
    ensures SendText(s, text, w).framesPushed == s.framesPushed && SendText(s, text, w).pending == s.pending
  {
  }

  lemma TextKeepsWords(s: State, text: string, w: World)
    ensures KeepsWords(s, AddText(s, text, w))
  {
    hide SendText, EndsWithPunctuation;
    TalkKeepsWords(s.(aggregation := s.aggregation + text), s.aggregation + text, w);
  }

  lemma FlushKeepsWords(s: State, w: World)
    ensures KeepsWords(s, FlushForEnd(s, w))
  {
    hide SendText, FinishContext, Blank;
    TalkKeepsWords(s, s.aggregation, w);
    var t := if Blank(s.aggregation) then s else SendText(s, s.aggregation, w).(aggregation := "");
    TalkKeepsWords(t, "", w);
  }

  lemma PromptKeepsWords(s: State, text: string, w: World)
    ensures KeepsWords(s, SpeakNow(s, text, w))
  {
    hide SendText, FinishContext;
    var t := OpenContext(s, w);
    TalkKeepsWords(t, text, w);
    TalkKeepsWords(SendText(t, text, w), "", w);
  }

  lemma EndKeepsWords(s: State, cmd: Command, w: World)
    ensures KeepsWords(s, HandleEnd(s, cmd, w))
  {
    hide FlushForEnd;
    FlushKeepsWords(s, w);
  }

  lemma ResponseKeepsWords(s: State, env: Envelope, w: World)
    ensures KeepsWords(s, EndResponse(s, env, w))
  {
    hide Blank;
  }

  lemma WordsOfCommand(s: State, cmd: Command, w: World)
    ensures KeepsWords(s, HandleCommand(s, cmd, w))
  {
    hide AddText, EndResponse, SpeakNow, HandleEnd;
    match cmd.env.frame
    case EndFrame(_) => EndKeepsWords(s, cmd, w);
    case LLMResponseEndFrame => ResponseKeepsWords(s, cmd.env, w);
    case TextFrame(text) => TextKeepsWords(s, text, w);
    case TTSSpeakFrame(text) => PromptKeepsWords(s, text, w);
    case _ =>
  }

  /** In every reachable state the next word waits for audio that has not gone out yet: none is late. */
  lemma {:induction false} WordsAreNeverLate(s: State, run: seq<Step>)
    requires s.Wf() && NoneOverdue(s) && G.ValidRun(s, run)
    ensures NoneOverdue(G.Final(s, run))
    decreases |run|
  {
    hide NoneOverdue, HandleEvent, HandleCommand;
    if run != [] {
      G.StepKeepsRate(s, run[0]);
      match run[0] {
        case Receive(e) => SameWords(s, Next(s, run[0]));
        case Consume =>
          var u := s.(events := s.events[1..]);
          SameWords(s, u);
          EventLeavesNoneOverdue(u, s.events[0]);
        case Execute(cmd, w) => CommandLeavesNoneOverdue(s, cmd, w);
      }
      WordsAreNeverLate(Next(s, run[0]), run[1..]);
    }
  }
}
