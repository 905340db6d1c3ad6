/** The synthesis stage in the form it runs in: one object whose fields the orchestrator updates. */
module TtsProcessor {
  import opened Frames
  import opened Text
  import Tts
  import TtsGuarantees

  class TtsProcessor {
    var outputSampleRate: int
    var currentAggregation: string
    var currentContextId: string
    var activeContextId: string
    var pcmBuffer: seq<byte>
    var pendingWords: seq<Tts.PendingWord>
    var framesPushed: nat
    var cartesiaTextSent: bool
    var pendingEnd: Option<Tts.Deferred>
    var stopped: bool
    var ttsEvents: seq<Tts.Event>
    var pushed: seq<Envelope>
    var wire: seq<Tts.Wire>
    var closed: seq<nat>

    ghost function Get(): Tts.State
      reads this
    {
      Tts.State(outputSampleRate, currentAggregation, currentContextId, activeContextId, pcmBuffer, pendingWords,
                framesPushed, cartesiaTextSent, pendingEnd, stopped, ttsEvents, pushed, wire, closed)
    }

    /** The rate gives frames a size, and a held-back EndFrame is held back properly. */
    ghost predicate Valid()
      reads this
    {
      Get().Wf() && TtsGuarantees.DeferralInv(Get())
    }

    constructor (rate: int)
      ensures Get() == Tts.Initial(rate)
      ensures Valid() <==> rate <= 0 || rate >= 50
    {
      outputSampleRate := rate;
      currentAggregation, currentContextId, activeContextId := "", "", "";
      pcmBuffer, pendingWords, framesPushed := [], [], 0;
      cartesiaTextSent, pendingEnd, stopped := false, None, false;
      ttsEvents, pushed, wire, closed := [], [], [], [];
    }

    method PushFrame(frame: Frame, dir: Direction)
      modifies this
      ensures Get() == Tts.Push(old(Get()), frame, dir)
    {
      pushed := pushed + [Envelope(frame, dir)];
    }

    method EmitPendingWords()
      modifies this
      ensures Get() == Tts.EmitPendingWords(old(Get()))
    {
      while pendingWords != [] && pendingWords[0].start <= framesPushed as real
        invariant Tts.EmitPendingWords(Get()) == Tts.EmitPendingWords(old(Get()))
        decreases |pendingWords|
      {
        var w := pendingWords[0];
        pendingWords := pendingWords[1..];
        PushFrame(WordTimestampFrame(Word(w.text, w.start, false)), Downstream);
      }
    }

    method NextPCMFrame() returns (frame: Option<seq<byte>>)
      modifies this
      ensures |old(pcmBuffer)| < Tts.FrameBytes(outputSampleRate) ==> frame.None? && Get() == old(Get())
      ensures |old(pcmBuffer)| >= Tts.FrameBytes(outputSampleRate) ==>
        frame.Some? && old(pcmBuffer) == frame.value + pcmBuffer
        && |frame.value| == Tts.FrameBytes(outputSampleRate)
        && Get() == old(Get()).(pcm := pcmBuffer)
    {
      var n := Tts.FrameBytes(outputSampleRate);
      if |pcmBuffer| < n {
        return None;
      }
      frame := Some(pcmBuffer[..n]);
      pcmBuffer := pcmBuffer[n..];
    }

    method HandleAudioChunkData(data: seq<byte>)
      requires Get().Wf()
      modifies this
      ensures Get() == if old(currentContextId) == "" then old(Get())
                       else Tts.CutFrames(old(Get()).(pcm := old(pcmBuffer) + data))
    {
      hide Tts.EmitPendingWords;
      if currentContextId == "" {
        return;
      }
      pcmBuffer := pcmBuffer + data;
      ghost var start := Get();
      var n := Tts.FrameBytes(outputSampleRate);
      while |pcmBuffer| >= n
        invariant outputSampleRate == old(outputSampleRate)
        invariant Tts.CutFrames(Get()) == Tts.CutFrames(start)
        decreases |pcmBuffer|
      {
        ghost var before := Get();
        var frame := NextPCMFrame();
        assert frame.value == before.pcm[..n] && pcmBuffer == before.pcm[n..];
        PushFrame(AudioFrame(frame.value), Downstream);
        framesPushed := framesPushed + 1;
        EmitPendingWords();
        assert Get() == Tts.CutFrame(before);
      }
    }

    method PadBuffer()
      modifies this`pcmBuffer
      ensures var n := Tts.FrameBytes(outputSampleRate);
        pcmBuffer == if |old(pcmBuffer)| < n then old(pcmBuffer) + Tts.Zeros(n - |old(pcmBuffer)|) else old(pcmBuffer)
    {
      var n := Tts.FrameBytes(outputSampleRate);
      while |pcmBuffer| < n
        invariant |old(pcmBuffer)| <= |pcmBuffer| && (|pcmBuffer| <= n || pcmBuffer == old(pcmBuffer))
        invariant pcmBuffer == old(pcmBuffer) + Tts.Zeros(|pcmBuffer| - |old(pcmBuffer)|)
      {
        pcmBuffer := pcmBuffer + [0];
      }
    }

    method PushRemainingAudioFrames()
      requires Get().Wf()
      modifies this
      ensures Get() == if old(currentContextId) == "" then old(Get()) else Tts.FlushWords(Tts.PadLast(old(Get())))
    {
      hide Tts.PadLast, Tts.FlushWords;
      if currentContextId == "" {
        return;
      }
      PushLastFrame();
      FlushWords();
    }

    /** What is left of the audio goes out as one frame, padded with silence. */
    method PushLastFrame()
      requires Get().Wf()
      modifies this
      ensures Get() == Tts.PadLast(old(Get()))
    {
      if |pcmBuffer| > 0 {
        PadBuffer();
        var frame := NextPCMFrame();
        PushFrame(AudioFrame(frame.value), Downstream);
        framesPushed := framesPushed + 1;
      }
    }

    method FlushWords()
      modifies this
      ensures Get() == Tts.FlushWords(old(Get()))
    {
      while pendingWords != []
        invariant Tts.FlushWords(Get()) == Tts.FlushWords(old(Get()))
        decreases |pendingWords|
      {
        var w := pendingWords[0];
        pendingWords := pendingWords[1..];
        PushFrame(WordTimestampFrame(Word(w.text, w.start, true)), Downstream);
      }
    }

    method Stop()
      modifies this
      ensures Get() == old(Get()).(stopped := true, active := "")
    {
      stopped := true;
      activeContextId := "";
    }

    method Close(done: Option<nat>)
      modifies this
      ensures Get() == Tts.Close(old(Get()), done)
    {
      if done.Some? {
        closed := closed + [done.value];
      }
    }

    method ForwardPendingEnd() returns (forwarded: bool)
      modifies this
      ensures forwarded == old(pendingEnd).Some?
      ensures Get() == if forwarded then Tts.Forward(old(Get()), old(pendingEnd).value) else old(Get())
    {
      if pendingEnd.None? {
        return false;
      }
      var d := pendingEnd.value;
      PushFrame(d.env.frame, d.env.dir);
      Close(d.done);
      pendingEnd := None;
      Stop();
      return true;
    }

    /** Handles one synthesizer event; `done` reports that it completed the current context. */
    method HandleTTSEvent(e: Tts.Event) returns (exit: bool)
      requires Valid() && !stopped
      modifies this
      ensures Get() == Tts.HandleEvent(old(Get()), e)
      ensures Valid() && exit == stopped
      ensures exit <==> old(pendingEnd).Some? && e == Tts.Done(old(currentContextId))
      ensures exit ==> pushed != [] && pushed[|pushed| - 1] == old(pendingEnd).value.env
    {
      TtsGuarantees.EventKeepsDeferral(Get(), e);
      TtsGuarantees.EventKeepsRest(Get(), e);
      exit := false;
      if currentContextId == "" || currentContextId != e.ctx {
        return;
      }
      match e
      case AudioChunk(_, data) =>
        HandleAudioChunkData(data);
        Tts.CutFramesKeeps(old(Get()).(pcm := old(pcmBuffer) + data));
      case WordTimestamps(_, words) =>
        pendingWords := pendingWords + words;
        EmitPendingWords();
        Tts.EmitKeeps(old(Get()).(pending := old(pendingWords) + words));
      case Done(_) =>
        PushRemainingAudioFrames();
        Tts.FlushKeeps(Tts.PadLast(old(Get())));
        PushFrame(TTSDoneFrame, Downstream);
        cartesiaTextSent := false;
        exit := ForwardPendingEnd();
    }

    method ClearTTSState()
      modifies this
      ensures Get() == Tts.Clear(old(Get()))
    {
      activeContextId, currentAggregation, currentContextId := "", "", "";
      pcmBuffer, pendingWords, framesPushed, cartesiaTextSent := [], [], 0, false;
    }

    method SendTextToTTS(text: string, w: Tts.World) returns (ok: bool)
      modifies this`wire
      ensures ok == w.Speaks()
      ensures wire == if ok then old(wire) + [Tts.Synthesize(currentContextId, w.Speakable(text))] else old(wire)
    {
      var speakable := text;
      if w.filtered.Some? {
        speakable := w.filtered.value;
        if TrimSpace(speakable) == "" {
          return false;
        }
      }
      if !w.sends {
        return false;
      }
      wire := wire + [Tts.Synthesize(currentContextId, speakable)];
      return true;
    }

    method ResetTTSContext(w: Tts.World) returns (ok: bool)
      modifies this`wire
      ensures ok == (currentContextId != "" && w.writes)
      ensures wire == if ok then old(wire) + [Tts.Finish(currentContextId)] else old(wire)
    {
      if currentContextId == "" {
        return false;
      }
      if w.writes {
        wire := wire + [Tts.Finish(currentContextId)];
      }
      return w.writes;
    }

    /** Sends text, and remembers that the synthesizer owes a done event for it. */
    method Speak(text: string, w: Tts.World) returns (ok: bool)
      modifies this
      ensures ok == w.Speaks() && Get() == Tts.SendText(old(Get()), text, w)
    {
      ok := SendTextToTTS(text, w);
      if ok {
        cartesiaTextSent := true;
      }
    }

    /** Completes the context; if that fails, no done event is owed. */
    method FinishContext(w: Tts.World)
      modifies this
      ensures Get() == Tts.FinishContext(old(Get()), w)
    {
      var ok := ResetTTSContext(w);
      if !ok {
        cartesiaTextSent := false;
      }
    }

    method CancelTTSContext(w: Tts.World)
      modifies this
      ensures Get() == Tts.CancelContext(old(Get()), w)
    {
      if currentContextId != "" && w.writes {
        wire := wire + [Tts.Cancel(currentContextId)];
      }
    }

    method FlushForEnd(w: Tts.World)
      modifies this
      ensures Get() == Tts.FlushForEnd(old(Get()), w)
    {
      hide Tts.SendText, Tts.FinishContext;
      hide Blank;
      if !Blank(currentAggregation) {
        var _ := Speak(currentAggregation, w);
        currentAggregation := "";
      }
      if cartesiaTextSent {
        FinishContext(w);
      }
    }

    method HandleEnd(cmd: Tts.Command, w: Tts.World) returns (exit: bool)
      requires !stopped
      modifies this
      ensures Get() == Tts.HandleEnd(old(Get()), cmd, w)
      ensures exit == stopped
    {
      if pendingEnd.Some? {
        Close(cmd.done);
        return false;
      }
      FlushForEnd(w);
      if cartesiaTextSent {
        pendingEnd := Some(Tts.Deferred(cmd.env, cmd.done));
        return false;
      }
      PushFrame(cmd.env.frame, cmd.env.dir);
      Close(cmd.done);
      Stop();
      return true;
    }

    method OpenContext(w: Tts.World)
      modifies this
      ensures Get() == Tts.OpenContext(old(Get()), w)
    {
      ClearTTSState();
      ttsEvents := [];
      currentContextId := Tts.ContextId(w.draw);
      activeContextId := currentContextId;
    }

    method AddText(text: string, w: Tts.World)
      modifies this
      ensures Get() == Tts.AddText(old(Get()), text, w)
    {
      hide Tts.SendText, Tts.FinishContext;
      currentAggregation := currentAggregation + text;
      if EndsWithPunctuation(currentAggregation) {
        var _ := Speak(currentAggregation, w);
        currentAggregation := "";
      }
    }

    /** The end of a response: speaks what is left of the text, or closes a turn that spoke nothing. */
    method FlushResponse(env: Envelope, w: Tts.World)
      modifies this
      ensures Get() == Tts.EndResponse(old(Get()), env, w)
    {
      hide Tts.SendText, Tts.FinishContext;
      hide Blank, EndsWithPunctuation, Tts.ContextId;
      if !Blank(currentAggregation) {
        var _ := Speak(currentAggregation, w);
      }
      if cartesiaTextSent {
        FinishContext(w);
      } else {
        PushFrame(TTSDoneFrame, Downstream);
      }
      currentAggregation := "";
      pcmBuffer := [];
      PushFrame(env.frame, env.dir);
    }

    /** A prompt of its own: a fresh context holding just `text`. */
    method SpeakNow(text: string, w: Tts.World)
      modifies this
      ensures Get() == Tts.SpeakNow(old(Get()), text, w)
    {
      hide Tts.SendText, Tts.FinishContext;
      OpenContext(w);
      var ok := Speak(text, w);
      if ok {
        FinishContext(w);
      }
    }

    method HandleCommand(cmd: Tts.Command, w: Tts.World) returns (exit: bool)
      requires Valid() && !stopped
      modifies this
      ensures Get() == Tts.HandleCommand(old(Get()), cmd, w)
      ensures Valid() && exit == stopped
      ensures old(pendingEnd).Some? ==>
        !exit && Get() == if cmd.env.frame.EndFrame? then Tts.Close(old(Get()), cmd.done) else old(Get())
    {
      TtsGuarantees.CommandKeepsDeferral(Get(), cmd, w);
      TtsGuarantees.CommandKeepsRate(Get(), cmd, w);
      if pendingEnd.Some? {
        TtsGuarantees.CommandsAreShutOut(Get(), cmd, w);
      }
      hide Tts.AddText, Tts.EndResponse, Tts.SpeakNow, Tts.HandleEnd, Tts.OpenContext, Tts.Clear, Tts.CancelContext;
      exit := false;
      var dir := cmd.env.dir;
      match cmd.env.frame {
        case EndFrame(_) =>
          exit := HandleEnd(cmd, w);
        case InterruptFrame =>
          if pendingEnd.None? {
            CancelTTSContext(w);
            ClearTTSState();
            ttsEvents := [];
          }
        case LLMResponseStartFrame =>
          if pendingEnd.None? {
            OpenContext(w);
            PushFrame(cmd.env.frame, dir);
          }
        case TextFrame(text) =>
          if pendingEnd.None? {
            AddText(text, w);
          }
        case LLMResponseEndFrame =>
          if pendingEnd.None? {
            FlushResponse(cmd.env, w);
          }
        case TTSSpeakFrame(text) =>
          if pendingEnd.None? {
            SpeakNow(text, w);
            PushFrame(cmd.env.frame, dir);
          }
        case _ =>
          if pendingEnd.None? {
            PushFrame(cmd.env.frame, dir);
          }
      }
    }
  }
}
