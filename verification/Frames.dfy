/** Frames, envelopes and messages: the values that travel through the call pipeline. */
module Frames {

  newtype byte = x: int | 0 <= x < 256

  datatype Option<+T> = None | Some(value: T)

  datatype ToolCall = ToolCall(id: string, kind: string, name: string, arguments: string)

  datatype Message = Message(role: string, content: string, toolCalls: seq<ToolCall>, toolCallID: string)

  /**
   * The start time of a word is kept in its frame, in units of one 20 ms audio frame, together
   * with whether the word left in the flush that follows a "done" event. Nothing reads either
   * field; they let the timing guarantee be stated about the frame that reaches the far end.
   */
  datatype Word = Word(text: string, start: real, flushed: bool)

  datatype Frame =
    | AudioFrame(data: seq<byte>)
    | TextFrame(text: string)
    | InterruptFrame
    | LLMResponseStartFrame
    | LLMResponseEndFrame
    | TranscriptFrame(text: string, isFinal: bool, responseID: int)
    | EndFrame(reason: string)
    | WordTimestampFrame(word: Word)
    | TTSDoneFrame
    | TTSSpeakFrame(text: string)
    | BotStartedSpeakingFrame
    | BotStoppedSpeakingFrame
    | LLMMessagesFrame(messages: seq<Message>)
    | ErrorFrame(err: string, fatal: bool)
    | LLMMessagesAppendFrame(messages: seq<Message>, runLLM: bool)
    | FunctionCallInProgressFrame(name: string, toolCallID: string, arguments: string, rawArguments: string)
    | FunctionCallResultFrame(name: string, toolCallID: string, arguments: string, rawArguments: string,
                              result: string, runLLM: bool)
  {
    predicate IsSystem() {
      InterruptFrame? || ErrorFrame?
    }

    /** False for the frames that must survive the purge an interrupt performs. */
    predicate IsInterruptible() {
      !(InterruptFrame? || EndFrame? || ErrorFrame? || FunctionCallInProgressFrame? || FunctionCallResultFrame?)
    }
  }

  datatype Direction = Downstream | Upstream

  datatype Envelope = Envelope(frame: Frame, dir: Direction)

  /** The envelopes that survive a purge, in order. */
  function Kept(s: seq<Envelope>): seq<Envelope> {
    if s == [] then []
    else if s[|s| - 1].frame.IsInterruptible() then Kept(s[..|s| - 1])
    else Kept(s[..|s| - 1]) + [s[|s| - 1]]
  }

  lemma {:induction false} KeptConcat(a: seq<Envelope>, b: seq<Envelope>)
    ensures Kept(a + b) == Kept(a) + Kept(b)
    decreases |b|
  {
    if b == [] {
      assert a + b == a;
    } else {
      var b' := b[..|b| - 1];
      assert (a + b)[..|a + b| - 1] == a + b';
      KeptConcat(a, b');
      if !b[|b| - 1].frame.IsInterruptible() {
        assert Kept(a) + (Kept(b') + [b[|b| - 1]]) == (Kept(a) + Kept(b')) + [b[|b| - 1]];
      }
    }
  }

  lemma {:induction false} KeptMember(s: seq<Envelope>, x: Envelope)
    ensures x in Kept(s) <==> x in s && !x.frame.IsInterruptible()
    decreases |s|
  {
    if s != [] {
      KeptMember(s[..|s| - 1], x);
      assert s == s[..|s| - 1] + [s[|s| - 1]];
    }
  }

  /** Deleting interruptible envelopes does not change what a purge would keep. */
  lemma KeptIgnoresInterruptible(a: seq<Envelope>, x: seq<Envelope>, z: seq<Envelope>)
    requires forall e :: e in x ==> e.frame.IsInterruptible()
    ensures Kept(a + x + z) == Kept(a + z)
  {
    hide Kept;
    KeptConcat(a + x, z);
    KeptConcat(a, x);
    KeptConcat(a, z);
    NothingKept(x);
    assert Kept(a) + [] == Kept(a);
  }

  lemma {:induction false} NothingKept(x: seq<Envelope>)
    requires forall e :: e in x ==> e.frame.IsInterruptible()
    ensures Kept(x) == []
  {
    if x != [] {
      NothingKept(x[..|x| - 1]);
    }
  }

  lemma KeptSnoc(a: seq<Envelope>, b: seq<Envelope>, x: Envelope)
    requires Kept(a) == Kept(b)
    ensures Kept(a + [x]) == Kept(b + [x])
  {
    KeptConcat(a, [x]);
    KeptConcat(b, [x]);
  }
}
