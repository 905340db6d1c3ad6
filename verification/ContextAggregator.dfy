/**
 * The context aggregator as one object: the history is a mutable array edited in place, and every
 * list it hands to the model stage is a separate array, so later edits cannot reach it.
 */
module ContextAggregator {
  import opened Frames
  import opened Text
  import History

  class ContextAggregator {
    var messages: array<Message>
    var currentTranscript: string
    var spokenWords: seq<string>
    var interimTranscript: string
    var interimResponseID: int
    var interruptSent: bool
    var botSpeaking: bool
    var defaultPrompt: Option<string>
    var out: seq<History.Output>
    /** The arrays carried by the model frames pushed so far, oldest first. */
    var snapshots: seq<array<Message>>

    ghost predicate Valid()
      reads this
    {
      messages !in snapshots
    }

    ghost function Get(): History.State
      reads this, messages
    {
      History.State(messages[..], currentTranscript, spokenWords, interimTranscript, interimResponseID,
                    interruptSent, botSpeaking, defaultPrompt)
    }

    /** The new state, outputs and model frame are `r`, and no model frame pushed before has changed. */
    twostate predicate Becomes(r: History.Result)
      reads this, messages, snapshots
    {
      && Valid()
      && Get() == r.s
      && out == old(out) + r.out
      && (messages == old(messages) || fresh(messages))
      && old(snapshots) <= snapshots
      && (if r.run.None? then snapshots == old(snapshots) else
          |snapshots| == |old(snapshots)| + 1
          && fresh(snapshots[|old(snapshots)|]) && snapshots[|old(snapshots)|][..] == r.run.value)
      && forall a :: a in old(snapshots) ==> a in snapshots && a[..] == old(a[..])
    }

    constructor (initial: Option<seq<Message>>, prompt: string)
      ensures Valid() && fresh(messages)
      ensures Get() == History.Initial(initial, prompt) && out == [] && snapshots == []
    {
      currentTranscript, spokenWords, interimTranscript, interimResponseID := "", [], "", 0;
      interruptSent, botSpeaking, out, snapshots := false, false, [], [];
      defaultPrompt := if initial.Some? then None else Some(prompt);
      messages := new Message[0];
      new;
      if initial.Some? {
        var ms := MessagesFromInitial(initial.value);
        Append(ms);
      }
    }

    static method MessagesFromInitial(initial: seq<Message>) returns (ms: seq<Message>)
      ensures ms == History.MessagesFromInitial(initial)
    {
      ms := [];
      for i := 0 to |initial|
        invariant ms == History.MessagesFromInitial(initial[..i])
      {
        assert initial[..i + 1][..i] == initial[..i];
        var m := initial[i];
        if m.role == "" {
          continue;
        }
        if m.content == "" && m.toolCalls == [] && m.toolCallID == "" {
          continue;
        }
        ms := ms + [m];
      }
      assert initial[..|initial|] == initial;
    }

    method CloneMessages() returns (copy: array<Message>)
      ensures fresh(copy) && copy[..] == messages[..]
    {
      copy := new Message[messages.Length];
      for i := 0 to messages.Length
        invariant copy[..i] == messages[..i]
      {
        copy[i] := messages[i];
      }
    }

    /** Appending moves the history to a larger array. */
    method Append(ms: seq<Message>)
      requires Valid()
      modifies this`messages
      ensures Valid() && fresh(messages) && messages[..] == old(messages[..]) + ms
    {
      var before := messages[..];
      messages := new Message[|before| + |ms|](i requires 0 <= i < |before| + |ms| => (before + ms)[i]);
    }

    method Emit(o: History.Output)
      modifies this`out
      ensures out == old(out) + [o]
    {
      out := out + [o];
    }

    method PushMessages()
      requires Valid()
      modifies this`snapshots
      ensures Valid() && |snapshots| == |old(snapshots)| + 1 && old(snapshots) <= snapshots
      ensures fresh(snapshots[|old(snapshots)|]) && snapshots[|old(snapshots)|][..] == messages[..]
    {
      var copy := CloneMessages();
      snapshots := snapshots + [copy];
    }

    method AppendWords(words: seq<string>)
      modifies this`spokenWords
      ensures spokenWords == History.AppendWords(old(spokenWords), words)
    {
      for i := 0 to |words|
        invariant spokenWords == History.AppendWords(old(spokenWords), words[..i])
      {
        assert words[..i + 1][..i] == words[..i];
        var w := words[i];
        if |spokenWords| > 0 && |w| > 0 && w[0] != '.' && w[0] != ',' && w[0] != '!' && w[0] != '?'
            && w[0] != ';' && w[0] != ':' {
          spokenWords := spokenWords + [" " + w];
        } else {
          spokenWords := spokenWords + [w];
        }
      }
      assert words[..|words|] == words;
    }

    method SpokenSoFar() returns (spoken: string)
      modifies this`spokenWords
      ensures spoken == History.Join(old(spokenWords)) && spokenWords == []
    {
      spoken := "";
      for i := 0 to |spokenWords|
        invariant spoken == History.Join(spokenWords[..i])
      {
        assert spokenWords[..i + 1][..i] == spokenWords[..i];
        spoken := spoken + spokenWords[i];
      }
      assert spokenWords[..|spokenWords|] == spokenWords;
      spokenWords := [];
    }

    method CommitSpokenText()
      requires Valid()
      modifies this`messages, this`spokenWords, this`out
      ensures Valid() && (messages == old(messages) || fresh(messages))
      ensures var r := History.CommitSpokenText(old(Get())); Get() == r.s && out == old(out) + r.out
    {
      var spoken := SpokenSoFar();
      if spoken != "" {
        Append([History.Plain("assistant", spoken)]);
        Emit(History.AssistantCommitted(spoken));
      }
    }

    method UpdateInterimTranscript(f: Frame)
      requires f.TranscriptFrame?
      modifies this`interimTranscript, this`interimResponseID
      ensures Get() == History.UpdateInterim(old(Get()), f)
    {
      if f.isFinal && f.text == History.END_TOKEN {
        interimTranscript, interimResponseID := "", 0;
        return;
      }
      if f.isFinal {
        return;
      }
      if f.responseID != 0 && f.responseID != interimResponseID {
        interimResponseID := f.responseID;
        interimTranscript := "";
      }
      interimTranscript := interimTranscript + f.text;
    }

    /** A second user message in a row is joined to the first, in place. */
    method AddUserMessage(text: string)
      requires Valid()
      modifies this`messages, this`out, messages
      ensures Valid() && (messages == old(messages) || fresh(messages))
      ensures messages[..] == History.AddUserMessage(old(messages[..]), text)
      ensures out == old(out) + [History.UserCommitted(text)]
    {
      var n := messages.Length;
      if n > 0 && messages[n - 1].role == "user" {
        messages[n - 1] := messages[n - 1].(content := messages[n - 1].content + " " + text);
      } else {
        Append([History.Plain("user", text)]);
      }
      Emit(History.UserCommitted(text));
    }

    method Seed()
      requires Valid()
      modifies this`messages
      ensures Valid() && (messages == old(messages) || fresh(messages))
      ensures messages[..] == History.Seeded(old(Get()))
    {
      if messages.Length == 0 && defaultPrompt.Some? {
        Append([History.Plain("system", defaultPrompt.value)]);
      }
    }

    method ResetTurn()
      modifies this`interruptSent, this`spokenWords, this`interimTranscript, this`interimResponseID,
          this`currentTranscript
      ensures Get() == old(Get()).(interruptSent := false, spokenWords := [], interimTranscript := "",
                                   interimResponseID := 0, currentTranscript := "")
    {
      interruptSent, spokenWords := false, [];
      interimTranscript, interimResponseID, currentTranscript := "", 0, "";
    }

    method SubmitUserMessage(text: string)
      requires Valid()
      modifies this, messages
      ensures Becomes(History.SubmitUserMessage(old(Get()), text))
    {
      hide History.AddUserMessage, History.Seeded;
      Seed();
      AddUserMessage(text);
      ResetTurn();
      PushMessages();
    }

    /** Enough interim speech over the bot's own interrupts it. */
    method CheckBargeIn(f: Frame)
      requires Valid() && f.TranscriptFrame?
      modifies this`messages, this`spokenWords, this`out, this`interruptSent, this`botSpeaking
      ensures Becomes(History.CheckBargeIn(old(Get()), f))
    {
      if botSpeaking && !interruptSent && !f.isFinal {
        if Fields(interimTranscript) >= History.MIN_BARGE_IN_WORDS {
          Emit(History.Push(InterruptFrame, Downstream));
          interruptSent, botSpeaking := true, false;
          CommitSpokenText();
        }
      }
    }

    method UpdateFinalTranscript(f: Frame)
      requires Valid() && f.TranscriptFrame?
      modifies this, messages
      ensures Becomes(History.FinishTranscript(old(Get()), f))
    {
      hide History.SubmitUserMessage;
      if f.isFinal {
        if f.text == History.END_TOKEN {
          var text := currentTranscript;
          currentTranscript := "";
          if text != "" {
            if botSpeaking && !interruptSent {
              interimTranscript, interimResponseID := "", 0;
            } else {
              SubmitUserMessage(text);
            }
          }
        } else {
          currentTranscript := currentTranscript + f.text;
        }
      }
    }

    method OnTranscript(f: Frame)
      requires Valid() && f.TranscriptFrame?
      modifies this, messages
      ensures Becomes(History.OnTranscript(old(Get()), f))
    {
      hide History.FinishTranscript, History.CheckBargeIn, History.UpdateInterim;
      UpdateInterimTranscript(f);
      CheckBargeIn(f);
      UpdateFinalTranscript(f);
    }

    method OnTTSDone()
      requires Valid()
      modifies this
      ensures Becomes(History.OnTTSDone(old(Get())))
    {
      CommitSpokenText();
      botSpeaking := false;
      if !interruptSent {
        if interimTranscript != "" || currentTranscript != "" {
          interimTranscript, interimResponseID, currentTranscript := "", 0, "";
        }
      }
    }

    /** The latest tool message with this id gets the result; without one, the result is appended. */
    method PutResult(id: string, text: string)
      requires Valid()
      modifies this`messages, messages
      ensures Valid() && (messages == old(messages) || fresh(messages))
      ensures messages[..] == History.PutResult(old(messages[..]), id, text)
    {
      var i := messages.Length - 1;
      assert messages[..i + 1] == messages[..];
      while i >= 0
        invariant -1 <= i < messages.Length
        invariant messages[..] == old(messages[..])
        invariant History.LastTool(messages[..], id) == History.LastTool(messages[..i + 1], id)
      {
        assert messages[..i + 1][..i] == messages[..i];
        if History.IsToolFor(messages[i], id) {
          messages[i] := messages[i].(content := text);
          return;
        }
        i := i - 1;
      }
      Append([History.ToolMessage(id, text)]);
    }

    method OnResult(f: Frame)
      requires Valid() && f.FunctionCallResultFrame?
      modifies this, messages
      ensures Becomes(History.OnResult(old(Get()), f))
    {
      hide History.PutResult, TrimSpace, History.RawArguments;
      var text := TrimSpace(f.result);
      if text == "" {
        Emit(History.Push(ErrorFrame("empty tool result", false), Upstream));
        text := History.EMPTY_RESULT;
      }
      PutResult(f.toolCallID, text);
      Emit(History.ToolCommitted(History.ToolCallMessage(f.name, f.toolCallID, f.arguments, f.rawArguments),
                                 History.ToolMessage(f.toolCallID, text)));
      Emit(History.Push(f, Upstream));
      if f.runLLM {
        PushMessages();
      }
    }

    method OnInProgress(f: Frame)
      requires Valid() && f.FunctionCallInProgressFrame?
      modifies this
      ensures Becomes(History.OnInProgress(old(Get()), f))
    {
      Append([History.ToolCallMessage(f.name, f.toolCallID, f.arguments, f.rawArguments),
              History.ToolMessage(f.toolCallID, History.IN_PROGRESS)]);
      Emit(History.Push(f, Upstream));
    }

    method OnAppend(f: Frame)
      requires Valid() && f.LLMMessagesAppendFrame?
      modifies this
      ensures Becomes(History.OnAppend(old(Get()), f))
    {
      if |f.messages| > 0 {
        var ms := MessagesFromInitial(f.messages);
        Append(ms);
      }
      if f.runLLM {
        if messages.Length == 0 {
          return;
        }
        PushMessages();
      }
    }

    method ProcessFrame(f: Frame, dir: Direction)
      requires Valid()
      modifies this, messages
      ensures Becomes(History.Step(old(Get()), f, dir))
    {
      hide Becomes;
      hide History.OnAppend, History.OnResult, History.OnTranscript, History.OnTTSDone, History.OnInProgress;
      match f {
        case LLMMessagesAppendFrame(_, _) => OnAppend(f);
        case FunctionCallInProgressFrame(_, _, _, _) => OnInProgress(f);
        case FunctionCallResultFrame(_, _, _, _, _, _) => OnResult(f);
        case TranscriptFrame(_, _, _) => OnTranscript(f);
        case WordTimestampFrame(_) => OnWords(f, dir);
        case TTSDoneFrame => OnTTSDone();
        case _ => Relay(f, dir);
      }
    }

    method OnWords(f: Frame, dir: Direction)
      requires Valid() && f.WordTimestampFrame?
      modifies this`spokenWords
      ensures Becomes(History.Step(old(Get()), f, dir))
    {
      AppendWords([f.word.text]);
    }

    /** Frames that are passed on: two of them also say whether the bot is heard. */
    method Relay(f: Frame, dir: Direction)
      requires Valid()
      requires !f.LLMMessagesAppendFrame? && !f.FunctionCallInProgressFrame? && !f.FunctionCallResultFrame?
      requires !f.TranscriptFrame? && !f.WordTimestampFrame? && !f.TTSDoneFrame?
      modifies this`botSpeaking, this`out
      ensures Becomes(History.Step(old(Get()), f, dir))
    {
      if f.BotStartedSpeakingFrame? {
        botSpeaking := true;
      } else if f.BotStoppedSpeakingFrame? {
        botSpeaking := false;
      }
      Emit(History.Push(f, dir));
    }

    /**
     * Over a whole trace: every list handed to the model stage, before or during it, still holds
     * what it held when it was handed out.
     */
    method ProcessAll(trace: seq<Envelope>)
      requires Valid()
      modifies this, messages
      ensures Valid() && Get() == History.After(old(Get()), trace)
      ensures out == old(out) + History.Outputs(old(Get()), trace)
      ensures old(snapshots) <= snapshots && forall a :: a in old(snapshots) ==> a[..] == old(a[..])
      ensures var runs := History.Runs(old(Get()), trace);
        && |snapshots| == |old(snapshots)| + |runs|
        && forall k :: 0 <= k < |runs| ==> snapshots[|old(snapshots)| + k][..] == runs[k]
    {
      hide History.Step;
      ghost var start, before := Get(), |snapshots|;
      for i := 0 to |trace|
        invariant Valid() && (messages == old(messages) || fresh(messages))
        invariant Get() == History.After(start, trace[..i])
        invariant out == old(out) + History.Outputs(start, trace[..i])
        invariant old(snapshots) <= snapshots && forall a :: a in old(snapshots) ==> a[..] == old(a[..])
        invariant |snapshots| == before + |History.Runs(start, trace[..i])|
        invariant forall k :: before <= k < |snapshots| ==>
          snapshots[k][..] == History.Runs(start, trace[..i])[k - before]
      {
        assert trace[..i + 1][..i] == trace[..i];
        label Frame:
        ProcessFrame(trace[i].frame, trace[i].dir);
        assert forall k :: 0 <= k < |old@Frame(snapshots)| ==> snapshots[k] in old@Frame(snapshots);
      }
      assert trace[..|trace|] == trace;
    }
  }
}
