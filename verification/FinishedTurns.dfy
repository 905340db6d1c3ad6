/**
 * What a finished turn does: exactly when the model runs and on which history, and exactly what the
 * bot is recorded to have said. Both are read off the trace of frames.
 */
module FinishedTurns {
  import opened Frames
  import opened History
  import opened Text
  import opened UserTurns
  import HistoryGuarantees

  /** The history the last frame of a trace hands to the model stage, if any. */
  function LastRun(s: State, trace: seq<Envelope>): Option<seq<Message>>
    requires trace != []
  {
    var env := trace[|trace| - 1];
    Step(After(s, trace[..|trace| - 1]), env.frame, env.dir).run
  }

  // ---- User turns ----

  /** A finished turn closes the history `before`: a message of its own, or joined to a user message at its end. */
  function WithTurn(before: seq<Message>, heard: string): seq<Message> {
    var n := |before|;
    if n > 0 && before[n - 1].role == "user" then
      var m := before[n - 1];
      before[..n - 1] + [Message("user", m.content + " " + heard, m.toolCalls, m.toolCallID)]
    else
      before + [Message("user", heard, [], "")]
  }

  /** The history a turn is added to: an empty one begins with the default prompt, if there is one. */
  function Begun(a: State): seq<Message> {
    if a.messages == [] && a.defaultPrompt.Some? then [Message("system", a.defaultPrompt.value, [], "")] else a.messages
  }

  lemma AddedTurn(before: seq<Message>, heard: string)
    ensures AddUserMessage(before, heard) == WithTurn(before, heard)
  {
    var n := |before|;
    if n > 0 && before[n - 1].role == "user" {
      var m := before[n - 1];
      var x := m.(content := m.content + " " + heard);
      assert x == Message("user", m.content + " " + heard, m.toolCalls, m.toolCallID);
      assert before[n - 1 := x] == before[..n - 1] + [x];
    }
  }

  lemma EndTokenRuns(a: State, f: Frame)
    requires f.TranscriptFrame? && f.isFinal && f.text == "<end>"
    ensures var r := OnTranscript(a, f);
      if a.currentTranscript != "" && !(a.botSpeaking && !a.interruptSent) then
        r.run == Some(WithTurn(Begun(a), a.currentTranscript)) && r.s.messages == r.run.value
      else r.run == None && r.s.messages == a.messages
  {
    hide Fields;
    var t := UpdateInterim(a, f);
    assert CheckBargeIn(t, f) == Result(t, [], None);
    AddedTurn(Begun(a), a.currentTranscript);
  }

  /**
   * A user turn that closes makes the model run, on the history so far with exactly what was heard
   * as its last user message; an end token that closes no turn makes nothing run and changes no message.
   */
  lemma ClosedTurnRunsModel(s: State, trace: seq<Envelope>)
    requires Fresh(s) && trace != []
    requires var f := trace[|trace| - 1].frame; f.TranscriptFrame? && f.isFinal && f.text == "<end>"
    ensures var before, heard := After(s, trace[..|trace| - 1]), Heard(trace[..|trace| - 1]);
      if Closes(trace) then
        && LastRun(s, trace) == Some(WithTurn(Begun(before), heard)) && heard != ""
        && After(s, trace).messages == WithTurn(Begun(before), heard)
      else
        LastRun(s, trace) == None && After(s, trace).messages == before.messages
  {
    hide OnTranscript, Heard, Pending, Speaking, Interim, WithTurn, Begun;
    var init, e := trace[..|trace| - 1], trace[|trace| - 1];
    TraceTracks(s, init);
    EndTokenRuns(After(s, init), e.frame);
    StepIsOnTranscript(After(s, init), e.frame, e.dir);
  }

  lemma OtherFramesRunIff(a: State, f: Frame, dir: Direction)
    requires !IsEnd(f)
    ensures Step(a, f, dir).run.Some? <==>
      || (f.FunctionCallResultFrame? && f.runLLM)
      || (f.LLMMessagesAppendFrame? && f.runLLM && Step(a, f, dir).s.messages != [])
  {
    hide AddUserMessage, Seeded, PutResult, MessagesFromInitial, Join, AppendWords, ResultText, RawArguments, Fields;
  }

  /**
   * The model runs exactly when a turn closes, when a tool result or appended messages ask for it
   * (the latter on a history that is not empty); and it always runs on the history as it then is.
   */
  lemma ModelRunsIff(s: State, trace: seq<Envelope>)
    requires Fresh(s) && trace != []
    ensures var f := trace[|trace| - 1].frame;
      LastRun(s, trace).Some? <==>
        || Closes(trace)
        || (f.FunctionCallResultFrame? && f.runLLM)
        || (f.LLMMessagesAppendFrame? && f.runLLM && After(s, trace).messages != [])
    ensures LastRun(s, trace).Some? ==> LastRun(s, trace).value == After(s, trace).messages
  {
    hide Step, Heard, Pending, Speaking, WithTurn, Begun;
    var init, e := trace[..|trace| - 1], trace[|trace| - 1];
    HistoryGuarantees.RunIsHistory(After(s, init), e.frame, e.dir);
    if IsEnd(e.frame) {
      hide LastRun, After;
      ClosedTurnRunsModel(s, trace);
    } else {
      OtherFramesRunIff(After(s, init), e.frame, e.dir);
    }
  }

  // ---- What is passed on ----

  /** The frames the aggregator keeps to itself or answers in its own way. */
  predicate Handled(f: Frame) {
    || f.LLMMessagesAppendFrame? || f.FunctionCallInProgressFrame? || f.FunctionCallResultFrame?
    || f.TranscriptFrame? || f.WordTimestampFrame? || f.TTSDoneFrame?
  }

  /** Every other frame is passed on once, in its direction, and changes no more than whether the bot is heard. */
  lemma OtherFramesPass(a: State, f: Frame, dir: Direction)
    requires !Handled(f)
    ensures var r := Step(a, f, dir);
      && r.out == [Push(f, dir)] && r.run == None
      && r.s == a.(botSpeaking := f.BotStartedSpeakingFrame? || (!f.BotStoppedSpeakingFrame? && a.botSpeaking))
  {
  }

  /** A transcript frame puts out an interrupt, or the commits it causes, and nothing else. */
  lemma TranscriptsPutOut(a: State, f: Frame)
    requires f.TranscriptFrame?
    ensures var out := OnTranscript(a, f).out;
      || out == []
      || out == [Push(InterruptFrame, Downstream)]
      || (exists text :: out == [Push(InterruptFrame, Downstream), AssistantCommitted(text)])
      || (exists text :: out == [UserCommitted(text)])
  {
    hide Join, AddUserMessage, Seeded, Fields;
    var r := CheckBargeIn(UpdateInterim(a, f), f);
    var e := FinishTranscript(r.s, f);
    assert OnTranscript(a, f).out == r.out + e.out;
    if BargesIn(UpdateInterim(a, f), f) && Join(a.spokenWords) != "" {
      assert r.out + e.out == [Push(InterruptFrame, Downstream), AssistantCommitted(Join(a.spokenWords))];
    } else if r.out == [] && e.out != [] {
      assert r.out + e.out == [UserCommitted(e.out[0].text)];
    }
  }

  // ---- What the bot has said ----

  /** The gap before a word that follows another one. */
  function Gap(w: string): string {
    if w == "" || w[0] in {'.', ',', '!', '?', ';', ':'} then "" else " "
  }

  /** Words as one text: a blank before each but the first, and none before punctuation. */
  function Phrase(words: seq<string>): string {
    if words == [] then ""
    else if |words| == 1 then words[0]
    else words[0] + Gap(words[1]) + Phrase(words[1..])
  }

  /** The words reported since the bot's turn was last committed, interrupted or answered. */
  function Reported(trace: seq<Envelope>): seq<string> {
    if trace == [] then []
    else
      var init, f := trace[..|trace| - 1], trace[|trace| - 1].frame;
      if f.TTSDoneFrame? || Raises(trace) || Closes(trace) then []
      else if f.WordTimestampFrame? then Reported(init) + [f.word.text]
      else Reported(init)
  }

  lemma {:induction false} PhraseSnoc(words: seq<string>, w: string)
    ensures Phrase(words + [w]) == if words == [] then w else Phrase(words) + Gap(w) + w
    decreases |words|
  {
    if words == [] {
      assert words + [w] == [w];
    } else if |words| == 1 {
      assert (words + [w])[1..] == [w] && (words + [w])[0] == words[0];
    } else {
      assert (words + [w])[1..] == words[1..] + [w];
      PhraseSnoc(words[1..], w);
      assert (words[0] + Gap(words[1]) + Phrase(words[1..])) + Gap(w) + w
          == words[0] + Gap(words[1]) + (Phrase(words[1..]) + Gap(w) + w);
    }
  }

  /** Joining the words as they were collected gives the phrase. */
  lemma {:induction false} JoinIsPhrase(words: seq<string>)
    ensures Join(AppendWords([], words)) == Phrase(words)
    ensures AppendWords([], words) == [] <==> words == []
    decreases |words|
  {
    hide Join, Phrase, AppendWord, Gap;
    if words == [] {
      NoWords();
    } else {
      var init, w := words[..|words| - 1], words[|words| - 1];
      var spoken := AppendWords([], init);
      JoinIsPhrase(init);
      PhraseSnoc(init, w);
      assert init + [w] == words;
      JoinAppended(spoken, w);
      AppendedIsSome(spoken, w);
      if init == [] {
        NoWords();
        assert "" + "" + w == w;
      }
    }
  }

  lemma NoWords()
    ensures Join([]) == "" && Phrase([]) == ""
  {
  }

  lemma AppendedIsSome(spoken: seq<string>, w: string)
    ensures AppendWord(spoken, w) != []
  {
  }

  lemma JoinAppended(spoken: seq<string>, w: string)
    ensures Join(AppendWord(spoken, w)) == Join(spoken) + (if spoken == [] then "" else Gap(w)) + w
  {
    var x := if spoken != [] && !SticksToPrevious(w) then " " + w else w;
    assert (spoken + [x])[..|spoken|] == spoken;
  }

  lemma OneWord(spoken: seq<string>, w: string)
    ensures AppendWords(spoken, [w]) == AppendWord(spoken, w)
  {
    assert [w][..0] == [];
  }

  lemma WordsStep(a: State, f: Frame, dir: Direction)
    ensures var r := Step(a, f, dir);
      r.s.spokenWords ==
        if f.TTSDoneFrame? || Interrupts(f, r.out) || Commits(r.out) then []
        else if f.WordTimestampFrame? then AppendWords(a.spokenWords, [f.word.text])
        else a.spokenWords
  {
    hide Join, AddUserMessage, Seeded, PutResult, ResultText, MessagesFromInitial, AppendWords, RawArguments, Fields;
    if f.TranscriptFrame? {
      hide OnTranscript, Step, Interrupts, Commits;
      StepIsOnTranscript(a, f, dir);
      TranscriptWords(a, f);
    } else {
      OthersDoNotCommit(a, f, dir);
    }
  }

  lemma TranscriptWords(a: State, f: Frame)
    requires f.TranscriptFrame?
    ensures var r := OnTranscript(a, f);
      r.s.spokenWords == if Interrupts(f, r.out) || Commits(r.out) then [] else a.spokenWords
  {
    hide Join, AddUserMessage, Seeded, Fields, Interrupts, Commits;
    TranscriptEffect(a, f);
  }

  lemma {:induction false} WordsTrack(s: State, trace: seq<Envelope>)
    requires Fresh(s)
    ensures After(s, trace).spokenWords == AppendWords([], Reported(trace))
    decreases |trace|
  {
    hide Step, Raises, Closes, Interrupts, Commits;
    if trace != [] {
      var init, e := trace[..|trace| - 1], trace[|trace| - 1];
      WordsTrack(s, init);
      TraceTracks(s, init);
      OutputTracks(s, trace);
      WordsStep(After(s, init), e.frame, e.dir);
      OneWord(AppendWords([], Reported(init)), if e.frame.WordTimestampFrame? then e.frame.word.text else "");
      if e.frame.WordTimestampFrame? {
        var words := Reported(init);
        assert (words + [e.frame.word.text])[..|words|] == words;
      }
    }
  }

  predicate CommitsText(out: seq<Output>, text: string) {
    AssistantCommitted(text) in out
  }

  lemma AssistantStep(a: State, f: Frame, dir: Direction)
    ensures var r, spoken := Step(a, f, dir), Join(a.spokenWords);
      var ends := (f.TTSDoneFrame? || Interrupts(f, r.out)) && spoken != "";
      && (forall text :: CommitsText(r.out, text) <==> ends && text == spoken)
      && (ends ==> r.s.messages == a.messages + [Message("assistant", spoken, [], "")])
  {
    hide Join, AddUserMessage, Seeded, PutResult, ResultText, MessagesFromInitial, AppendWords, RawArguments, Fields;
    if f.TranscriptFrame? {
      hide OnTranscript, Step, Interrupts, CommitsText;
      StepIsOnTranscript(a, f, dir);
      AssistantTranscript(a, f);
    }
  }

  lemma AssistantTranscript(a: State, f: Frame)
    requires f.TranscriptFrame?
    ensures var r, spoken := OnTranscript(a, f), Join(a.spokenWords);
      var ends := Interrupts(f, r.out) && spoken != "";
      && (forall text :: CommitsText(r.out, text) <==> ends && text == spoken)
      && (ends ==> r.s.messages == a.messages + [Message("assistant", spoken, [], "")])
  {
    hide Join, AddUserMessage, Seeded, Fields, Interrupts;
    TranscriptEffect(a, f);
    var r := CheckBargeIn(UpdateInterim(a, f), f);
    var e := FinishTranscript(r.s, f);
    assert OnTranscript(a, f).out == r.out + e.out;
  }

  /**
   * The bot's turn is recorded when it is done or interrupted, if any words were reported in it: as one
   * assistant message whose text is those words in order, set apart by blanks except before punctuation.
   */
  lemma AssistantTurnIsWhatWasReported(s: State, trace: seq<Envelope>)
    requires Fresh(s) && trace != []
    ensures var init, f := trace[..|trace| - 1], trace[|trace| - 1].frame;
      var spoken := Phrase(Reported(init));
      var ends := (f.TTSDoneFrame? || Raises(trace)) && spoken != "";
      && (forall text :: CommitsText(LastOutput(s, trace), text) <==> ends && text == spoken)
      && (ends ==> After(s, trace).messages == After(s, init).messages + [Message("assistant", spoken, [], "")])
  {
    hide Step, Raises, Closes, Interrupts, Commits, CommitsText, Phrase, Join;
    var init, e := trace[..|trace| - 1], trace[|trace| - 1];
    TraceTracks(s, init);
    OutputTracks(s, trace);
    WordsTrack(s, init);
    JoinIsPhrase(Reported(init));
    AssistantStep(After(s, init), e.frame, e.dir);
  }
}
