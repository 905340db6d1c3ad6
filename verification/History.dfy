/**
 * The conversation history: what the context aggregator does with each frame, as functions on its
 * state. Outputs are the frames it pushes and the turns it reports as committed, in order.
 */
module History {
  import opened Frames
  import opened Text

  const MIN_BARGE_IN_WORDS := 3
  const END_TOKEN := "<end>"
  const IN_PROGRESS := "IN_PROGRESS"
  const EMPTY_RESULT := "{\"error\":\"empty tool result\"}"

  datatype State = State(
    messages: seq<Message>,
    currentTranscript: string,
    spokenWords: seq<string>,
    interimTranscript: string,
    interimResponseID: int,
    interruptSent: bool,
    botSpeaking: bool,
    defaultPrompt: Option<string>)   // seeded into an empty history when no initial messages were given

  datatype Output =
    | Push(frame: Frame, dir: Direction)
    | UserCommitted(text: string)
    | AssistantCommitted(text: string)
    | ToolCommitted(call: Message, result: Message)

  /**
   * The state after a frame, the frames and commits it gave out in order, and the message list it
   * then handed to the model stage, if any: that frame is always the last one pushed.
   */
  datatype Result = Result(s: State, out: seq<Output>, run: Option<seq<Message>>)

  function Plain(role: string, content: string): Message {
    Message(role, content, [], "")
  }

  /** The messages that carry anything at all. */
  function MessagesFromInitial(initial: seq<Message>): seq<Message> {
    if initial == [] then []
    else
      var m := initial[|initial| - 1];
      MessagesFromInitial(initial[..|initial| - 1]) +
      (if m.role == "" || (m.content == "" && m.toolCalls == [] && m.toolCallID == "") then [] else [m])
  }

  function Initial(initial: Option<seq<Message>>, prompt: string): State {
    State(if initial.Some? then MessagesFromInitial(initial.value) else [], "", [], "", 0, false, false,
          if initial.Some? then None else Some(prompt))
  }

  // ---- Spoken words ----

  predicate SticksToPrevious(w: string) {
    w == "" || w[0] in {'.', ',', '!', '?', ';', ':'}
  }

  function AppendWord(spoken: seq<string>, w: string): seq<string> {
    spoken + [if spoken != [] && !SticksToPrevious(w) then " " + w else w]
  }

  function AppendWords(spoken: seq<string>, words: seq<string>): seq<string> {
    if words == [] then spoken
    else AppendWord(AppendWords(spoken, words[..|words| - 1]), words[|words| - 1])
  }

  function Join(words: seq<string>): string {
    if words == [] then "" else Join(words[..|words| - 1]) + words[|words| - 1]
  }

  function CommitSpokenText(s: State): Result {
    var spoken := Join(s.spokenWords);
    var t := s.(spokenWords := []);
    if spoken != "" then
      Result(t.(messages := t.messages + [Plain("assistant", spoken)]), [AssistantCommitted(spoken)], None)
    else
      Result(t, [], None)
  }

  // ---- User turns ----

  predicate IsEnd(f: Frame) {
    f.TranscriptFrame? && f.isFinal && f.text == END_TOKEN
  }

  /** A final token that is part of what the user said. */
  predicate IsToken(f: Frame) {
    f.TranscriptFrame? && f.isFinal && f.text != END_TOKEN
  }

  function UpdateInterim(s: State, f: Frame): State
    requires f.TranscriptFrame?
  {
    if IsEnd(f) then s.(interimTranscript := "", interimResponseID := 0)
    else if f.isFinal then s
    else if f.responseID != 0 && f.responseID != s.interimResponseID then
      s.(interimResponseID := f.responseID, interimTranscript := f.text)
    else
      s.(interimTranscript := s.interimTranscript + f.text)
  }

  predicate BargesIn(s: State, f: Frame)
    requires f.TranscriptFrame?
  {
    s.botSpeaking && !s.interruptSent && !f.isFinal && Fields(s.interimTranscript) >= MIN_BARGE_IN_WORDS
  }

  function BargeIn(s: State): Result {
    var r := CommitSpokenText(s.(interruptSent := true, botSpeaking := false));
    Result(r.s, [Push(InterruptFrame, Downstream)] + r.out, None)
  }

  function CheckBargeIn(s: State, f: Frame): Result
    requires f.TranscriptFrame?
  {
    if BargesIn(s, f) then BargeIn(s) else Result(s, [], None)
  }

  function AddUserMessage(messages: seq<Message>, text: string): seq<Message> {
    var n := |messages|;
    if n > 0 && messages[n - 1].role == "user" then
      messages[n - 1 := messages[n - 1].(content := messages[n - 1].content + " " + text)]
    else
      messages + [Plain("user", text)]
  }

  function Seeded(s: State): seq<Message> {
    if s.messages == [] && s.defaultPrompt.Some? then [Plain("system", s.defaultPrompt.value)] else s.messages
  }

  function SubmitUserMessage(s: State, text: string): Result {
    var messages := AddUserMessage(Seeded(s), text);
    Result(s.(messages := messages, interruptSent := false, spokenWords := [],
              interimTranscript := "", interimResponseID := 0, currentTranscript := ""),
           [UserCommitted(text)], Some(messages))
  }

  /** The final half of a transcript frame: a token is collected, the end token closes the turn. */
  function FinishTranscript(s: State, f: Frame): Result
    requires f.TranscriptFrame?
  {
    if IsToken(f) then Result(s.(currentTranscript := s.currentTranscript + f.text), [], None)
    else if IsEnd(f) then
      var text := s.currentTranscript;
      var t := s.(currentTranscript := "");
      if text == "" then Result(t, [], None)
      else if t.botSpeaking && !t.interruptSent then
        Result(t.(interimTranscript := "", interimResponseID := 0), [], None)
      else SubmitUserMessage(t, text)
    else
      Result(s, [], None)
  }

  function OnTranscript(s: State, f: Frame): Result
    requires f.TranscriptFrame?
  {
    var r := CheckBargeIn(UpdateInterim(s, f), f);
    var e := FinishTranscript(r.s, f);
    Result(e.s, r.out + e.out, e.run)
  }

  function OnTTSDone(s: State): Result {
    var r := CommitSpokenText(s);
    var t := r.s.(botSpeaking := false);
    if t.interruptSent || (t.interimTranscript == "" && t.currentTranscript == "") then Result(t, r.out, None)
    else Result(t.(interimTranscript := "", interimResponseID := 0, currentTranscript := ""), r.out, None)
  }

  // ---- Tool calls ----

  function RawArguments(arguments: string, rawArguments: string): string {
    if rawArguments != "" then rawArguments else if arguments != "" then arguments else "{}"
  }

  function ToolCallMessage(name: string, id: string, arguments: string, rawArguments: string): Message {
    Message("assistant", "", [ToolCall(id, "function", name, RawArguments(arguments, rawArguments))], "")
  }

  function ToolMessage(id: string, content: string): Message {
    Message("tool", content, [], id)
  }

  predicate IsToolFor(m: Message, id: string) {
    m.role == "tool" && m.toolCallID == id
  }

  /** The index of the latest tool message for `id`, or -1. */
  function LastTool(messages: seq<Message>, id: string): (i: int)
    ensures -1 <= i < |messages|
    ensures i >= 0 ==> IsToolFor(messages[i], id)
  {
    if messages == [] then -1
    else if IsToolFor(messages[|messages| - 1], id) then |messages| - 1
    else LastTool(messages[..|messages| - 1], id)
  }

  function ResultText(result: string): string {
    if TrimSpace(result) == "" then EMPTY_RESULT else TrimSpace(result)
  }

  function PutResult(messages: seq<Message>, id: string, text: string): seq<Message> {
    var i := LastTool(messages, id);
    if i >= 0 then messages[i := messages[i].(content := text)] else messages + [ToolMessage(id, text)]
  }

  function OnResult(s: State, f: Frame): Result
    requires f.FunctionCallResultFrame?
  {
    var text := ResultText(f.result);
    var messages := PutResult(s.messages, f.toolCallID, text);
    Result(s.(messages := messages),
           (if TrimSpace(f.result) == "" then [Push(ErrorFrame("empty tool result", false), Upstream)] else [])
           + [ToolCommitted(ToolCallMessage(f.name, f.toolCallID, f.arguments, f.rawArguments),
                            ToolMessage(f.toolCallID, text)),
              Push(f, Upstream)],
           if f.runLLM then Some(messages) else None)
  }

  function OnInProgress(s: State, f: Frame): Result
    requires f.FunctionCallInProgressFrame?
  {
    Result(s.(messages := s.messages + [ToolCallMessage(f.name, f.toolCallID, f.arguments, f.rawArguments),
                                        ToolMessage(f.toolCallID, IN_PROGRESS)]),
           [Push(f, Upstream)], None)
  }

  function OnAppend(s: State, f: Frame): Result
    requires f.LLMMessagesAppendFrame?
  {
    var messages := s.messages + MessagesFromInitial(f.messages);
    Result(s.(messages := messages), [], if f.runLLM && messages != [] then Some(messages) else None)
  }

  // ---- Any frame ----

  function Step(s: State, f: Frame, dir: Direction): Result {
    match f
    case EndFrame(_) => Result(s, [Push(f, dir)], None)
    case LLMMessagesAppendFrame(_, _) => OnAppend(s, f)
    case FunctionCallInProgressFrame(_, _, _, _) => OnInProgress(s, f)
    case FunctionCallResultFrame(_, _, _, _, _, _) => OnResult(s, f)
    case TranscriptFrame(_, _, _) => OnTranscript(s, f)
    case WordTimestampFrame(w) => Result(s.(spokenWords := AppendWords(s.spokenWords, [w.text])), [], None)
    case TTSDoneFrame => OnTTSDone(s)
    case BotStartedSpeakingFrame => Result(s.(botSpeaking := true), [Push(f, dir)], None)
    case BotStoppedSpeakingFrame => Result(s.(botSpeaking := false), [Push(f, dir)], None)
    case _ => Result(s, [Push(f, dir)], None)
  }

  /** The state after a trace of envelopes. */
  function After(s: State, trace: seq<Envelope>): State {
    if trace == [] then s
    else
      var env := trace[|trace| - 1];
      Step(After(s, trace[..|trace| - 1]), env.frame, env.dir).s
  }

  /** What the last envelope of a trace makes the aggregator emit. */
  function LastOutput(s: State, trace: seq<Envelope>): seq<Output>
    requires trace != []
  {
    var env := trace[|trace| - 1];
    Step(After(s, trace[..|trace| - 1]), env.frame, env.dir).out
  }

  /** What a trace makes it emit. */
  function Outputs(s: State, trace: seq<Envelope>): seq<Output> {
    if trace == [] then [] else Outputs(s, trace[..|trace| - 1]) + LastOutput(s, trace)
  }

  /** The message lists a trace hands to the model stage, each as it was at its own step. */
  function Runs(s: State, trace: seq<Envelope>): seq<seq<Message>> {
    if trace == [] then []
    else
      var init, env := trace[..|trace| - 1], trace[|trace| - 1];
      var run := Step(After(s, init), env.frame, env.dir).run;
      Runs(s, init) + (if run.Some? then [run.value] else [])
  }
}
