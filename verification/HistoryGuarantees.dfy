/** What every run of the context aggregator keeps true of the conversation history. */
module HistoryGuarantees {
  import opened Frames
  import opened History
  import opened Text

  // ---- Nothing already written is rewritten, except a tool result or the end of a user message ----

  predicate StillReads(m: Message, n: Message) {
    && n.role == m.role && n.toolCalls == m.toolCalls && n.toolCallID == m.toolCallID
    && (m.role == "user" ==> m.content <= n.content)
    && (m.role != "user" && m.role != "tool" ==> n.content == m.content)
  }

  /** `later` still holds every message of `earlier`, at the same place. */
  predicate Extends(earlier: seq<Message>, later: seq<Message>) {
    && |earlier| <= |later|
    && forall i :: 0 <= i < |earlier| ==> StillReads(earlier[i], later[i])
  }

  lemma ExtendsTransitive(a: seq<Message>, b: seq<Message>, c: seq<Message>)
    requires Extends(a, b) && Extends(b, c)
    ensures Extends(a, c)
  {
    forall i | 0 <= i < |a| ensures StillReads(a[i], c[i]) {
      assert StillReads(a[i], b[i]) && StillReads(b[i], c[i]);
    }
  }

  lemma StepExtends(s: State, f: Frame, dir: Direction)
    ensures Extends(s.messages, Step(s, f, dir).s.messages)
  {
    hide LastTool, MessagesFromInitial, Join, AppendWords, ResultText, RawArguments;
    if f.TranscriptFrame? {
      TranscriptExtends(s, f);
    }
  }

  lemma TranscriptExtends(s: State, f: Frame)
    requires f.TranscriptFrame?
    ensures Extends(s.messages, OnTranscript(s, f).s.messages)
  {
    hide Join;
    var t := UpdateInterim(s, f);
    var r := CheckBargeIn(t, f);
    assert t.messages == s.messages;
    assert Extends(s.messages, r.s.messages);
    if IsEnd(f) && r.s.currentTranscript != "" {
      assert Extends(r.s.messages, FinishTranscript(r.s, f).s.messages) by {
        assert Extends(r.s.messages, Seeded(r.s));
      }
      ExtendsTransitive(s.messages, r.s.messages, FinishTranscript(r.s, f).s.messages);
    }
  }

  /** The history at any later point of a run extends the history at any earlier one. */
  lemma {:induction false} HistoryOnlyGrows(s: State, first: seq<Envelope>, more: seq<Envelope>)
    ensures Extends(After(s, first).messages, After(s, first + more).messages)
    decreases |more|
  {
    hide Extends, Step;
    if more == [] {
      assert first + more == first;
      assert Extends(After(s, first).messages, After(s, first).messages) by {
        ExtendsItself(After(s, first).messages);
      }
    } else {
      var init := more[..|more| - 1];
      HistoryOnlyGrows(s, first, init);
      assert (first + more)[..|first + more| - 1] == first + init;
      var e := more[|more| - 1];
      StepExtends(After(s, first + init), e.frame, e.dir);
      ExtendsTransitive(After(s, first).messages, After(s, first + init).messages, After(s, first + more).messages);
    }
  }

  lemma ExtendsItself(ms: seq<Message>)
    ensures Extends(ms, ms)
  {
  }

  // ---- Well-formed histories ----

  predicate Requests(m: Message, id: string) {
    m.role == "assistant" && exists c :: c in m.toolCalls && c.id == id
  }

  /** Message i answers a request, with only tool messages in between. */
  predicate Answers(ms: seq<Message>, i: nat)
    requires i < |ms|
  {
    exists j :: 0 <= j < i && Requests(ms[j], ms[i].toolCallID) && forall k :: j < k < i ==> ms[k].role == "tool"
  }

  predicate WellFormed(ms: seq<Message>) {
    && (forall i :: 0 <= i < |ms| && ms[i].role == "tool" ==> Answers(ms, i))
    && (forall i :: 0 < i < |ms| ==> !(ms[i].role == "user" && ms[i - 1].role == "user"))
  }

  predicate SameShape(a: seq<Message>, b: seq<Message>) {
    |a| == |b| && forall i :: 0 <= i < |a| ==>
      a[i].role == b[i].role && a[i].toolCalls == b[i].toolCalls && a[i].toolCallID == b[i].toolCallID
  }

  /** Well-formedness does not look at contents. */
  lemma WellFormedShape(a: seq<Message>, b: seq<Message>)
    requires WellFormed(a) && SameShape(a, b)
    ensures WellFormed(b)
  {
    forall i | 0 <= i < |b| && b[i].role == "tool" ensures Answers(b, i) {
      assert Answers(a, i);
      var j :| 0 <= j < i && Requests(a[j], a[i].toolCallID) && forall k :: j < k < i ==> a[k].role == "tool";
      assert Requests(b[j], b[i].toolCallID);
    }
  }

  /** A message that is not a tool result may follow, unless it is a second user message. */
  lemma WellFormedSnoc(ms: seq<Message>, m: Message)
    requires WellFormed(ms) && m.role != "tool"
    requires m.role == "user" && ms != [] ==> ms[|ms| - 1].role != "user"
    ensures WellFormed(ms + [m])
  {
    var r := ms + [m];
    forall i | 0 <= i < |r| && r[i].role == "tool" ensures Answers(r, i) {
      assert Answers(ms, i);
      var j :| 0 <= j < i && Requests(ms[j], ms[i].toolCallID) && forall k :: j < k < i ==> ms[k].role == "tool";
      assert Requests(r[j], r[i].toolCallID);
    }
  }

  lemma WellFormedCall(ms: seq<Message>, name: string, id: string, arguments: string, rawArguments: string)
    requires WellFormed(ms)
    ensures WellFormed(ms + [ToolCallMessage(name, id, arguments, rawArguments), ToolMessage(id, IN_PROGRESS)])
  {
    hide RawArguments;
    var call := ToolCallMessage(name, id, arguments, rawArguments);
    WellFormedSnoc(ms, call);
    var a := ms + [call];
    var r := ms + [call, ToolMessage(id, IN_PROGRESS)];
    assert r == a + [ToolMessage(id, IN_PROGRESS)];
    forall i | 0 <= i < |r| && r[i].role == "tool" ensures Answers(r, i) {
      if i < |a| {
        assert Answers(a, i);
        var j :| 0 <= j < i && Requests(a[j], a[i].toolCallID) && forall k :: j < k < i ==> a[k].role == "tool";
        assert Requests(r[j], r[i].toolCallID);
      } else {
        assert call.toolCalls[0] in call.toolCalls && Requests(r[|ms|], r[i].toolCallID);
      }
    }
  }

  lemma UserMessageKeepsForm(ms: seq<Message>, text: string)
    requires WellFormed(ms)
    ensures WellFormed(AddUserMessage(ms, text))
  {
    if ms != [] && ms[|ms| - 1].role == "user" {
      WellFormedShape(ms, AddUserMessage(ms, text));
    } else {
      WellFormedSnoc(ms, Plain("user", text));
    }
  }

  // ---- The runs considered ----

  predicate StartsCall(e: Envelope, id: string) {
    e.frame.FunctionCallInProgressFrame? && e.frame.toolCallID == id
  }

  /** Nothing is appended from outside, and every result follows the start of its call. */
  predicate Disciplined(trace: seq<Envelope>) {
    forall k :: 0 <= k < |trace| ==>
      && (trace[k].frame.LLMMessagesAppendFrame? ==> trace[k].frame.messages == [])
      && (trace[k].frame.FunctionCallResultFrame? ==>
            exists j :: 0 <= j < k && StartsCall(trace[j], trace[k].frame.toolCallID))
  }

  lemma {:induction false} LastToolFinds(ms: seq<Message>, id: string, i: nat)
    requires i < |ms| && IsToolFor(ms[i], id)
    ensures LastTool(ms, id) >= i
  {
    if i < |ms| - 1 && !IsToolFor(ms[|ms| - 1], id) {
      LastToolFinds(ms[..|ms| - 1], id, i);
    }
  }

  /** Once a call has started, its tool message is there for its result to replace. */
  lemma StartedCallHasMessage(s: State, trace: seq<Envelope>, j: nat, id: string)
    requires j < |trace| && StartsCall(trace[j], id)
    ensures LastTool(After(s, trace).messages, id) >= 0
  {
    var first := trace[..j + 1];
    assert first[..j] == trace[..j];
    var ms := After(s, first).messages;
    HistoryOnlyGrows(s, first, trace[j + 1..]);
    assert first + trace[j + 1..] == trace;
    assert IsToolFor(ms[|ms| - 1], id);
    assert StillReads(ms[|ms| - 1], After(s, trace).messages[|ms| - 1]);
    LastToolFinds(After(s, trace).messages, id, |ms| - 1);
  }

  lemma CommitKeepsForm(s: State)
    requires WellFormed(s.messages)
    ensures WellFormed(CommitSpokenText(s).s.messages)
  {
    if Join(s.spokenWords) != "" {
      WellFormedSnoc(s.messages, Plain("assistant", Join(s.spokenWords)));
    }
  }

  lemma TranscriptKeepsForm(s: State, f: Frame)
    requires WellFormed(s.messages) && f.TranscriptFrame?
    ensures WellFormed(OnTranscript(s, f).s.messages)
  {
    hide WellFormed, AddUserMessage, Join;
    var t := UpdateInterim(s, f);
    CommitKeepsForm(t.(interruptSent := true, botSpeaking := false));
    var r := CheckBargeIn(t, f);
    assert WellFormed(Seeded(r.s)) by {
      if r.s.messages == [] && r.s.defaultPrompt.Some? {
        WellFormedSnoc(r.s.messages, Plain("system", r.s.defaultPrompt.value));
        assert r.s.messages + [Plain("system", r.s.defaultPrompt.value)] == Seeded(r.s);
      }
    }
    UserMessageKeepsForm(Seeded(r.s), r.s.currentTranscript);
  }

  lemma StepKeepsForm(s: State, f: Frame, dir: Direction)
    requires WellFormed(s.messages)
    requires f.LLMMessagesAppendFrame? ==> f.messages == []
    requires f.FunctionCallResultFrame? ==> LastTool(s.messages, f.toolCallID) >= 0
    ensures WellFormed(Step(s, f, dir).s.messages)
  {
    hide WellFormed, LastTool, CommitSpokenText, OnTranscript, RawArguments;
    CommitKeepsForm(s);
    match f
    case TranscriptFrame(_, _, _) => TranscriptKeepsForm(s, f);
    case FunctionCallInProgressFrame(name, id, arguments, raw) => WellFormedCall(s.messages, name, id, arguments, raw);
    case FunctionCallResultFrame(_, _, _, _, _, _) => WellFormedShape(s.messages, Step(s, f, dir).s.messages);
    case LLMMessagesAppendFrame(_, _) => assert s.messages + [] == s.messages;
    case _ =>
  }

  /**
   * From a well-formed history, every disciplined run keeps it well-formed: each tool message
   * follows the message requesting its id with only tool messages between, and no two user
   * messages are adjacent.
   */
  lemma {:induction false} HistoryStaysWellFormed(s: State, trace: seq<Envelope>)
    requires WellFormed(s.messages) && Disciplined(trace)
    ensures WellFormed(After(s, trace).messages)
    decreases |trace|
  {
    hide WellFormed, Step, LastTool;
    if trace != [] {
      var init, e := trace[..|trace| - 1], trace[|trace| - 1];
      HistoryStaysWellFormed(s, init);
      if e.frame.FunctionCallResultFrame? {
        var j :| 0 <= j < |trace| - 1 && StartsCall(trace[j], e.frame.toolCallID);
        StartedCallHasMessage(s, init, j, e.frame.toolCallID);
      }
      StepKeepsForm(After(s, init), e.frame, e.dir);
    }
  }

  lemma RunIsHistory(s: State, f: Frame, dir: Direction)
    ensures var r := Step(s, f, dir); r.run.Some? ==> r.run.value == r.s.messages
  {
    hide AddUserMessage, Seeded, PutResult, MessagesFromInitial, Join, AppendWords, ResultText, RawArguments;
  }

  /** So the model stage is only ever handed well-formed histories. */
  lemma {:induction false} ModelSeesWellFormed(s: State, trace: seq<Envelope>, k: nat)
    requires WellFormed(s.messages) && Disciplined(trace) && k < |trace|
    ensures var r := Step(After(s, trace[..k]), trace[k].frame, trace[k].dir); r.run.Some? ==> WellFormed(r.run.value)
  {
    hide WellFormed, Step;
    var now := trace[..k + 1];
    assert now[..k] == trace[..k];
    assert Disciplined(now) by {
      forall i | 0 <= i < |now| && now[i].frame.FunctionCallResultFrame?
        ensures exists j :: 0 <= j < i && StartsCall(now[j], now[i].frame.toolCallID)
      {
        var j :| 0 <= j < i && StartsCall(trace[j], trace[i].frame.toolCallID);
        assert StartsCall(now[j], now[i].frame.toolCallID);
      }
    }
    HistoryStaysWellFormed(s, now);
    RunIsHistory(After(s, trace[..k]), trace[k].frame, trace[k].dir);
  }

  /**
   * A result whose call never started is appended: the history stays well-formed exactly when a
   * tool message for its id would answer a request at that place.
   */
  lemma StrayResultKeepsFormIff(ms: seq<Message>, id: string, text: string)
    requires WellFormed(ms)
    ensures WellFormed(PutResult(ms, id, text)) <==>
      (exists i :: 0 <= i < |ms| && IsToolFor(ms[i], id)) || Answers(ms + [ToolMessage(id, text)], |ms|)
  {
    var r := PutResult(ms, id, text);
    if i :| 0 <= i < |ms| && IsToolFor(ms[i], id) {
      LastToolFinds(ms, id, i);
      WellFormedShape(ms, r);
    } else if Answers(r, |ms|) {
      forall i | 0 <= i < |r| && r[i].role == "tool" ensures Answers(r, i) {
        if i < |ms| {
          assert Answers(ms, i);
          var j :| 0 <= j < i && Requests(ms[j], ms[i].toolCallID) && forall k :: j < k < i ==> ms[k].role == "tool";
          assert Requests(r[j], r[i].toolCallID);
        }
      }
    } else {
      assert r[|ms|].role == "tool";
    }
  }

  // ---- What is recorded of calls, results and appended messages ----

  /** A started call is recorded as a request, with its arguments as they came or "{}", and a pending answer. */
  lemma StartedCallIsRecorded(s: State, f: Frame, dir: Direction)
    requires f.FunctionCallInProgressFrame?
    ensures var r := Step(s, f, dir);
      var arguments := if f.rawArguments != "" then f.rawArguments else if f.arguments != "" then f.arguments else "{}";
      && r.s.messages == s.messages + [
           Message("assistant", "", [ToolCall(f.toolCallID, "function", f.name, arguments)], ""),
           Message("tool", "IN_PROGRESS", [], f.toolCallID)]
      && r.out == [Push(f, Upstream)] && r.run == None
  {
  }

  /** What a result says: its text without the white space around it, or an error if that is nothing. */
  predicate SaysResult(text: string, said: string) {
    if Blank(text) then said == "{\"error\":\"empty tool result\"}" else said == TrimSpace(text)
  }

  /**
   * A result replaces the content of the latest message for its id, and nothing else; without such a
   * message it is appended. It is reported, passed upstream, and an empty one complained about first.
   */
  lemma ResultIsRecorded(s: State, f: Frame, dir: Direction) returns (said: string)
    requires f.FunctionCallResultFrame?
    ensures SaysResult(f.result, said)
    ensures var r, ms, n := Step(s, f, dir), s.messages, |s.messages|;
      if exists i :: 0 <= i < n && ms[i].role == "tool" && ms[i].toolCallID == f.toolCallID then
        exists i :: 0 <= i < n && ms[i].role == "tool" && ms[i].toolCallID == f.toolCallID
          && (forall k :: i < k < n ==> !(ms[k].role == "tool" && ms[k].toolCallID == f.toolCallID))
          && r.s.messages == ms[i := Message("tool", said, ms[i].toolCalls, f.toolCallID)]
      else
        r.s.messages == ms + [Message("tool", said, [], f.toolCallID)]
    ensures Blank(f.result) <==> Push(ErrorFrame("empty tool result", false), Upstream) in Step(s, f, dir).out
    ensures Push(f, Upstream) in Step(s, f, dir).out
  {
    hide TrimSpace, RawArguments, LastTool;
    TrimmedAwayIff(f.result);
    said := ResultText(f.result);
    LatestTool(s.messages, f.toolCallID);
    var i := LastTool(s.messages, f.toolCallID);
    if i >= 0 {
      assert s.messages[i].(content := said) == Message("tool", said, s.messages[i].toolCalls, f.toolCallID);
    }
    var complaint := Push(ErrorFrame("empty tool result", false), Upstream);
    var out := Step(s, f, dir).out;
    if Blank(f.result) {
      assert out[0] == complaint;
    }
    assert out[|out| - 1] == Push(f, Upstream);
  }

  lemma {:induction false} LatestTool(ms: seq<Message>, id: string)
    ensures forall k :: LastTool(ms, id) < k < |ms| ==> !IsToolFor(ms[k], id)
    decreases |ms|
  {
    if ms != [] {
      LatestTool(ms[..|ms| - 1], id);
    }
  }

  /** Of appended messages exactly those with a role and any content are taken, in order. */
  lemma {:induction false} TakenInOrder(a: seq<Message>, m: Message, b: seq<Message>)
    ensures MessagesFromInitial(a + [m] + b) == MessagesFromInitial(a)
      + (if m.role != "" && (m.content != "" || m.toolCalls != [] || m.toolCallID != "") then [m] else [])
      + MessagesFromInitial(b)
    decreases |b|
  {
    if b == [] {
      assert a + [m] + b == a + [m];
      assert (a + [m])[..|a|] == a;
    } else {
      TakenInOrder(a, m, b[..|b| - 1]);
      var all := a + [m] + b;
      assert all[..|all| - 1] == a + [m] + b[..|b| - 1];
    }
  }
}
