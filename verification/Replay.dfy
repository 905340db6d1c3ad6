/**
 * Writing a conversation as chunks and reading it back at the start of a later call.
 */
module Replay {
  import opened Frames
  import opened ToolResultOrder

  /** A decoded JSON value. */
  datatype JSON =
    | JNull
    | JBool(b: bool)
    | JNum(n: real)
    | JStr(s: string)
    | JArr(items: seq<JSON>)
    | JObj(fields: map<string, JSON>)

  predicate IsTruthy(v: JSON) {
    match v
    case JNull => false
    case JBool(b) => b
    case JNum(n) => n != 0.0
    case JStr(s) => s != ""
    case JArr(items) => items != []
    case JObj(fields) => fields != map[]
  }

  // ---- Tool calls as JSON ----

  function EncodeCall(c: ToolCall): JSON {
    JObj(map["id" := JStr(c.id), "type" := JStr(c.kind),
             "function" := JObj(map["name" := JStr(c.name), "arguments" := JStr(c.arguments)])])
  }

  function EncodeCalls(calls: seq<ToolCall>): seq<JSON> {
    if calls == [] then [] else EncodeCalls(calls[..|calls| - 1]) + [EncodeCall(calls[|calls| - 1])]
  }

  /** A string member: absent and null leave it empty, any other type is an error. */
  function StringField(fields: map<string, JSON>, key: string): Option<string> {
    if key !in fields || fields[key].JNull? then Some("")
    else if fields[key].JStr? then Some(fields[key].s)
    else None
  }

  function DecodeFunction(fields: map<string, JSON>): Option<(string, string)> {
    if "function" !in fields || fields["function"].JNull? then Some(("", ""))
    else if !fields["function"].JObj? then None
    else
      var name, arguments := StringField(fields["function"].fields, "name"),
          StringField(fields["function"].fields, "arguments");
      if name.Some? && arguments.Some? then Some((name.value, arguments.value)) else None
  }

  function DecodeCall(v: JSON): Option<ToolCall> {
    if v.JNull? then Some(ToolCall("", "", "", ""))
    else if !v.JObj? then None
    else
      var id, kind, f := StringField(v.fields, "id"), StringField(v.fields, "type"), DecodeFunction(v.fields);
      if id.Some? && kind.Some? && f.Some? then Some(ToolCall(id.value, kind.value, f.value.0, f.value.1)) else None
  }

  function DecodeCalls(items: seq<JSON>): Option<seq<ToolCall>> {
    if items == [] then Some([])
    else
      var init, last := DecodeCalls(items[..|items| - 1]), DecodeCall(items[|items| - 1]);
      if init.Some? && last.Some? then Some(init.value + [last.value]) else None
  }

  lemma DecodeCallsSnoc(items: seq<JSON>, v: JSON)
    requires DecodeCalls(items).Some? && DecodeCall(v).Some?
    ensures DecodeCalls(items + [v]) == Some(DecodeCalls(items).value + [DecodeCall(v).value])
  {
    hide DecodeCall;
    assert (items + [v])[..|items|] == items;
  }

  lemma {:induction false} CallsRoundTrip(calls: seq<ToolCall>)
    ensures DecodeCalls(EncodeCalls(calls)) == Some(calls)
    ensures |EncodeCalls(calls)| == |calls|
  {
    hide EncodeCall, DecodeCall, DecodeCalls;
    if calls == [] {
      assert DecodeCalls([]) == Some([]) by { NoCalls(); }
    } else {
      var init, last := calls[..|calls| - 1], calls[|calls| - 1];
      CallsRoundTrip(init);
      CallRoundTrip(last);
      DecodeCallsSnoc(EncodeCalls(init), EncodeCall(last));
      assert init + [last] == calls;
    }
  }

  lemma NoCalls()
    ensures DecodeCalls([]) == Some([])
  {
  }

  lemma CallRoundTrip(c: ToolCall)
    ensures DecodeCall(EncodeCall(c)) == Some(c)
  {
    var fields := EncodeCall(c).fields;
    assert DecodeFunction(fields) == Some((c.name, c.arguments));
  }

  // ---- One chunk ----

  /** What is stored beside the text of a message. */
  function ToolContextAdditionalData(m: Message): JSON {
    if m.role == "assistant" then
      if m.toolCalls == [] then JNull else JObj(map["tool_calls" := JArr(EncodeCalls(m.toolCalls))])
    else if m.role == "tool" then
      if m.toolCallID == "" then JNull else JObj(map["tool_call_id" := JStr(m.toolCallID)])
    else JNull
  }

  /** The stored tuple: chunk id, role, text, debug mark, additional data. */
  function Chunk(id: string, m: Message): seq<JSON> {
    [JStr(id), JStr(m.role), JStr(m.content), JBool(false), ToolContextAdditionalData(m)]
  }

  function MessageFromToolContext(role: string, text: string, data: JSON): Option<Message> {
    if !data.JObj? then None
    else if "tool_calls" in data.fields then
      var v := data.fields["tool_calls"];
      var calls := if v.JArr? then DecodeCalls(v.items) else None;
      if calls.Some? && calls.value != [] then Some(Message(role, "", calls.value, "")) else None
    else if "tool_call_id" in data.fields && data.fields["tool_call_id"].JStr?
        && data.fields["tool_call_id"].s != "" then
      Some(Message(role, text, [], data.fields["tool_call_id"].s))
    else None
  }

  function Str(v: JSON): string {
    if v.JStr? then v.s else ""
  }

  /** The message a stored tuple stands for, if any. */
  function MessageFromChunk(tuple: seq<JSON>): Option<Message> {
    if |tuple| < 4 || tuple[3] == JBool(true) then None
    else if |tuple| >= 5 && IsTruthy(tuple[4]) then MessageFromToolContext(Str(tuple[1]), Str(tuple[2]), tuple[4])
    else Some(Message(Str(tuple[1]), Str(tuple[2]), [], ""))
  }

  function Decode(chunks: seq<seq<JSON>>): seq<Message> {
    if chunks == [] then []
    else
      var m := MessageFromChunk(chunks[|chunks| - 1]);
      Decode(chunks[..|chunks| - 1]) + (if m.Some? then [m.value] else [])
  }

  function System(text: string): Message {
    Message("system", text, [], "")
  }

  function Finish(msgs: seq<Message>, resumeMessage: string): seq<Message> {
    if |msgs| <= 1 then msgs + [Message("user", "hello?", [], "")]
    else if resumeMessage != "" then msgs + [System(resumeMessage)]
    else msgs
  }

  method BuildInitialMessages(systemPrompt: string, chunks: seq<seq<JSON>>, resumeMessage: string)
    returns (msgs: seq<Message>)
    ensures msgs == Finish(Reorder([System(systemPrompt)] + Decode(chunks)), resumeMessage)
  {
    msgs := [System(systemPrompt)];
    for i := 0 to |chunks|
      invariant msgs == [System(systemPrompt)] + Decode(chunks[..i])
    {
      assert chunks[..i + 1][..i] == chunks[..i];
      var m := MessageFromChunk(chunks[i]);
      if m.Some? {
        msgs := msgs + [m.value];
      }
    }
    assert chunks[..|chunks|] == chunks;
    msgs := ReorderToolResultMessages(msgs);
    var hasPriorTurns := |msgs| > 1;
    if hasPriorTurns && resumeMessage != "" {
      msgs := msgs + [System(resumeMessage)];
    }
    if !hasPriorTurns {
      msgs := msgs + [Message("user", "hello?", [], "")];
    }
  }

  // ---- What a call writes ----

  /** A committed turn: text of one side, or one tool call with its result. */
  datatype Turn = Said(role: string, text: string) | Called(call: ToolCall, result: string)

  function MessagesOf(turn: Turn): seq<Message> {
    match turn
    case Said(role, text) => [Message(role, text, [], "")]
    case Called(call, result) => [Message("assistant", "", [call], ""), Message("tool", result, [], call.id)]
  }

  function AllMessages(turns: seq<Turn>): seq<Message> {
    if turns == [] then [] else AllMessages(turns[..|turns| - 1]) + MessagesOf(turns[|turns| - 1])
  }

  /** The chunks of a list of messages, under whatever chunk ids they were given. */
  ghost predicate AreChunksOf(chunks: seq<seq<JSON>>, ms: seq<Message>) {
    |chunks| == |ms| && forall i :: 0 <= i < |chunks| ==> IsChunkOf(chunks[i], ms[i])
  }

  ghost predicate IsChunkOf(chunk: seq<JSON>, m: Message) {
    exists id :: chunk == Chunk(id, m)
  }

  predicate Storable(m: Message) {
    || (m.toolCalls == [] && m.toolCallID == "")
    || (m.role == "assistant" && m.content == "" && m.toolCalls != [] && m.toolCallID == "")
    || (m.role == "tool" && m.toolCalls == [] && m.toolCallID != "")
  }

  /** A chunk is read back as the message it was written for. */
  lemma ChunkRoundTrip(id: string, m: Message)
    requires Storable(m)
    ensures MessageFromChunk(Chunk(id, m)) == Some(m)
  {
    if m.toolCalls != [] {
      CallsRoundTrip(m.toolCalls);
      assert "tool_calls" in ToolContextAdditionalData(m).fields;
    } else if m.toolCallID != "" {
      assert "tool_call_id" in ToolContextAdditionalData(m).fields;
    }
  }

  lemma {:induction false} ChunksRoundTrip(chunks: seq<seq<JSON>>, ms: seq<Message>)
    requires AreChunksOf(chunks, ms) && forall i :: 0 <= i < |ms| ==> Storable(ms[i])
    ensures Decode(chunks) == ms
    decreases |chunks|
  {
    hide MessageFromChunk, Chunk, Storable;
    if chunks != [] {
      var last := |ms| - 1;
      ChunksRoundTrip(chunks[..last], ms[..last]);
      assert IsChunkOf(chunks[last], ms[last]);
      var id :| chunks[last] == Chunk(id, ms[last]);
      ChunkRoundTrip(id, ms[last]);
      assert ms == ms[..last] + [ms[last]];
    }
  }

  lemma {:induction false} TurnsAreStorable(turns: seq<Turn>)
    ensures forall i :: 0 <= i < |AllMessages(turns)| ==> Storable(AllMessages(turns)[i])
  {
    if turns != [] {
      TurnsAreStorable(turns[..|turns| - 1]);
    }
  }

  // ---- Round trip ----

  predicate Calls(turn: Turn, id: string) {
    turn.Called? && turn.call.id == id
  }

  /** No two calls share an id, except the empty one. */
  ghost predicate DistinctIds(turns: seq<Turn>) {
    forall i, j :: 0 <= i < j < |turns| && turns[i].Called? && turns[i].call.id != "" ==>
      !Calls(turns[j], turns[i].call.id)
  }

  function Prompted(systemPrompt: string, turns: seq<Turn>): seq<Message> {
    [System(systemPrompt)] + AllMessages(turns)
  }

  lemma PromptedSnoc(p: string, turns: seq<Turn>)
    requires turns != []
    ensures Prompted(p, turns) == Prompted(p, turns[..|turns| - 1]) + MessagesOf(turns[|turns| - 1])
  {
  }

  lemma TurnSelections(turn: Turn, id: string)
    requires id != ""
    ensures Group(MessagesOf(turn), id) == if Calls(turn, id) then [MessagesOf(turn)[1]] else []
    ensures NonTool(MessagesOf(turn)) ==
      if turn.Called? && turn.call.id != "" then [MessagesOf(turn)[0]] else MessagesOf(turn)
  {
    hide Group, NonTool;
    var ms := MessagesOf(turn);
    OneMessage(ms[0], id);
    if turn.Called? {
      OneMessage(ms[1], id);
      GroupConcat([ms[0]], [ms[1]], id);
      NonToolConcat([ms[0]], [ms[1]]);
      assert ms == [ms[0]] + [ms[1]];
    }
  }

  /** With an id called once, its group is its one result; with an id never called, nothing. */
  lemma {:induction false} GroupOfTurns(p: string, turns: seq<Turn>, id: string, i: nat)
    requires id != ""
    requires i <= |turns| && (i < |turns| ==> Calls(turns[i], id))
    requires forall k :: 0 <= k < |turns| && k != i ==> !Calls(turns[k], id)
    ensures Group(Prompted(p, turns), id) == if i < |turns| then [MessagesOf(turns[i])[1]] else []
    decreases |turns|
  {
    hide Group, MessagesOf;
    if turns == [] {
      OneMessage(System(p), id);
      assert Prompted(p, turns) == [System(p)];
    } else {
      var last := |turns| - 1;
      GroupOfTurns(p, turns[..last], id, if i < last then i else last);
      PromptedSnoc(p, turns);
      GroupConcat(Prompted(p, turns[..last]), MessagesOf(turns[last]), id);
      TurnSelections(turns[last], id);
    }
  }

  /** Which ids the messages of some turns request. */
  lemma {:induction false} RequestedByTurns(p: string, turns: seq<Turn>, id: string)
    requires id != ""
    ensures Requested(NonTool(Prompted(p, turns)), id) <==> exists k :: 0 <= k < |turns| && Calls(turns[k], id)
    decreases |turns|
  {
    hide NonTool, Requested, MessagesOf;
    if turns == [] {
      OneMessage(System(p), id);
      assert Prompted(p, turns) == [System(p)];
      NothingRequested(System(p), id);
    } else {
      var last := |turns| - 1;
      RequestedByTurns(p, turns[..last], id);
      PromptedSnoc(p, turns);
      NonToolConcat(Prompted(p, turns[..last]), MessagesOf(turns[last]));
      RequestedByOne(NonTool(Prompted(p, turns[..last])), turns[last], id);
      if k :| 0 <= k < |turns| && Calls(turns[k], id) {
        assert k < last ==> Calls(turns[..last][k], id);
      }
    }
  }

  lemma NothingRequested(m: Message, id: string)
    requires m.toolCalls == []
    ensures !Requested([m], id)
  {
  }

  lemma RequestedByOne(before: seq<Message>, turn: Turn, id: string)
    requires id != ""
    ensures Requested(before + NonTool(MessagesOf(turn)), id) <==> Requested(before, id) || Calls(turn, id)
  {
    hide NonTool;
    TurnSelections(turn, id);
    var ms := MessagesOf(turn);
    RequestedSnoc(before, ms[0]);
    if turn.Called? {
      RequestedSnoc(before + [ms[0]], ms[1]);
      assert before + [ms[0]] + [ms[1]] == before + ms;
      assert [turn.call][..0] == [];
      assert Lists([turn.call], id) <==> turn.call.id == id;
    } else {
      assert ms == [ms[0]];
    }
  }

  /** The body built from the first turns is those turns as they were. */
  lemma {:induction false} BodyOfTurns(p: string, turns: seq<Turn>, n: nat)
    requires DistinctIds(turns) && n <= |turns|
    ensures Body(NonTool(Prompted(p, turns[..n])), Prompted(p, turns)) == Prompted(p, turns[..n])
    decreases n
  {
    hide NonTool, Group, Requested, MessagesOf;
    var ms := Prompted(p, turns);
    if n == 0 {
      assert turns[..0] == [] && Prompted(p, []) == [System(p)];
      OneMessage(System(p), "");
      assert Body([System(p)], ms) == [System(p)] by { BodyOfOne(System(p), ms); }
    } else {
      var init, turn := turns[..n - 1], turns[n - 1];
      BodyOfTurns(p, turns, n - 1);
      assert turns[..n][..n - 1] == init;
      PromptedSnoc(p, turns[..n]);
      NonToolConcat(Prompted(p, init), MessagesOf(turn));
      BodyOfTurn(p, turns, n);
    }
  }

  lemma BodyOfOne(m: Message, ms: seq<Message>)
    requires m.toolCalls == []
    ensures Body([m], ms) == [m]
  {
  }

  lemma BodySnoc(before: seq<Message>, m: Message, ms: seq<Message>)
    ensures Body(before + [m], ms) == Body(before, ms) + [m] + Attached(before, m.toolCalls, ms)
  {
    hide Attached;
    assert (before + [m])[..|before|] == before;
  }

  /** Behind a call goes its own result. */
  lemma CallAttachesResult(p: string, turns: seq<Turn>, i: nat)
    requires DistinctIds(turns) && i < |turns| && turns[i].Called?
    ensures Attached(NonTool(Prompted(p, turns[..i])), [turns[i].call], Prompted(p, turns)) ==
      if turns[i].call.id == "" then [] else [MessagesOf(turns[i])[1]]
  {
    hide NonTool, Group, Requested, Prompted, MessagesOf;
    var before, ms, call := NonTool(Prompted(p, turns[..i])), Prompted(p, turns), turns[i].call;
    AttachedOne(before, call, ms);
    if call.id == "" {
      EmptyIdHasNone(ms);
    } else {
      GroupOfTurns(p, turns, call.id, i);
      RequestedByTurns(p, turns[..i], call.id);
    }
  }

  /** One turn more in the body. */
  lemma BodyOfTurn(p: string, turns: seq<Turn>, n: nat)
    requires DistinctIds(turns) && 0 < n <= |turns|
    ensures var before := NonTool(Prompted(p, turns[..n - 1]));
      Body(before + NonTool(MessagesOf(turns[n - 1])), Prompted(p, turns)) ==
      Body(before, Prompted(p, turns)) + MessagesOf(turns[n - 1])
  {
    hide NonTool, Group, Requested, Body, DistinctIds, Prompted;
    var before, ms, turn := NonTool(Prompted(p, turns[..n - 1])), Prompted(p, turns), turns[n - 1];
    var added := MessagesOf(turn);
    TurnSelections(turn, "x");
    BodySnoc(before, added[0], ms);
    if turn.Called? {
      CallAttachesResult(p, turns, n - 1);
      if turn.call.id == "" {
        BodySnoc(before + [added[0]], added[1], ms);
        assert before + [added[0]] + [added[1]] == before + added;
      }
    }
  }

  lemma AttachedOne(before: seq<Message>, call: ToolCall, ms: seq<Message>)
    ensures Attached(before, [call], ms) == if Requested(before, call.id) then [] else Group(ms, call.id)
  {
    hide Group, Requested;
    assert [call][..0] == [];
  }

  /** Written turns with distinct ids are already in order. */
  lemma TurnsAreInOrder(p: string, turns: seq<Turn>)
    requires DistinctIds(turns)
    ensures Reorder(Prompted(p, turns)) == Prompted(p, turns)
    ensures forall id :: id in FirstIds(Prompted(p, turns)) ==> Requested(NonTool(Prompted(p, turns)), id)
  {
    hide NonTool, Group, Requested, Body, Orphans, FirstIds;
    var ms := Prompted(p, turns);
    assert turns[..|turns|] == turns;
    BodyOfTurns(p, turns, |turns|);
    forall id | id in FirstIds(ms) ensures Requested(NonTool(ms), id) {
      FirstIdsAre(ms, id);
      EmptyIdHasNone(ms);
      if !exists k :: 0 <= k < |turns| && Calls(turns[k], id) {
        GroupOfTurns(p, turns, id, |turns|);
      } else {
        RequestedByTurns(p, turns, id);
      }
    }
    NoOrphans(FirstIds(ms), NonTool(ms), ms);
  }

  lemma {:induction false} NoOrphans(ids: seq<string>, others: seq<Message>, ms: seq<Message>)
    requires forall id :: id in ids ==> Requested(others, id)
    ensures Orphans(ids, others, ms) == [] && OrphanIds(ids, others) == []
  {
    hide Requested;
    if ids != [] {
      NoOrphans(ids[..|ids| - 1], others, ms);
    }
  }

  lemma {:induction false} AllMessagesConcat(a: seq<Turn>, b: seq<Turn>)
    ensures AllMessages(a + b) == AllMessages(a) + AllMessages(b)
    decreases |b|
  {
    hide MessagesOf;
    if b == [] {
      assert a + b == a;
    } else {
      AllMessagesConcat(a, b[..|b| - 1]);
      assert (a + b)[..|a + b| - 1] == a + b[..|b| - 1];
    }
  }

  /** A second call with the same id does not stay where it was. */
  lemma RepeatedIdMoves(p: string, turns: seq<Turn>, i: nat, j: nat)
    requires i < j < |turns| && turns[i].Called? && turns[i].call.id != "" && Calls(turns[j], turns[i].call.id)
    ensures Reorder(Prompted(p, turns)) != Prompted(p, turns)
  {
    hide NonTool, Requested, Reorder, Rank, NoLater, AllMessages;
    var ms, id, first := Prompted(p, turns), turns[i].call.id, Prompted(p, turns[..j]);
    AllMessagesConcat(turns[..j], turns[j..]);
    AllMessagesConcat([turns[j]], turns[j + 1..]);
    assert turns == turns[..j] + turns[j..] && turns[j..] == [turns[j]] + turns[j + 1..];
    assert AllMessages([turns[j]]) == MessagesOf(turns[j]) by { OneTurn(turns[j]); }
    assert ms == first + MessagesOf(turns[j]) + AllMessages(turns[j + 1..]);
    var q := |first|;
    assert ms[..q] == first && ms[q..q + 2] == MessagesOf(turns[j]);
    assert ms[q] == MessagesOf(turns[j])[0] && ms[q + 1] == MessagesOf(turns[j])[1];
    assert Calls(turns[j], id) && Calls(turns[..j][i], id);
    RequestedByTurns(p, turns, id);
    RequestedByTurns(p, turns[..j], id);
    if Reorder(ms) == ms {
      ResultsArePlaced(ms, q + 1);
    }
  }

  lemma OneTurn(turn: Turn)
    ensures AllMessages([turn]) == MessagesOf(turn)
  {
    assert [turn][..0] == [];
  }

  function Ending(resumeMessage: string): seq<Message> {
    if resumeMessage != "" then [System(resumeMessage)] else []
  }

  /**
   * Reading back the chunks of a conversation gives the system prompt, exactly the messages that
   * were written, and the resume note, if and only if no two calls in it share an id.
   */
  lemma ReplayRoundTrip(p: string, turns: seq<Turn>, chunks: seq<seq<JSON>>, resumeMessage: string)
    requires turns != [] && AreChunksOf(chunks, AllMessages(turns))
    ensures Finish(Reorder([System(p)] + Decode(chunks)), resumeMessage) == Prompted(p, turns) + Ending(resumeMessage)
            <==> DistinctIds(turns)
  {
    hide Reorder, DistinctIds, Decode;
    var ms := Prompted(p, turns);
    TurnsAreStorable(turns);
    ChunksRoundTrip(chunks, AllMessages(turns));
    PromptedSnoc(p, turns);
    ReorderIsPermutation(ms);
    assert |multiset(Reorder(ms))| == |Reorder(ms)| && |multiset(ms)| == |ms|;
    assert Finish(Reorder(ms), resumeMessage) == Reorder(ms) + Ending(resumeMessage);
    assert (Reorder(ms) + Ending(resumeMessage))[..|ms|] == Reorder(ms);
    assert (ms + Ending(resumeMessage))[..|ms|] == ms;
    RoundTripIff(p, turns);
  }

  lemma RoundTripIff(p: string, turns: seq<Turn>)
    ensures Reorder(Prompted(p, turns)) == Prompted(p, turns) <==> DistinctIds(turns)
  {
    hide Reorder, Prompted;
    if DistinctIds(turns) {
      TurnsAreInOrder(p, turns);
    } else {
      var i, j :| 0 <= i < j < |turns| && turns[i].Called? && turns[i].call.id != ""
          && Calls(turns[j], turns[i].call.id);
      RepeatedIdMoves(p, turns, i, j);
    }
  }

  /** Without prior turns, the bot is made to speak first. */
  lemma FreshCallGreets(p: string, resumeMessage: string)
    ensures Finish(Reorder([System(p)] + Decode([])), resumeMessage) == [System(p), Message("user", "hello?", [], "")]
  {
    hide Reorder;
    assert [System(p)] + Decode([]) == Prompted(p, []);
    TurnsAreInOrder(p, []);
  }

  // ---- Result chunks may be stored anywhere ----

  predicate IsResultChunk(chunk: seq<JSON>) {
    var m := MessageFromChunk(chunk); m.Some? && IsResult(m.value)
  }

  function OtherChunks(chunks: seq<seq<JSON>>): seq<seq<JSON>> {
    if chunks == [] then []
    else
      var c := chunks[|chunks| - 1];
      OtherChunks(chunks[..|chunks| - 1]) + (if IsResultChunk(c) then [] else [c])
  }

  lemma {:induction false} DecodeConcat(a: seq<seq<JSON>>, b: seq<seq<JSON>>)
    ensures Decode(a + b) == Decode(a) + Decode(b)
    decreases |b|
  {
    hide MessageFromChunk;
    if b == [] {
      assert a + b == a;
    } else {
      DecodeConcat(a, b[..|b| - 1]);
      assert (a + b)[..|a + b| - 1] == a + b[..|b| - 1];
    }
  }

  lemma DecodeOne(c: seq<JSON>)
    ensures Decode([c]) == if MessageFromChunk(c).Some? then [MessageFromChunk(c).value] else []
  {
    hide MessageFromChunk;
    assert [c][..0] == [];
  }

  lemma {:induction false} DecodeOthers(chunks: seq<seq<JSON>>)
    ensures NonTool(Decode(chunks)) == Decode(OtherChunks(chunks))
  {
    hide MessageFromChunk;
    if chunks != [] {
      var init, c := chunks[..|chunks| - 1], chunks[|chunks| - 1];
      DecodeOthers(init);
      DecodeConcat(init, [c]);
      assert init + [c] == chunks;
      DecodeConcat(OtherChunks(init), [c]);
      DecodeOne(c);
      NonToolConcat(Decode(init), Decode([c]));
      if MessageFromChunk(c).Some? {
        OneMessage(MessageFromChunk(c).value, "");
      }
      assert NonTool(Decode([c])) == if IsResultChunk(c) then [] else Decode([c]);
      assert OtherChunks(chunks) == if IsResultChunk(c) then OtherChunks(init) else OtherChunks(init) + [c];
    }
  }

  lemma RemoveOne(a: seq<seq<JSON>>, c: seq<JSON>, x: seq<seq<JSON>>, y: seq<seq<JSON>>)
    requires multiset(a + [c]) == multiset(x + [c] + y)
    ensures multiset(a) == multiset(x + y)
  {
    assert multiset(a + [c]) == multiset(a) + multiset([c]);
    assert multiset(x + [c] + y) == multiset(x) + multiset([c]) + multiset(y);
    forall e ensures multiset(a)[e] == multiset(x + y)[e] {
      assert multiset(a + [c])[e] == multiset(x + [c] + y)[e];
    }
  }

  lemma {:induction false} DecodePermuted(a: seq<seq<JSON>>, b: seq<seq<JSON>>)
    requires multiset(a) == multiset(b)
    ensures multiset(Decode(a)) == multiset(Decode(b))
    decreases |a|
  {
    hide MessageFromChunk, Decode;
    if a == [] {
      assert |multiset(b)| == |b|;
    } else {
      var init, c := a[..|a| - 1], a[|a| - 1];
      assert a == init + [c];
      assert c in multiset(b);
      var k :| 0 <= k < |b| && b[k] == c;
      var x, y := b[..k], b[k + 1..];
      assert b == x + [c] + y;
      RemoveOne(init, c, x, y);
      DecodePermuted(init, x + y);
      DecodeConcat(init, [c]);
      DecodeConcat(x + [c], y);
      DecodeConcat(x, [c]);
      DecodeConcat(x, y);
    }
  }

  /** Permuting a list permutes each group. */
  lemma GroupPermuted(a: seq<Message>, b: seq<Message>, id: string)
    requires multiset(a) == multiset(b)
    ensures multiset(Group(a, id)) == multiset(Group(b, id))
  {
    hide Group;
    forall m ensures multiset(Group(a, id))[m] == multiset(Group(b, id))[m] {
      if IsResult(m) && m.toolCallID == id {
        CountBySelection(a, m);
        CountBySelection(b, m);
      } else {
        NotInGroup(a, id, m);
        NotInGroup(b, id, m);
      }
    }
  }

  lemma NotInGroup(a: seq<Message>, id: string, m: Message)
    requires !(IsResult(m) && m.toolCallID == id)
    ensures multiset(Group(a, id))[m] == 0
  {
    hide Group;
    GroupMembers(a, id);
  }

  lemma OneElement<T>(g: seq<T>, h: seq<T>)
    requires multiset(g) == multiset(h) && |g| <= 1
    ensures g == h
  {
    assert |multiset(g)| == |g| && |multiset(h)| == |h|;
    if |g| == 1 {
      assert h[0] in multiset(g);
    }
  }

  /** At most one message per id: permuting cannot change the group. */
  lemma SmallGroupKept(a: seq<Message>, b: seq<Message>, id: string)
    requires multiset(a) == multiset(b) && |Group(a, id)| <= 1
    ensures Group(b, id) == Group(a, id)
  {
    hide Group;
    GroupPermuted(a, b, id);
    OneElement(Group(a, id), Group(b, id));
  }

  /**
   * The result chunks may have been stored in any place: as long as the other chunks keep their
   * order, reading back gives the same messages.
   */
  lemma {:induction false} ResultChunksMayMove(p: string, turns: seq<Turn>, chunks: seq<seq<JSON>>,
                                               moved: seq<seq<JSON>>)
    requires DistinctIds(turns) && AreChunksOf(chunks, AllMessages(turns))
    requires multiset(moved) == multiset(chunks) && OtherChunks(moved) == OtherChunks(chunks)
    ensures Reorder([System(p)] + Decode(moved)) == Prompted(p, turns)
  {
    hide Reorder, NonTool, Group, FirstIds, Requested, Decode, OtherChunks, OrphanIds, DistinctIds, AllMessages;
    var a, b := Prompted(p, turns), [System(p)] + Decode(moved);
    TurnsAreStorable(turns);
    ChunksRoundTrip(chunks, AllMessages(turns));
    DecodeOthers(moved);
    DecodeOthers(chunks);
    NonToolConcat([System(p)], Decode(moved));
    NonToolConcat([System(p)], Decode(chunks));
    DecodePermuted(moved, chunks);
    assert multiset(a) == multiset([System(p)]) + multiset(Decode(chunks));
    assert multiset(b) == multiset([System(p)]) + multiset(Decode(moved));
    forall id ensures Group(b, id) == Group(a, id) {
      GroupsOfTurnsAreSmall(p, turns, id);
      SmallGroupKept(a, b, id);
    }
    TurnsAreInOrder(p, turns);
    forall id | id in FirstIds(b) ensures Requested(NonTool(b), id) {
      FirstIdsAre(b, id);
      FirstIdsAre(a, id);
    }
    NoOrphans(FirstIds(a), NonTool(a), a);
    NoOrphans(FirstIds(b), NonTool(b), b);
    ReorderBySelections(b, a);
  }

  lemma GroupsOfTurnsAreSmall(p: string, turns: seq<Turn>, id: string)
    requires DistinctIds(turns)
    ensures |Group(Prompted(p, turns), id)| <= 1
  {
    hide Group, Prompted, MessagesOf;
    if id == "" {
      EmptyIdHasNone(Prompted(p, turns));
    } else if i :| 0 <= i < |turns| && Calls(turns[i], id) {
      GroupOfTurns(p, turns, id, i);
    } else {
      GroupOfTurns(p, turns, id, |turns|);
    }
  }

  // ---- Which chunks count ----

  /** Nothing stored beside the text: absent, null, false, zero, or empty. */
  predicate NothingBeside(tuple: seq<JSON>) {
    |tuple| >= 5 ==>
      tuple[4] in {JNull, JBool(false), JNum(0.0), JStr(""), JArr([]), JObj(map[])}
  }

  /** A chunk that is too short or marked as debug is passed over, wherever it stands. */
  lemma DebugChunksAreSkipped(a: seq<seq<JSON>>, tuple: seq<JSON>, b: seq<seq<JSON>>)
    requires |tuple| < 4 || tuple[3] == JBool(true)
    ensures Decode(a + [tuple] + b) == Decode(a) + Decode(b)
  {
    DecodeConcat(a + [tuple], b);
    assert (a + [tuple])[..|a|] == a;
  }

  /** Any other chunk with nothing beside its text is a message with that role and text. */
  lemma PlainChunksAreMessages(a: seq<seq<JSON>>, tuple: seq<JSON>, b: seq<seq<JSON>>, role: string, text: string)
    requires |tuple| >= 4 && tuple[3] != JBool(true) && NothingBeside(tuple)
    requires tuple[1] == JStr(role) && tuple[2] == JStr(text)
    ensures Decode(a + [tuple] + b) == Decode(a) + [Message(role, text, [], "")] + Decode(b)
  {
    DecodeConcat(a + [tuple], b);
    assert (a + [tuple])[..|a|] == a;
  }

  /** With anything beside it, a chunk is a tool message or nothing: never plain text. */
  lemma OtherChunksAreToolMessages(tuple: seq<JSON>)
    requires !NothingBeside(tuple) && |tuple| >= 5 && MessageFromChunk(tuple).Some?
    ensures var m := MessageFromChunk(tuple).value; m.toolCalls != [] || m.toolCallID != ""
  {
  }
}
