/**
 * One batch of tool calls: how the model stage runs it, and what the history holds when the last
 * result makes the model run again.
 */
module ToolBatch {
  import opened Frames
  import opened History
  import opened JsonText
  import opened Text

  /** What a handler returned, as far as turning it into text goes. */
  datatype Value = Nil | Text(text: string) | Encoded(raw: string) | Unencodable(printed: string)

  datatype Handling =
    | Unregistered
    | Failed(err: string)
    | Answered(value: Value, runLLM: bool)

  /** A requested call, its parsed arguments ("" when there are none), and what its handler will do. */
  datatype Job = Job(call: ToolCall, arguments: string, parseError: Option<string>, handling: Handling)

  const EMPTY := "empty tool result"

  const ERROR_HEAD := "{\"error\":\""
  const ERROR_TAIL := "\"}"

  /** An error as the model sees it: an object with the message as JSON text. */
  function ErrorText(message: string): string {
    ERROR_HEAD + Escape(message) + ERROR_TAIL
  }

  /** The message such an object carries. */
  function ErrorMessage(text: string): Option<string> {
    if ERROR_HEAD <= text && |text| >= |ERROR_HEAD| + |ERROR_TAIL| && text[|text| - |ERROR_TAIL|..] == ERROR_TAIL then
      Unescape(text[|ERROR_HEAD|..|text| - |ERROR_TAIL|])
    else
      None
  }

  /** Whatever an error says, the model can read it. */
  lemma ErrorIsReadable(message: string)
    ensures ErrorMessage(ErrorText(message)) == Some(message)
  {
    var text := ErrorText(message);
    EscapeRoundTrip(message);
    assert text[|ERROR_HEAD|..|text| - |ERROR_TAIL|] == Escape(message);
    assert text[|text| - |ERROR_TAIL|..] == ERROR_TAIL;
  }

  function Quoted(name: string): string {
    "\"" + name + "\""
  }

  function UnregisteredText(name: string): string {
    "unregistered tool call " + Quoted(name)
  }

  /** The text of a returned value; none means it is empty. */
  function ToolResultString(v: Value): Option<string> {
    match v
    case Nil => None
    case Text(t) => if TrimSpace(t) == "" then None else Some(t)
    case Encoded(raw) => if raw == "" || raw == "null" then None else Some(raw)
    case Unencodable(printed) => Some(printed)
  }

  /** The text a job's result carries. */
  function TextOf(job: Job): string {
    match job.handling
    case Unregistered => ErrorText(UnregisteredText(job.call.name))
    case Failed(err) => ErrorText(err)
    case Answered(v, _) => if ToolResultString(v).Some? then ToolResultString(v).value else ErrorText(EMPTY)
  }

  /** Whether a job wants the model to run again: errors of a handler do not, unknown names do. */
  predicate Asks(job: Job) {
    match job.handling
    case Unregistered => true
    case Failed(_) => false
    case Answered(v, runLLM) => ToolResultString(v).Some? && runLLM
  }

  function InProgressOf(job: Job): Frame {
    FunctionCallInProgressFrame(job.call.name, job.call.id, job.arguments, job.call.arguments)
  }

  function ResultOf(job: Job, runLLM: bool): Frame {
    FunctionCallResultFrame(job.call.name, job.call.id, job.arguments, job.call.arguments, TextOf(job), runLLM)
  }

  predicate Names(jobs: seq<Job>, arrival: seq<nat>) {
    |arrival| == |jobs| && forall k :: 0 <= k < |arrival| ==> arrival[k] < |jobs|
  }

  /** `arrival` lists the jobs in the order in which their results arrive. */
  ghost predicate IsArrival(jobs: seq<Job>, arrival: seq<nat>) {
    && Names(jobs, arrival)
    && (forall k, m :: 0 <= k < m < |arrival| ==> arrival[k] != arrival[m])
    && (forall i :: 0 <= i < |jobs| ==> i in arrival)
  }

  predicate SomeAsk(jobs: seq<Job>) {
    exists job :: job in jobs && Asks(job)
  }

  /** The function-call frames among those pushed. */
  function CallFrames(pushed: seq<Frame>): seq<Frame> {
    if pushed == [] then []
    else CallFrames(pushed[..|pushed| - 1]) +
         (if pushed[|pushed| - 1].ErrorFrame? then [] else [pushed[|pushed| - 1]])
  }

  /**
   * What a batch must push: every call is announced, in order, before any result; the results
   * follow as they arrive; only the last one may ask for a new run, and it does when some job asked.
   */
  ghost predicate IsBatch(frames: seq<Frame>, jobs: seq<Job>, arrival: seq<nat>)
    requires Names(jobs, arrival)
  {
    var n := |jobs|;
    && |frames| == 2 * n
    && (forall i :: 0 <= i < n ==> frames[i] == InProgressOf(jobs[i]))
    && (forall m :: n <= m < 2 * n ==> frames[m] == ResultOf(jobs[arrival[m - n]], m == 2 * n - 1 && SomeAsk(jobs)))
  }

  lemma CallSnoc(pushed: seq<Frame>, f: Frame)
    ensures CallFrames(pushed + [f]) == CallFrames(pushed) + (if f.ErrorFrame? then [] else [f])
  {
    assert (pushed + [f])[..|pushed|] == pushed;
  }

  /** The errors among those pushed. */
  function ErrorsIn(pushed: seq<Frame>): seq<Frame> {
    if pushed == [] then []
    else ErrorsIn(pushed[..|pushed| - 1]) +
         (if pushed[|pushed| - 1].ErrorFrame? then [pushed[|pushed| - 1]] else [])
  }

  lemma ErrorSnoc(pushed: seq<Frame>, f: Frame)
    ensures ErrorsIn(pushed + [f]) == ErrorsIn(pushed) + (if f.ErrorFrame? then [f] else [])
  {
    assert (pushed + [f])[..|pushed|] == pushed;
  }

  /** What is complained about when a call is announced: unreadable arguments, an unknown name. */
  function StartErrors(job: Job): seq<Frame> {
    var name := Quoted(job.call.name);
    (if job.parseError.Some?
     then [ErrorFrame("parse tool arguments for " + name + ": " + job.parseError.value, false)] else [])
    + (if job.handling.Unregistered? then [ErrorFrame("unregistered tool call " + name, false)] else [])
  }

  /** And when it has run: a failure, or an answer that is nothing. */
  function EndErrors(job: Job): seq<Frame> {
    if job.handling.Failed? then
      [ErrorFrame("execute tool " + Quoted(job.call.name) + ": " + job.handling.err, false)]
    else if job.handling.Answered? && ToolResultString(job.handling.value).None? then
      [ErrorFrame("tool " + Quoted(job.call.name) + " returned empty result", false)]
    else []
  }

  function AllStartErrors(jobs: seq<Job>): seq<Frame> {
    if jobs == [] then [] else AllStartErrors(jobs[..|jobs| - 1]) + StartErrors(jobs[|jobs| - 1])
  }

  function EndErrorsUpTo(jobs: seq<Job>, arrival: seq<nat>, n: nat): seq<Frame>
    requires Names(jobs, arrival) && n <= |jobs|
  {
    if n == 0 then [] else EndErrorsUpTo(jobs, arrival, n - 1) + EndErrors(jobs[arrival[n - 1]])
  }

  method ExecuteOneToolCall(job: Job, pushedBefore: seq<Frame>) returns (text: string, asks: bool, pushed: seq<Frame>)
    requires !job.handling.Unregistered?
    ensures text == TextOf(job) && asks == Asks(job)
    ensures CallFrames(pushed) == CallFrames(pushedBefore)
    ensures pushed == pushedBefore + EndErrors(job) && ErrorsIn(pushed) == ErrorsIn(pushedBefore) + EndErrors(job)
  {
    hide CallFrames, ErrorsIn, ErrorText, Quoted;
    assert pushedBefore + [] == pushedBefore && ErrorsIn(pushedBefore) + [] == ErrorsIn(pushedBefore);
    pushed := pushedBefore;
    if job.handling.Failed? {
      var frame := ErrorFrame("execute tool " + Quoted(job.call.name) + ": " + job.handling.err, false);
      CallSnoc(pushed, frame);
      ErrorSnoc(pushed, frame);
      pushed := pushed + [frame];
      return ErrorText(job.handling.err), false, pushed;
    }
    var result := ToolResultString(job.handling.value);
    if result.None? {
      var frame := ErrorFrame("tool " + Quoted(job.call.name) + " returned empty result", false);
      CallSnoc(pushed, frame);
      ErrorSnoc(pushed, frame);
      pushed := pushed + [frame];
      return ErrorText(EMPTY), false, pushed;
    }
    return result.value, job.handling.runLLM, pushed;
  }

  function Announced(jobs: seq<Job>): (frames: seq<Frame>)
    ensures |frames| == |jobs| && forall i :: 0 <= i < |jobs| ==> frames[i] == InProgressOf(jobs[i])
  {
    if jobs == [] then [] else Announced(jobs[..|jobs| - 1]) + [InProgressOf(jobs[|jobs| - 1])]
  }

  lemma NothingPushed(jobs: seq<Job>)
    ensures CallFrames([]) == Announced(jobs[..0])
  {
  }

  lemma AnnouncedSnoc(pushed: seq<Frame>, jobs: seq<Job>, i: nat)
    requires i < |jobs| && CallFrames(pushed) == Announced(jobs[..i])
    ensures CallFrames(pushed + [InProgressOf(jobs[i])]) == Announced(jobs[..i + 1])
  {
    assert jobs[..i + 1][..i] == jobs[..i];
    CallSnoc(pushed, InProgressOf(jobs[i]));
  }

  /** Announces the calls in order; unknown names get their error result at once. */
  method AnnounceToolCalls(jobs: seq<Job>) returns (pushed: seq<Frame>, started: nat)
    ensures CallFrames(pushed) == Announced(jobs)
    ensures ErrorsIn(pushed) == AllStartErrors(jobs)
    ensures started == |jobs|
  {
    hide CallFrames, ErrorsIn, AllStartErrors, Announced, InProgressOf, Quoted;
    pushed, started := [], 0;
    NothingPushed(jobs);
    assert ErrorsIn([]) == AllStartErrors(jobs[..0]) by { NoErrors(jobs); }
    for i := 0 to |jobs|
      invariant started == i
      invariant CallFrames(pushed) == Announced(jobs[..i])
      invariant ErrorsIn(pushed) == AllStartErrors(jobs[..i])
    {
      var job := jobs[i];
      ghost var before := ErrorsIn(pushed);
      if job.parseError.Some? {
        var message := "parse tool arguments for " + Quoted(job.call.name) + ": " + job.parseError.value;
        var frame := ErrorFrame(message, false);
        CallSnoc(pushed, frame);
        ErrorSnoc(pushed, frame);
        pushed := pushed + [frame];
      }
      if job.handling.Unregistered? {
        var frame := ErrorFrame(UnregisteredText(job.call.name), false);
        CallSnoc(pushed, frame);
        ErrorSnoc(pushed, frame);
        pushed := pushed + [frame];
      }
      assert ErrorsIn(pushed) == before + StartErrors(job);
      AnnouncedSnoc(pushed, jobs, i);
      InProgressIsNoError(pushed, jobs, i);
      pushed := pushed + [InProgressOf(job)];
      started := started + 1;
    }
    assert jobs[..|jobs|] == jobs;
  }

  lemma NoErrors(jobs: seq<Job>)
    ensures ErrorsIn([]) == AllStartErrors(jobs[..0])
  {
  }

  lemma InProgressIsNoError(pushed: seq<Frame>, jobs: seq<Job>, i: nat)
    requires i < |jobs|
    ensures ErrorsIn(pushed + [InProgressOf(jobs[i])]) == ErrorsIn(pushed)
    ensures AllStartErrors(jobs[..i + 1]) == AllStartErrors(jobs[..i]) + StartErrors(jobs[i])
  {
    assert jobs[..i + 1][..i] == jobs[..i];
    ErrorSnoc(pushed, InProgressOf(jobs[i]));
    assert ErrorsIn(pushed) + [] == ErrorsIn(pushed);
  }

  predicate AskedUpTo(jobs: seq<Job>, arrival: seq<nat>, n: nat)
    requires Names(jobs, arrival) && n <= |jobs|
  {
    n > 0 && (AskedUpTo(jobs, arrival, n - 1) || Asks(jobs[arrival[n - 1]]))
  }

  function ResultsUpTo(jobs: seq<Job>, arrival: seq<nat>, n: nat): (frames: seq<Frame>)
    requires Names(jobs, arrival) && n <= |jobs|
    ensures |frames| == n
  {
    hide ResultOf, SomeAsk;
    if n == 0 then []
    else ResultsUpTo(jobs, arrival, n - 1) + [ResultOf(jobs[arrival[n - 1]], n == |jobs| && SomeAsk(jobs))]
  }

  lemma {:induction false} ResultAt(jobs: seq<Job>, arrival: seq<nat>, n: nat, k: nat)
    requires Names(jobs, arrival) && k < n <= |jobs|
    ensures ResultsUpTo(jobs, arrival, n)[k] == ResultOf(jobs[arrival[k]], k == |jobs| - 1 && SomeAsk(jobs))
    decreases n
  {
    hide ResultOf, SomeAsk;
    if k < n - 1 {
      ResultAt(jobs, arrival, n - 1, k);
    }
  }

  lemma {:induction false} AskedByArrival(jobs: seq<Job>, arrival: seq<nat>, n: nat)
    requires IsArrival(jobs, arrival) && n <= |jobs|
    ensures AskedUpTo(jobs, arrival, n) <==> exists k :: 0 <= k < n && Asks(jobs[arrival[k]])
    ensures n == |jobs| ==> (AskedUpTo(jobs, arrival, n) <==> SomeAsk(jobs))
    decreases n
  {
    hide Asks;
    if n > 0 {
      AskedByArrival(jobs, arrival, n - 1);
    }
    if n == |jobs| && SomeAsk(jobs) {
      var job :| job in jobs && Asks(job);
      var i :| 0 <= i < |jobs| && jobs[i] == job;
      assert i in arrival;
    }
  }

  lemma PartsMakeBatch(jobs: seq<Job>, arrival: seq<nat>)
    requires Names(jobs, arrival)
    ensures IsBatch(Announced(jobs) + ResultsUpTo(jobs, arrival, |jobs|), jobs, arrival)
  {
    hide SomeAsk, InProgressOf, ResultOf, ResultsUpTo;
    var n := |jobs|;
    var frames := Announced(jobs) + ResultsUpTo(jobs, arrival, n);
    forall m | n <= m < 2 * n
      ensures frames[m] == ResultOf(jobs[arrival[m - n]], m == 2 * n - 1 && SomeAsk(jobs))
    {
      ResultAt(jobs, arrival, n, m - n);
    }
  }

  lemma ResultsSnoc(pushed: seq<Frame>, jobs: seq<Job>, arrival: seq<nat>, n: nat)
    requires Names(jobs, arrival) && IsArrival(jobs, arrival) && n < |jobs|
    requires CallFrames(pushed) == Announced(jobs) + ResultsUpTo(jobs, arrival, n)
    ensures var frame := ResultOf(jobs[arrival[n]], n + 1 == |jobs| && AskedUpTo(jobs, arrival, n + 1));
      CallFrames(pushed + [frame]) == Announced(jobs) + ResultsUpTo(jobs, arrival, n + 1)
    ensures AskedUpTo(jobs, arrival, n + 1) == (AskedUpTo(jobs, arrival, n) || Asks(jobs[arrival[n]]))
  {
    hide IsArrival, Announced, CallFrames, TextOf, ResultsUpTo, AskedUpTo;
    var frame := ResultOf(jobs[arrival[n]], n + 1 == |jobs| && AskedUpTo(jobs, arrival, n + 1));
    OneMoreResult(jobs, arrival, n);
    CallSnoc(pushed, frame);
    Reassociate(Announced(jobs), ResultsUpTo(jobs, arrival, n), frame);
  }

  lemma OneMoreResult(jobs: seq<Job>, arrival: seq<nat>, n: nat)
    requires Names(jobs, arrival) && IsArrival(jobs, arrival) && n < |jobs|
    ensures AskedUpTo(jobs, arrival, n + 1) == (AskedUpTo(jobs, arrival, n) || Asks(jobs[arrival[n]]))
    ensures ResultsUpTo(jobs, arrival, n + 1) == ResultsUpTo(jobs, arrival, n) +
      [ResultOf(jobs[arrival[n]], n + 1 == |jobs| && AskedUpTo(jobs, arrival, n + 1))]
  {
    hide IsArrival, ResultOf, SomeAsk, Asks;
    AskedByArrival(jobs, arrival, n + 1);
  }

  lemma Reassociate(a: seq<Frame>, b: seq<Frame>, f: Frame)
    ensures (a + b) + [f] == a + (b + [f])
  {
  }

  lemma NoResultsYet(jobs: seq<Job>, arrival: seq<nat>)
    requires Names(jobs, arrival)
    ensures ResultsUpTo(jobs, arrival, 0) == [] && !AskedUpTo(jobs, arrival, 0)
  {
  }

  lemma NoEndErrors(jobs: seq<Job>, arrival: seq<nat>)
    requires Names(jobs, arrival)
    ensures AllStartErrors(jobs) + EndErrorsUpTo(jobs, arrival, 0) == AllStartErrors(jobs)
  {
  }

  lemma MoreEndErrors(jobs: seq<Job>, arrival: seq<nat>, n: nat)
    requires Names(jobs, arrival) && n < |jobs|
    ensures var job := jobs[arrival[n]];
      && (job.handling.Unregistered? ==> EndErrors(job) == [])
      && (AllStartErrors(jobs) + EndErrorsUpTo(jobs, arrival, n)) + EndErrors(job)
         == AllStartErrors(jobs) + EndErrorsUpTo(jobs, arrival, n + 1)
  {
  }

  lemma ArrivalNames(jobs: seq<Job>, arrival: seq<nat>)
    requires IsArrival(jobs, arrival)
    ensures Names(jobs, arrival)
  {
  }

  method ExecuteToolCalls(jobs: seq<Job>, arrival: seq<nat>) returns (pushed: seq<Frame>)
    requires IsArrival(jobs, arrival)
    ensures IsBatch(CallFrames(pushed), jobs, arrival)
    ensures ErrorsIn(pushed) == AllStartErrors(jobs) + EndErrorsUpTo(jobs, arrival, |jobs|)
  {
    hide ErrorsIn, AllStartErrors, EndErrors, EndErrorsUpTo;
    hide IsArrival, TextOf, Asks, CallFrames, SomeAsk, IsBatch, Announced, ResultsUpTo, AskedUpTo, InProgressOf;
    assert Names(jobs, arrival) by { ArrivalNames(jobs, arrival); }
    var started: nat;
    pushed, started := AnnounceToolCalls(jobs);
    assert CallFrames(pushed) == Announced(jobs) + ResultsUpTo(jobs, arrival, 0) && !AskedUpTo(jobs, arrival, 0) by {
      NoResultsYet(jobs, arrival);
    }
    NoEndErrors(jobs, arrival);
    var remaining, runNextLLM := started, false;
    while remaining > 0
      invariant 0 <= remaining <= started
      invariant CallFrames(pushed) == Announced(jobs) + ResultsUpTo(jobs, arrival, started - remaining)
      invariant runNextLLM == AskedUpTo(jobs, arrival, started - remaining)
      invariant ErrorsIn(pushed) == AllStartErrors(jobs) + EndErrorsUpTo(jobs, arrival, started - remaining)
    {
      var done := started - remaining;
      var job := jobs[arrival[done]];
      var text, asks := TextOf(job), Asks(job);
      if !job.handling.Unregistered? {
        text, asks, pushed := ExecuteOneToolCall(job, pushed);
      }
      if asks {
        runNextLLM := true;
      }
      ResultsSnoc(pushed, jobs, arrival, done);
      MoreEndErrors(jobs, arrival, done);
      var frame := FunctionCallResultFrame(job.call.name, job.call.id, job.arguments, job.call.arguments, text,
                                           remaining == 1 && runNextLLM);
      ErrorSnoc(pushed, frame);
      pushed, remaining := pushed + [frame], remaining - 1;
    }
    PartsMakeBatch(jobs, arrival);
  }

  // ---- What the history holds for an id ----

  /** The content of the latest tool message for an id. */
  function Held(ms: seq<Message>, id: string): Option<string> {
    var i := LastTool(ms, id);
    if i >= 0 then Some(ms[i].content) else None
  }

  predicate Touches(f: Frame, id: string) {
    || (f.FunctionCallInProgressFrame? && f.toolCallID == id)
    || (f.FunctionCallResultFrame? && f.toolCallID == id)
    || (f.LLMMessagesAppendFrame? && exists m :: m in f.messages && IsToolFor(m, id))
  }

  /** LastTool is the largest index of a tool message for the id. */
  lemma {:induction false} LastToolIs(ms: seq<Message>, id: string, i: int)
    requires -1 <= i < |ms|
    requires i >= 0 ==> IsToolFor(ms[i], id)
    requires forall k :: i < k < |ms| ==> !IsToolFor(ms[k], id)
    ensures LastTool(ms, id) == i
  {
    if i < |ms| - 1 {
      LastToolIs(ms[..|ms| - 1], id, i);
    }
  }

  lemma {:induction false} LastToolIsLast(ms: seq<Message>, id: string)
    ensures forall k :: LastTool(ms, id) < k < |ms| ==> !IsToolFor(ms[k], id)
  {
    if ms != [] && !IsToolFor(ms[|ms| - 1], id) {
      var init := ms[..|ms| - 1];
      LastToolIsLast(init, id);
      forall k | LastTool(ms, id) < k < |ms| ensures !IsToolFor(ms[k], id) {
        assert k < |init| ==> init[k] == ms[k];
      }
    }
  }

  /** Appending messages that are no tool messages for the id, or editing another one, changes nothing. */
  lemma HeldFrame(ms: seq<Message>, ns: seq<Message>, id: string)
    requires |ms| <= |ns|
    requires forall k :: 0 <= k < |ms| ==> IsToolFor(ms[k], id) == IsToolFor(ns[k], id)
    requires forall k :: 0 <= k < |ms| && IsToolFor(ms[k], id) ==> ms[k].content == ns[k].content
    requires forall k :: |ms| <= k < |ns| ==> !IsToolFor(ns[k], id)
    ensures Held(ns, id) == Held(ms, id)
  {
    LastToolIsLast(ms, id);
    LastToolIs(ns, id, LastTool(ms, id));
  }

  lemma {:induction false} FromInitialMember(initial: seq<Message>, m: Message)
    requires m in MessagesFromInitial(initial)
    ensures m in initial
  {
    var init := initial[..|initial| - 1];
    if m in MessagesFromInitial(init) {
      FromInitialMember(init, m);
    }
  }

  lemma CommitKeepsHeld(s: State, id: string)
    ensures Held(CommitSpokenText(s).s.messages, id) == Held(s.messages, id)
  {
    hide Join, LastTool, Held;
    HeldFrame(s.messages, CommitSpokenText(s).s.messages, id);
  }

  lemma TranscriptKeepsHeld(s: State, f: Frame, id: string)
    requires f.TranscriptFrame?
    ensures Held(OnTranscript(s, f).s.messages, id) == Held(s.messages, id)
  {
    hide Join, LastTool, Held;
    var t := UpdateInterim(s, f);
    CommitKeepsHeld(t.(interruptSent := true, botSpeaking := false), id);
    var r := CheckBargeIn(t, f);
    HeldFrame(r.s.messages, FinishTranscript(r.s, f).s.messages, id);
  }

  lemma UntouchedIsHeld(s: State, f: Frame, dir: Direction, id: string)
    requires !Touches(f, id)
    ensures Held(Step(s, f, dir).s.messages, id) == Held(s.messages, id)
  {
    hide LastTool, Held, CommitSpokenText, OnTranscript, RawArguments, ResultText, MessagesFromInitial;
    match f
    case TranscriptFrame(_, _, _) => TranscriptKeepsHeld(s, f, id);
    case TTSDoneFrame => CommitKeepsHeld(s, id);
    case LLMMessagesAppendFrame(messages, _) =>
      forall m | m in MessagesFromInitial(messages) ensures !IsToolFor(m, id) {
        FromInitialMember(messages, m);
      }
      HeldFrame(s.messages, Step(s, f, dir).s.messages, id);
    case _ => HeldFrame(s.messages, Step(s, f, dir).s.messages, id);
  }

  lemma ResultIsHeld(s: State, f: Frame, dir: Direction)
    requires f.FunctionCallResultFrame?
    ensures Held(Step(s, f, dir).s.messages, f.toolCallID) == Some(ResultText(f.result))
  {
    hide ResultText, RawArguments;
    var ms, ns := s.messages, Step(s, f, dir).s.messages;
    var i := LastTool(ms, f.toolCallID);
    LastToolIsLast(ms, f.toolCallID);
    LastToolIs(ns, f.toolCallID, if i >= 0 then i else |ms|);
  }

  /** After any run, the history holds for an id the last result that came in for it. */
  lemma {:induction false} LastResultIsHeld(s: State, trace: seq<Envelope>, j: nat)
    requires j < |trace| && trace[j].frame.FunctionCallResultFrame?
    requires forall k :: j < k < |trace| ==> !Touches(trace[k].frame, trace[j].frame.toolCallID)
    ensures Held(After(s, trace).messages, trace[j].frame.toolCallID) == Some(ResultText(trace[j].frame.result))
    decreases |trace|
  {
    hide Step, Held, ResultText;
    var last := |trace| - 1;
    var init := trace[..last];
    if j == last {
      ResultIsHeld(After(s, init), trace[j].frame, trace[j].dir);
    } else {
      LastResultIsHeld(s, init, j);
      UntouchedIsHeld(After(s, init), trace[last].frame, trace[last].dir, trace[j].frame.toolCallID);
    }
  }

  // ---- The batch inside a run ----

  /** `at` says where the frames of the batch come in; nothing else in the run touches their ids. */
  ghost predicate Carries(trace: seq<Envelope>, frames: seq<Frame>, at: seq<nat>, jobs: seq<Job>) {
    && |at| == |frames|
    && (forall k :: 0 <= k < |at| ==> at[k] < |trace| && trace[at[k]].frame == frames[k])
    && (forall k, m :: 0 <= k < m < |at| ==> at[k] < at[m])
    && (forall i, job :: 0 <= i < |trace| && job in jobs && Touches(trace[i].frame, job.call.id) ==> i in at)
  }

  ghost predicate DistinctIds(jobs: seq<Job>) {
    forall i, j :: 0 <= i < j < |jobs| ==> jobs[i].call.id != jobs[j].call.id
  }

  lemma ResultTouchesOwnId(job: Job, runLLM: bool, id: string)
    ensures Touches(ResultOf(job, runLLM), id) <==> job.call.id == id
  {
    hide TextOf;
  }

  lemma LaterPlace(at: seq<nat>, a: nat, b: nat)
    requires forall k, m :: 0 <= k < m < |at| ==> at[k] < at[m]
    requires a < |at| && b < |at| && at[a] < at[b]
    ensures a < b
  {
  }

  /** The mth frame of a batch, after the kth result, is the result of another job. */
  lemma LaterFramesAreOthers(frames: seq<Frame>, jobs: seq<Job>, arrival: seq<nat>, k: nat, m: nat)
    requires Names(jobs, arrival) && IsBatch(frames, jobs, arrival)
    requires k < |jobs| && |jobs| + k < m < |frames|
    requires forall m :: k < m < |jobs| ==> jobs[arrival[m]].call.id != jobs[arrival[k]].call.id
    ensures !Touches(frames[m], jobs[arrival[k]].call.id)
  {
    hide ResultOf, Touches, SomeAsk, InProgressOf;
    var n := |jobs|;
    ResultTouchesOwnId(jobs[arrival[m - n]], m == 2 * n - 1 && SomeAsk(jobs), jobs[arrival[k]].call.id);
  }

  lemma NothingTouchesLater(trace: seq<Envelope>, frames: seq<Frame>, at: seq<nat>,
                            jobs: seq<Job>, arrival: seq<nat>, k: nat)
    requires Names(jobs, arrival) && IsBatch(frames, jobs, arrival) && Carries(trace, frames, at, jobs)
    requires k < |jobs|
    requires forall m :: k < m < |jobs| ==> jobs[arrival[m]].call.id != jobs[arrival[k]].call.id
    ensures forall i :: at[|jobs| + k] < i < |trace| ==> !Touches(trace[i].frame, jobs[arrival[k]].call.id)
  {
    hide SomeAsk, Touches, InProgressOf, ResultOf;
    var job := jobs[arrival[k]];
    forall i | at[|jobs| + k] < i < |trace| ensures !Touches(trace[i].frame, job.call.id) {
      if i in at {
        var m :| 0 <= m < |at| && at[m] == i;
        LaterPlace(at, |jobs| + k, m);
        LaterFramesAreOthers(frames, jobs, arrival, k, m);
      }
    }
  }

  /** The kth result to arrive is held at the end, unless a later one carries the same id. */
  lemma ArrivedResultIsHeld(s: State, trace: seq<Envelope>, frames: seq<Frame>, at: seq<nat>,
                            jobs: seq<Job>, arrival: seq<nat>, k: nat)
    requires Names(jobs, arrival) && IsBatch(frames, jobs, arrival) && Carries(trace, frames, at, jobs)
    requires k < |jobs|
    requires forall m :: k < m < |jobs| ==> jobs[arrival[m]].call.id != jobs[arrival[k]].call.id
    ensures Held(After(s, trace).messages, jobs[arrival[k]].call.id) == Some(ResultText(TextOf(jobs[arrival[k]])))
  {
    hide Held, After, ResultText, TextOf, SomeAsk, Touches, InProgressOf;
    var j := at[|jobs| + k];
    assert trace[j].frame == frames[|jobs| + k];
    NothingTouchesLater(trace, frames, at, jobs, arrival, k);
    LastResultIsHeld(s, trace, j);
  }

  /**
   * When the last result of a batch with distinct ids comes in, the model runs again exactly when
   * some job asked for it, and the history it is given holds each call's own result, whatever
   * order the results arrived in and whatever other frames came in between.
   */
  lemma RerunHoldsEveryResult(s: State, trace: seq<Envelope>, frames: seq<Frame>, at: seq<nat>,
                              jobs: seq<Job>, arrival: seq<nat>)
    requires IsArrival(jobs, arrival) && IsBatch(frames, jobs, arrival) && Carries(trace, frames, at, jobs)
    requires DistinctIds(jobs) && jobs != [] && at[|at| - 1] == |trace| - 1
    ensures var last := trace[|trace| - 1];
      var r := Step(After(s, trace[..|trace| - 1]), last.frame, last.dir);
      && (r.run.Some? <==> SomeAsk(jobs))
      && (r.run.Some? ==> forall job :: job in jobs ==> Held(r.run.value, job.call.id) == Some(ResultText(TextOf(job))))
  {
    hide Held, ResultText, TextOf, SomeAsk, After, Step;
    var n := |jobs|;
    var last := trace[|trace| - 1];
    assert last.frame == frames[2 * n - 1];
    var before := After(s, trace[..|trace| - 1]);
    LastResultRuns(before, last.frame, last.dir);
    AfterLast(s, trace);
    forall job | job in jobs ensures Held(After(s, trace).messages, job.call.id) == Some(ResultText(TextOf(job))) {
      var i :| 0 <= i < n && jobs[i] == job;
      assert i in arrival;
      var k :| 0 <= k < n && arrival[k] == i;
      forall m | k < m < n ensures jobs[arrival[m]].call.id != job.call.id {
        assert arrival[m] != arrival[k];
        var (lo, hi) := if arrival[m] < i then (arrival[m], i) else (i, arrival[m]);
        assert jobs[lo].call.id != jobs[hi].call.id;
      }
      ArrivedResultIsHeld(s, trace, frames, at, jobs, arrival, k);
    }
  }

  lemma LastResultRuns(s: State, f: Frame, dir: Direction)
    requires f.FunctionCallResultFrame?
    ensures var r := Step(s, f, dir); r.run == if f.runLLM then Some(r.s.messages) else None
  {
    hide PutResult, ResultText, RawArguments;
  }

  lemma AfterLast(s: State, trace: seq<Envelope>)
    requires trace != []
    ensures var last := trace[|trace| - 1];
      After(s, trace) == Step(After(s, trace[..|trace| - 1]), last.frame, last.dir).s
  {
    hide Step;
  }

  // ---- Which answers count ----

  /** An answer is passed on as it is unless it is nothing, blank, or encodes to nothing or to null. */
  lemma AnswersThatCount(job: Job)
    requires job.handling.Answered?
    ensures var v := job.handling.value;
      var counts := (v.Text? && !Blank(v.text)) || (v.Encoded? && v.raw != "" && v.raw != "null") || v.Unencodable?;
      && TextOf(job) == (if !counts then ErrorText("empty tool result")
                         else if v.Text? then v.text else if v.Encoded? then v.raw else v.printed)
      && (Asks(job) <==> counts && job.handling.runLLM)
  {
    if job.handling.value.Text? {
      TrimmedAwayIff(job.handling.value.text);
    }
  }

  /** A failing handler never makes the model run again, a call of an unknown tool always does; both say why. */
  lemma FailuresSayWhy(job: Job)
    requires !job.handling.Answered?
    ensures Asks(job) <==> job.handling.Unregistered?
    ensures ErrorMessage(TextOf(job)) ==
      Some(if job.handling.Failed? then job.handling.err else "unregistered tool call \"" + job.call.name + "\"")
  {
    hide ErrorMessage, ErrorText;
    if job.handling.Failed? {
      ErrorIsReadable(job.handling.err);
    } else {
      ErrorIsReadable(UnregisteredText(job.call.name));
      assert "unregistered tool call " + ("\"" + job.call.name + "\"")
          == "unregistered tool call \"" + job.call.name + "\"";
    }
  }
}
