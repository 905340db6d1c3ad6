/**
 * User turns, read off the trace of frames alone: which words belong to a turn, when the bot is
 * interrupted, whether it is heard. The aggregator interrupts and commits exactly as these say.
 */
module UserTurns {
  import opened Frames
  import opened History
  import opened Text

  predicate Fresh(s: State) {
    && s.currentTranscript == "" && s.interimTranscript == "" && s.interimResponseID == 0
    && s.spokenWords == [] && !s.interruptSent && !s.botSpeaking
  }

  // ---- The reading of a trace ----

  /** The final tokens of a stretch of the trace, in order. */
  function Tokens(trace: seq<Envelope>): string {
    if trace == [] then ""
    else
      var f := trace[|trace| - 1].frame;
      Tokens(trace[..|trace| - 1]) + (if IsToken(f) then f.text else "")
  }

  /**
   * Where the current turn starts: after the last end token, or after the last bot turn that
   * finished with no interrupt outstanding, whichever is later.
   */
  function TurnStart(trace: seq<Envelope>): (n: nat)
    ensures n <= |trace|
    decreases |trace|, 0
  {
    if trace == [] then 0
    else
      var k := |trace| - 1;
      var f := trace[k].frame;
      if IsEnd(f) || (f.TTSDoneFrame? && !Pending(trace[..k])) then k + 1 else TurnStart(trace[..k])
  }

  /** What the user has said in the current turn. */
  function Heard(trace: seq<Envelope>): string
    decreases |trace|, 1
  {
    Tokens(trace[TurnStart(trace)..])
  }

  /** The latest response id and the interim text heard under it. */
  function Interim(trace: seq<Envelope>): (int, string)
    decreases |trace|, 0
  {
    if trace == [] then (0, "")
    else
      var init, f := trace[..|trace| - 1], trace[|trace| - 1].frame;
      var (id, text) := Interim(init);
      if IsEnd(f) then (0, "")
      else if f.TTSDoneFrame? && !Pending(init) && (text != "" || Heard(init) != "") then (0, "")
      else if !f.TranscriptFrame? || f.isFinal then (id, text)
      else if f.responseID != 0 && f.responseID != id then (f.responseID, f.text)
      else (id, text + f.text)
  }

  /** The last frame interrupts the bot: enough interim words over its speech, and none outstanding. */
  predicate Raises(trace: seq<Envelope>)
    decreases |trace|, 1
  {
    trace != [] &&
    var init, f := trace[..|trace| - 1], trace[|trace| - 1].frame;
    && f.TranscriptFrame? && !f.isFinal
    && Speaking(init) && !Pending(init) && Fields(Interim(trace).1) >= 3
  }

  /** The last frame closes a turn in which something was heard, and that is not speech over the bot. */
  predicate Closes(trace: seq<Envelope>)
    decreases |trace|, 1
  {
    trace != [] &&
    var init, f := trace[..|trace| - 1], trace[|trace| - 1].frame;
    IsEnd(f) && Heard(init) != "" && !(Speaking(init) && !Pending(init))
  }

  /** The bot has been interrupted and no turn has been closed since. */
  predicate Pending(trace: seq<Envelope>)
    decreases |trace|, 2
  {
    trace != [] && (Raises(trace) || (!Closes(trace) && Pending(trace[..|trace| - 1])))
  }

  /** The bot was last reported speaking, and since then neither stopped, finished nor interrupted. */
  predicate Speaking(trace: seq<Envelope>)
    decreases |trace|, 2
  {
    trace != [] &&
    var f := trace[|trace| - 1].frame;
    !f.TTSDoneFrame? && !f.BotStoppedSpeakingFrame? && !Raises(trace) &&
    (f.BotStartedSpeakingFrame? || Speaking(trace[..|trace| - 1]))
  }

  // ---- The state means what the trace says ----

  ghost predicate Tracks(s: State, trace: seq<Envelope>) {
    var a := After(s, trace);
    a.interruptSent == Pending(trace) && a.botSpeaking == Speaking(trace)
    && a.currentTranscript == Heard(trace) && (a.interimResponseID, a.interimTranscript) == Interim(trace)
  }

  predicate Interrupts(f: Frame, out: seq<Output>) {
    f.TranscriptFrame? && Push(InterruptFrame, Downstream) in out
  }

  predicate Commits(out: seq<Output>) {
    exists o :: o in out && o.UserCommitted?
  }

  /** What one step does to the flags and transcripts, given what it put out. */
  ghost predicate StepsAsRead(a: State, f: Frame, r: Result) {
    var raised, committed := Interrupts(f, r.out), Commits(r.out);
    && r.s.interruptSent == (raised || (!committed && a.interruptSent))
    && r.s.botSpeaking == (!f.TTSDoneFrame? && !f.BotStoppedSpeakingFrame? && !raised
                           && (f.BotStartedSpeakingFrame? || a.botSpeaking))
    && r.s.currentTranscript == (if IsEnd(f) || (f.TTSDoneFrame? && !a.interruptSent) then ""
                                 else if IsToken(f) then a.currentTranscript + f.text else a.currentTranscript)
  }

  lemma StepEffect(a: State, f: Frame, dir: Direction)
    ensures StepsAsRead(a, f, Step(a, f, dir))
  {
    hide StepsAsRead, Step, OnTranscript;
    if f.TranscriptFrame? {
      StepIsOnTranscript(a, f, dir);
      SpeechEffect(a, f);
    } else {
      OtherEffect(a, f, dir);
    }
  }

  lemma SpeechEffect(a: State, f: Frame)
    requires f.TranscriptFrame?
    ensures StepsAsRead(a, f, OnTranscript(a, f))
  {
    hide Join, AddUserMessage, Seeded, Fields, Interrupts, Commits;
    TranscriptEffect(a, f);
  }

  lemma OtherEffect(a: State, f: Frame, dir: Direction)
    requires !f.TranscriptFrame?
    ensures StepsAsRead(a, f, Step(a, f, dir))
  {
    hide Join, PutResult, ResultText, MessagesFromInitial, AppendWords, RawArguments;
    OthersDoNotCommit(a, f, dir);
  }

  /** What one step does to the interim text. */
  lemma InterimEffect(a: State, f: Frame, dir: Direction)
    ensures var r := Step(a, f, dir).s;
      (r.interimResponseID, r.interimTranscript) ==
        if IsEnd(f) then (0, "")
        else if f.TTSDoneFrame? && !a.interruptSent && (a.interimTranscript != "" || a.currentTranscript != "")
        then (0, "")
        else if !f.TranscriptFrame? || f.isFinal then (a.interimResponseID, a.interimTranscript)
        else if f.responseID != 0 && f.responseID != a.interimResponseID then (f.responseID, f.text)
        else (a.interimResponseID, a.interimTranscript + f.text)
  {
    hide Join, AddUserMessage, Seeded, PutResult, ResultText, MessagesFromInitial, AppendWords, RawArguments, Fields;
  }

  lemma OthersDoNotCommit(a: State, f: Frame, dir: Direction)
    requires !f.TranscriptFrame?
    ensures forall o :: o in Step(a, f, dir).out ==> !o.UserCommitted?
  {
    hide Join, PutResult, ResultText, MessagesFromInitial, AppendWords, RawArguments;
  }

  /** A transcript frame either raises an interrupt, or closes the turn, or neither. */
  lemma TranscriptEffect(a: State, f: Frame)
    requires f.TranscriptFrame?
    ensures var r := OnTranscript(a, f);
      && (Interrupts(f, r.out) <==> BargesIn(UpdateInterim(a, f), f))
      && (Commits(r.out) <==> IsEnd(f) && a.currentTranscript != "" && !(a.botSpeaking && !a.interruptSent))
      && (IsEnd(f) ==> r.out == if a.currentTranscript != "" && !(a.botSpeaking && !a.interruptSent)
                                then [UserCommitted(a.currentTranscript)] else [])
  {
    hide Join, AddUserMessage, Seeded, Fields;
    var t := UpdateInterim(a, f);
    var r := OnTranscript(a, f);
    if BargesIn(t, f) {
      assert r.out[0] == Push(InterruptFrame, Downstream);
    } else if IsEnd(f) && a.currentTranscript != "" && !(a.botSpeaking && !a.interruptSent) {
      assert r.out[0] == UserCommitted(a.currentTranscript);
    }
  }

  lemma StepIsOnTranscript(a: State, f: Frame, dir: Direction)
    requires f.TranscriptFrame?
    ensures Step(a, f, dir) == OnTranscript(a, f)
  {
  }

  lemma {:induction false} TokensHeard(trace: seq<Envelope>)
    requires trace != []
    ensures var k := |trace| - 1; var f := trace[k].frame;
      Heard(trace) == if IsEnd(f) || (f.TTSDoneFrame? && !Pending(trace[..k])) then ""
                      else Heard(trace[..k]) + (if IsToken(f) then f.text else "")
  {
    hide Pending;
    var k := |trace| - 1;
    var n := TurnStart(trace);
    if n <= k {
      assert trace[n..][..k - n] == trace[..k][n..];
    }
  }

  /** The interim text read off the trace is the one the last frame has left. */
  lemma InterimTracks(s: State, trace: seq<Envelope>)
    requires trace != [] && Tracks(s, trace[..|trace| - 1])
    ensures var a := After(s, trace); (a.interimResponseID, a.interimTranscript) == Interim(trace)
  {
    hide Step, Heard, Pending, Speaking;
    var init, e := trace[..|trace| - 1], trace[|trace| - 1];
    InterimEffect(After(s, init), e.frame, e.dir);
  }

  /** What the last frame makes the aggregator do is what the trace says it does. */
  lemma OutputTracks(s: State, trace: seq<Envelope>)
    requires trace != [] && Tracks(s, trace[..|trace| - 1])
    ensures Interrupts(trace[|trace| - 1].frame, LastOutput(s, trace)) <==> Raises(trace)
    ensures Commits(LastOutput(s, trace)) <==> Closes(trace)
    ensures Closes(trace) ==> LastOutput(s, trace) == [UserCommitted(Heard(trace[..|trace| - 1]))]
    ensures Raises(trace) ==> !trace[|trace| - 1].frame.isFinal
  {
    hide Step, OnTranscript, Heard, Pending, Speaking, Interim, Fields, Interrupts;
    var init, e := trace[..|trace| - 1], trace[|trace| - 1];
    var a := After(s, init);
    InterimTracks(s, trace);
    if e.frame.TranscriptFrame? {
      TranscriptEffect(a, e.frame);
      StepIsOnTranscript(a, e.frame, e.dir);
      UpdatedInterim(s, trace);
    } else {
      OthersDoNotCommit(a, e.frame, e.dir);
      NoTranscript(e.frame, LastOutput(s, trace));
    }
  }

  lemma NoTranscript(f: Frame, out: seq<Output>)
    requires !f.TranscriptFrame?
    ensures !Interrupts(f, out)
  {
  }

  /** A frame barges in on the interim text it has just extended. */
  lemma UpdatedInterim(s: State, trace: seq<Envelope>)
    requires trace != [] && trace[|trace| - 1].frame.TranscriptFrame? && Tracks(s, trace[..|trace| - 1])
    ensures var a, f := After(s, trace[..|trace| - 1]), trace[|trace| - 1].frame;
      var t := UpdateInterim(a, f);
      && t.botSpeaking == a.botSpeaking && t.interruptSent == a.interruptSent
      && (!f.isFinal ==> t.interimTranscript == Interim(trace).1)
  {
    hide Step, Heard, Pending, Speaking;
  }

  lemma {:induction false} TraceTracks(s: State, trace: seq<Envelope>)
    requires Fresh(s)
    ensures Tracks(s, trace)
    decreases |trace|
  {
    hide Step, Raises, Closes, Interrupts, Commits, Interim, Heard;
    if trace == [] {
      NothingRead();
    } else {
      var k := |trace| - 1;
      var init, e := trace[..k], trace[k];
      TraceTracks(s, init);
      OutputTracks(s, trace);
      InterimTracks(s, trace);
      TokensHeard(trace);
      StepEffect(After(s, init), e.frame, e.dir);
    }
  }

  lemma NothingRead()
    ensures Interim([]) == (0, "") && Heard([]) == ""
  {
  }

  // ---- What is committed, and when the bot is interrupted ----

  /**
   * A text is committed exactly when an end token closes a turn in which it was heard, unless the
   * bot is speaking with no interrupt outstanding; and then it is all the frame puts out.
   */
  lemma CommitsExactlyWhatWasHeard(s: State, trace: seq<Envelope>, text: string)
    requires Fresh(s) && trace != []
    ensures UserCommitted(text) in LastOutput(s, trace) <==> Closes(trace) && text == Heard(trace[..|trace| - 1])
    ensures Closes(trace) ==> LastOutput(s, trace) == [UserCommitted(Heard(trace[..|trace| - 1]))]
  {
    hide LastOutput, Closes, Heard, Interrupts, Raises, Tracks;
    TraceTracks(s, trace[..|trace| - 1]);
    OutputTracks(s, trace);
  }

  /**
   * The bot is interrupted exactly when an interim transcript brings the words of its response to
   * three while the bot speaks and no interrupt is outstanding.
   */
  lemma InterruptsExactlyOnBargeIn(s: State, trace: seq<Envelope>)
    requires Fresh(s) && trace != []
    ensures Interrupts(trace[|trace| - 1].frame, LastOutput(s, trace)) <==> Raises(trace)
  {
    hide LastOutput, Closes, Heard, Interrupts, Raises, Tracks;
    TraceTracks(s, trace[..|trace| - 1]);
    OutputTracks(s, trace);
  }

  // ---- Interrupts alternate with commits ----

  /** Frame k of a trace closes a turn. */
  predicate ClosesAt(trace: seq<Envelope>, k: nat) {
    k < |trace| && Closes(trace[..k + 1])
  }

  /** Frame k of a trace makes the aggregator commit a turn. */
  predicate CommitsAt(s: State, trace: seq<Envelope>, k: nat) {
    k < |trace| && Commits(LastOutput(s, trace[..k + 1]))
  }

  lemma ClosesAtPrefix(trace: seq<Envelope>, n: nat, k: nat)
    requires k < n <= |trace|
    ensures ClosesAt(trace[..n], k) == ClosesAt(trace, k)
  {
    assert trace[..n][..k + 1] == trace[..k + 1];
  }

  /** What is pending stays pending until a turn is closed. */
  lemma {:induction false} PendingUntilClosed(trace: seq<Envelope>, m: nat)
    requires m <= |trace| && Pending(trace[..m])
    requires forall k :: m <= k < |trace| ==> !ClosesAt(trace, k)
    ensures Pending(trace)
    decreases |trace|
  {
    hide Raises, Closes;
    if m < |trace| {
      var last := |trace| - 1;
      var init := trace[..last];
      assert init[..m] == trace[..m];
      forall k | m <= k < last ensures !ClosesAt(init, k) {
        ClosesAtPrefix(trace, last, k);
      }
      PendingUntilClosed(init, m);
      assert trace[..last + 1] == trace && !ClosesAt(trace, last);
    } else {
      assert trace[..m] == trace;
    }
  }

  lemma RaisesWhenNonePending(trace: seq<Envelope>, j: nat)
    requires j < |trace| && Raises(trace[..j + 1])
    ensures !Pending(trace[..j])
  {
    assert trace[..j + 1][..j] == trace[..j];
  }

  /** Between two interrupts a user turn is closed, and so committed. */
  lemma OneInterruptPerTurn(s: State, trace: seq<Envelope>, i: nat, j: nat)
    requires Fresh(s) && i < j < |trace| && Raises(trace[..i + 1]) && Raises(trace[..j + 1])
    ensures exists k :: i < k < j && CommitsAt(s, trace, k)
  {
    hide Closes, ClosesAt, LastOutput, Interrupts, Raises, Tracks, Commits;
    RaisesWhenNonePending(trace, j);
    var before := trace[..j];
    assert before[..i + 1] == trace[..i + 1];
    if forall k :: i + 1 <= k < j ==> !ClosesAt(before, k) {
      PendingUntilClosed(before, i + 1);
      assert false;
    }
    var k :| i + 1 <= k < j && ClosesAt(before, k);
    ClosesAtPrefix(trace, j, k);
    ClosedIsCommitted(s, trace, k);
  }

  lemma ClosedIsCommitted(s: State, trace: seq<Envelope>, k: nat)
    requires Fresh(s) && ClosesAt(trace, k)
    ensures CommitsAt(s, trace, k)
  {
    hide Closes, LastOutput, Interrupts, Raises, Tracks, Commits;
    TraceTracks(s, trace[..k + 1][..k]);
    OutputTracks(s, trace[..k + 1]);
  }
}
