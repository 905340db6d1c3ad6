/**
 * Speech over the bot: exactly when a token heard while the bot speaks is committed all the same,
 * what that has to do with the order of "done" and "stopped speaking", and how a purge upsets it.
 */
module OverheardSpeech {
  import opened Frames
  import opened History
  import opened UserTurns
  import Playback
  import Processor
  import ProcessorOrder

  // ---- Exactly when an overheard token is committed ----

  predicate NoEndBetween(trace: seq<Envelope>, i: nat, j: nat)
    requires j <= |trace|
  {
    forall k :: i < k < j ==> !IsEnd(trace[k].frame)
  }

  /** Token i is heard while the bot speaks, and frame j is the end token that follows it. */
  predicate Overheard(trace: seq<Envelope>, i: nat, j: nat) {
    && i < j < |trace|
    && IsToken(trace[i].frame) && Speaking(trace[..i])
    && IsEnd(trace[j].frame) && NoEndBetween(trace, i, j)
  }

  /** Frame j makes the aggregator commit a turn that token i belongs to. */
  predicate CommitsToken(s: State, trace: seq<Envelope>, i: nat, j: nat)
    requires i < j < |trace|
  {
    Commits(LastOutput(s, trace[..j + 1])) && TurnStart(trace[..j]) <= i
  }

  /** A bot turn finishes between i and j. */
  predicate DoneBetween(trace: seq<Envelope>, i: nat, j: nat)
    requires j <= |trace|
  {
    exists k :: i < k < j && trace[k].frame.TTSDoneFrame?
  }

  /** A bot turn finishes with frame k, and no interrupt is outstanding. */
  predicate Finishes(trace: seq<Envelope>, k: nat) {
    k < |trace| && trace[k].frame.TTSDoneFrame? && !Pending(trace[..k])
  }

  predicate FinishedBetween(trace: seq<Envelope>, i: nat, j: nat) {
    exists k: nat :: i < k < j && Finishes(trace, k)
  }

  /** The last start or stop between i and j is a stop. */
  predicate StoppedBetween(trace: seq<Envelope>, i: nat, j: nat)
    requires j <= |trace|
  {
    exists m :: i < m < j && trace[m].frame.BotStoppedSpeakingFrame?
                && forall q :: m < q < j ==> !trace[q].frame.BotStartedSpeakingFrame?
  }

  /** An interrupt stays outstanding up to the next end token. */
  lemma {:induction false} PendingStays(trace: seq<Envelope>, k: nat, j: nat)
    requires k <= j <= |trace| && Pending(trace[..k])
    requires forall q :: k <= q < j ==> !IsEnd(trace[q].frame)
    ensures Pending(trace[..j])
    decreases j
  {
    hide Raises, Heard;
    if k < j {
      PendingStays(trace, k, j - 1);
      assert trace[..j][..j - 1] == trace[..j - 1];
    }
  }

  /** The turn is restarted behind a token exactly when a bot turn finishes there. */
  lemma {:induction false} RestartedIff(trace: seq<Envelope>, i: nat, j: nat)
    requires i < j <= |trace| && IsToken(trace[i].frame) && NoEndBetween(trace, i, j)
    ensures TurnStart(trace[..j]) > i <==> FinishedBetween(trace, i, j)
    decreases j
  {
    hide Pending;
    var last := j - 1;
    assert trace[..j][..last] == trace[..last];
    if last > i {
      RestartedIff(trace, i, last);
      assert FinishedBetween(trace, i, j) <==> FinishedBetween(trace, i, last) || Finishes(trace, last);
    }
  }

  /** Until an interrupt is outstanding or a turn finishes, the bot speaks unless its last mark is a stop. */
  lemma {:induction false} SpeaksUnlessStopped(trace: seq<Envelope>, i: nat, j: nat)
    requires i < j <= |trace| && IsToken(trace[i].frame) && Speaking(trace[..i])
    requires NoEndBetween(trace, i, j) && !Pending(trace[..j]) && !FinishedBetween(trace, i, j)
    ensures Speaking(trace[..j]) <==> !StoppedBetween(trace, i, j)
    decreases j
  {
    hide Raises, Closes;
    var last := j - 1;
    assert trace[..j][..last] == trace[..last];
    if last > i {
      if Pending(trace[..last]) {
        PendingStays(trace, last, j);
      }
      SpeaksUnlessStopped(trace, i, last);
      assert !trace[last].frame.TTSDoneFrame? by {
        assert !Finishes(trace, last);
      }
      StoppedSnoc(trace, i, j);
    }
  }

  lemma StoppedSnoc(trace: seq<Envelope>, i: nat, j: nat)
    requires i + 1 < j <= |trace|
    ensures var f := trace[j - 1].frame;
      StoppedBetween(trace, i, j) <==>
        f.BotStoppedSpeakingFrame? || (!f.BotStartedSpeakingFrame? && StoppedBetween(trace, i, j - 1))
  {
    var f := trace[j - 1].frame;
    if StoppedBetween(trace, i, j) {
      var m :| i < m < j && trace[m].frame.BotStoppedSpeakingFrame?
               && forall q :: m < q < j ==> !trace[q].frame.BotStartedSpeakingFrame?;
      assert m < j - 1 ==> !f.BotStartedSpeakingFrame?;
    }
  }

  lemma {:induction false} TokensHold(trace: seq<Envelope>, i: nat)
    requires i < |trace| && IsToken(trace[i].frame) && trace[i].frame.text != ""
    ensures Tokens(trace) != ""
    decreases |trace|
  {
    var last := |trace| - 1;
    if i < last {
      TokensHold(trace[..last], i);
    }
  }

  /**
   * An overheard token that says anything is committed if and only if no bot turn finishes behind it with no interrupt
   * outstanding, and at its end token an interrupt is outstanding or the bot has been reported silent.
   * With no interrupt outstanding there, that is: no done behind the token, and the last mark a stop.
   */
  lemma OverheardIsCommittedIff(s: State, trace: seq<Envelope>, i: nat, j: nat)
    requires Fresh(s) && Overheard(trace, i, j) && trace[i].frame.text != ""
    ensures CommitsToken(s, trace, i, j) <==>
      !FinishedBetween(trace, i, j) && (Pending(trace[..j]) || StoppedBetween(trace, i, j))
    ensures !Pending(trace[..j]) ==>
      (CommitsToken(s, trace, i, j) <==> !DoneBetween(trace, i, j) && StoppedBetween(trace, i, j))
  {
    hide Speaking, Pending, TurnStart, LastOutput, Heard, Interrupts, Raises, Tracks, Commits;
    CommittedIfHeard(s, trace, i, j);
    RestartedIff(trace, i, j);
    if !Pending(trace[..j]) {
      DoneFinishes(trace, i, j);
      if !FinishedBetween(trace, i, j) {
        SpeaksUnlessStopped(trace, i, j);
      }
    }
  }

  /** The end token commits what was heard unless the bot speaks with no interrupt outstanding. */
  lemma CommittedIfHeard(s: State, trace: seq<Envelope>, i: nat, j: nat)
    requires Fresh(s) && Overheard(trace, i, j)
    ensures var heard := TurnStart(trace[..j]) <= i && !(Speaking(trace[..j]) && !Pending(trace[..j]));
      && (CommitsToken(s, trace, i, j) ==> heard)
      && (heard && trace[i].frame.text != "" ==> CommitsToken(s, trace, i, j))
  {
    hide Speaking, Pending, TurnStart, LastOutput, Interrupts, Raises, Tracks, Commits;
    var now, n := trace[..j], TurnStart(trace[..j]);
    assert trace[..j + 1][..j] == now;
    TraceTracks(s, trace[..j + 1][..j]);
    OutputTracks(s, trace[..j + 1]);
    if n <= i && trace[i].frame.text != "" {
      assert now[n..][i - n] == trace[i];
      TokensHold(now[n..], i - n);
    }
  }

  /** With no interrupt outstanding at j there was none before, so every done finishes a turn. */
  lemma DoneFinishes(trace: seq<Envelope>, i: nat, j: nat)
    requires i < j <= |trace| && NoEndBetween(trace, i, j) && !Pending(trace[..j])
    ensures DoneBetween(trace, i, j) <==> FinishedBetween(trace, i, j)
  {
    hide Pending;
    if DoneBetween(trace, i, j) {
      var k :| i < k < j && trace[k].frame.TTSDoneFrame?;
      if Pending(trace[..k]) {
        PendingStays(trace, k, j);
      }
      assert Finishes(trace, k);
    }
  }

  // ---- Late stops ----

  /** The bot is reported silent only once it is no longer speaking. */
  ghost predicate StopsAreLate(trace: seq<Envelope>) {
    forall k :: 0 <= k < |trace| && trace[k].frame.BotStoppedSpeakingFrame? ==> !Speaking(trace[..k])
  }

  /** With late stops none follows an overheard token before its bot turn has finished. */
  lemma {:induction false} LateStopsComeAfterDone(trace: seq<Envelope>, i: nat, j: nat)
    requires i < j <= |trace| && IsToken(trace[i].frame) && Speaking(trace[..i]) && StopsAreLate(trace)
    requires NoEndBetween(trace, i, j) && !Pending(trace[..j]) && !FinishedBetween(trace, i, j)
    ensures !StoppedBetween(trace, i, j)
    decreases j
  {
    hide Speaking, Pending;
    var last := j - 1;
    if last > i {
      if Pending(trace[..last]) {
        PendingStays(trace, last, j);
      }
      LateStopsComeAfterDone(trace, i, last);
      SpeaksUnlessStopped(trace, i, last);
      StoppedSnoc(trace, i, j);
    }
  }

  /** So with late stops an overheard token is not committed, unless an interrupt is outstanding. */
  lemma OverheardSpeechIsDropped(s: State, trace: seq<Envelope>, i: nat, j: nat)
    requires Fresh(s) && Overheard(trace, i, j) && StopsAreLate(trace) && !Pending(trace[..j])
    ensures !CommitsToken(s, trace, i, j)
  {
    hide Speaking, Pending, TurnStart, CommitsToken, StopsAreLate;
    CommittedIfHeard(s, trace, i, j);
    RestartedIff(trace, i, j);
    if !FinishedBetween(trace, i, j) {
      SpeaksUnlessStopped(trace, i, j);
      LateStopsComeAfterDone(trace, i, j);
    }
  }

  predicate IsMark(f: Frame) {
    f.TTSDoneFrame? || f.BotStartedSpeakingFrame? || f.BotStoppedSpeakingFrame?
  }

  /** The start, stop and done frames of a trace, in order. */
  function Marks(trace: seq<Envelope>): seq<Frame> {
    if trace == [] then []
    else
      var f := trace[|trace| - 1].frame;
      Marks(trace[..|trace| - 1]) + (if IsMark(f) then [f] else [])
  }

  /** Those that playback has sent upstream. */
  function PlayedMarks(up: seq<Playback.Report>): seq<Frame> {
    if up == [] then []
    else
      var f := up[|up| - 1].frame;
      PlayedMarks(up[..|up| - 1]) + (if IsMark(f) then [f] else [])
  }

  predicate RaisesAt(trace: seq<Envelope>, k: nat) {
    k < |trace| && Raises(trace[..k + 1])
  }

  /** The last mark before frame k is a start, and the bot has not been interrupted since. */
  ghost predicate Started(trace: seq<Envelope>, k: nat)
    requires k <= |trace|
  {
    exists m :: 0 <= m < k && trace[m].frame.BotStartedSpeakingFrame?
                && forall q :: m < q < k ==> !IsMark(trace[q].frame) && !RaisesAt(trace, q)
  }

  lemma StartedSnoc(trace: seq<Envelope>, k: nat)
    requires 0 < k <= |trace|
    ensures var f := trace[k - 1].frame;
      Started(trace, k) <==>
        f.BotStartedSpeakingFrame? || (!IsMark(f) && !RaisesAt(trace, k - 1) && Started(trace, k - 1))
  {
    hide RaisesAt;
    if Started(trace, k) {
      var m :| 0 <= m < k && trace[m].frame.BotStartedSpeakingFrame?
               && forall q :: m < q < k ==> !IsMark(trace[q].frame) && !RaisesAt(trace, q);
      assert m < k - 1 ==> !IsMark(trace[k - 1].frame) && !RaisesAt(trace, k - 1);
    }
  }

  lemma {:induction false} SpeakingIff(trace: seq<Envelope>, k: nat)
    requires k <= |trace|
    ensures Speaking(trace[..k]) <==> Started(trace, k)
    decreases k
  {
    hide Started, Pending;
    if k > 0 {
      var last := k - 1;
      assert trace[..k][..last] == trace[..last];
      SpeakingIff(trace, last);
      StartedSnoc(trace, k);
      assert RaisesAt(trace, last) <==> Raises(trace[..k]);
    } else {
      NothingStarted(trace);
    }
  }

  lemma NothingStarted(trace: seq<Envelope>)
    ensures !Started(trace, 0)
  {
  }

  /** Stops are late if and only if none comes right behind a start, barge-ins aside. */
  lemma StopsAreLateIff(trace: seq<Envelope>)
    ensures StopsAreLate(trace) <==>
      forall k :: 0 <= k < |trace| && trace[k].frame.BotStoppedSpeakingFrame? ==> !Started(trace, k)
  {
    hide Speaking, Started;
    forall k | 0 <= k < |trace| ensures Speaking(trace[..k]) <==> Started(trace, k) {
      SpeakingIff(trace, k);
    }
  }

  // ---- What the playback sink sends, and what arrives of it ----

  ghost predicate StopsFollowDone(marks: seq<Frame>) {
    forall k :: 0 <= k < |marks| && marks[k].BotStoppedSpeakingFrame? ==> k > 0 && marks[k - 1].TTSDoneFrame?
  }

  lemma PlayedSnoc(up: seq<Playback.Report>, r: Playback.Report)
    ensures PlayedMarks(up + [r]) == PlayedMarks(up) + (if IsMark(r.frame) then [r.frame] else [])
  {
    assert (up + [r])[..|up|] == up;
  }

  lemma PlayHeadReports(s: Playback.State)
    requires s.queue != [] && Playback.QueueInv(s) && StopsFollowDone(PlayedMarks(s.up))
    ensures StopsFollowDone(PlayedMarks(Playback.PlayHead(s).0.up))
  {
    hide PlayedMarks;
    var f, n := s.queue[0], s.dequeued;
    PlayedSnoc(s.up, Playback.Report(f, n));
    PlayedSnoc(s.up, Playback.Report(BotStartedSpeakingFrame, n));
    PlayedSnoc(s.up + [Playback.Report(f, n)], Playback.Report(BotStoppedSpeakingFrame, n));
  }

  lemma {:induction false} TickReports(s: Playback.State)
    requires Playback.QueueInv(s) && StopsFollowDone(PlayedMarks(s.up))
    ensures StopsFollowDone(PlayedMarks(Playback.Tick(s).up))
    decreases |s.queue|
  {
    hide PlayedMarks, StopsFollowDone;
    if s.queue != [] {
      PlayHeadReports(s);
      if !Playback.PlayHead(s).1 {
        TickReports(Playback.PlayHead(s).0);
      }
    }
  }

  lemma {:induction false} PlaybackReports(s: Playback.State, run: seq<Playback.Op>)
    requires Playback.QueueInv(s) && StopsFollowDone(PlayedMarks(s.up)) && Playback.ValidRun(s, run)
    ensures StopsFollowDone(PlayedMarks(Playback.Final(s, run).up))
    decreases |run|
  {
    hide Playback.Tick, PlayedMarks, StopsFollowDone, Playback.QueueInv;
    if run != [] {
      Playback.StepKeepsInv(s, run[0]);
      TickReports(s);
      PlaybackReports(Playback.Next(s, run[0]), run[1..]);
    }
  }

  /** What is left of the marks sent when those with a false flag have been purged. */
  function Arrived(marks: seq<Frame>, flags: seq<bool>): seq<Frame>
    requires |flags| <= |marks|
    decreases |flags|
  {
    if flags == [] then []
    else
      var n := |flags| - 1;
      Arrived(marks, flags[..n]) + (if flags[n] then [marks[n]] else [])
  }

  /** No stop arrives whose predecessor, its done, has been purged. */
  ghost predicate KeepsPairs(marks: seq<Frame>, flags: seq<bool>)
    requires |flags| <= |marks|
  {
    forall k :: 0 <= k < |flags| && flags[k] && marks[k].BotStoppedSpeakingFrame? ==> k > 0 && flags[k - 1]
  }

  lemma {:induction false} PairsArrive(marks: seq<Frame>, flags: seq<bool>)
    requires |flags| <= |marks| && StopsFollowDone(marks) && KeepsPairs(marks, flags)
    ensures StopsFollowDone(Arrived(marks, flags))
    decreases |flags|
  {
    if flags != [] {
      var n := |flags| - 1;
      var init := flags[..n];
      PairsArrive(marks, init);
      if flags[n] && marks[n].BotStoppedSpeakingFrame? {
        assert init[n - 1] && marks[n - 1].TTSDoneFrame?;
        assert Arrived(marks, init) == Arrived(marks, init[..n - 1]) + [marks[n - 1]];
      }
    }
  }

  lemma {:induction false} SpeakingEndsInStart(trace: seq<Envelope>)
    requires Speaking(trace)
    ensures Marks(trace) != [] && Marks(trace)[|Marks(trace)| - 1].BotStartedSpeakingFrame?
    decreases |trace|
  {
    hide Raises;
    if !trace[|trace| - 1].frame.BotStartedSpeakingFrame? {
      SpeakingEndsInStart(trace[..|trace| - 1]);
    }
  }

  lemma {:induction false} MarksOfPrefix(trace: seq<Envelope>, n: nat)
    requires n <= |trace|
    ensures Marks(trace[..n]) <= Marks(trace)
    decreases |trace|
  {
    if n < |trace| {
      var init := trace[..|trace| - 1];
      MarksOfPrefix(init, n);
      assert init[..n] == trace[..n];
    } else {
      assert trace[..n] == trace;
    }
  }

  lemma {:induction false} StopHasDone(trace: seq<Envelope>, k: nat)
    requires k < |trace| && trace[k].frame.BotStoppedSpeakingFrame? && StopsFollowDone(Marks(trace))
    ensures !Speaking(trace[..k])
  {
    hide Speaking;
    MarksOfPrefix(trace, k + 1);
    assert trace[..k + 1][..k] == trace[..k];
    var before, all := Marks(trace[..k]), Marks(trace);
    assert Marks(trace[..k + 1]) == before + [trace[k].frame];
    assert all[|before|] == (before + [trace[k].frame])[|before|];
    assert all[|before| - 1] == (before + [trace[k].frame])[|before| - 1];
    if Speaking(trace[..k]) {
      SpeakingEndsInStart(trace[..k]);
    }
  }

  /**
   * Whatever else is interleaved and whatever marks a purge has taken on the way, the stops of a
   * playback run are late as long as none arrives without its done.
   */
  lemma PlaybackStopsAreLate(trace: seq<Envelope>, run: seq<Playback.Op>, flags: seq<bool>)
    requires Playback.ValidRun(Playback.INITIAL, run)
    requires var played := PlayedMarks(Playback.Final(Playback.INITIAL, run).up);
      |flags| <= |played| && Marks(trace) == Arrived(played, flags) && KeepsPairs(played, flags)
    ensures StopsAreLate(trace)
  {
    hide Speaking, Playback.Final, Playback.ValidRun, PlayedMarks, StopsFollowDone;
    NothingPlayed();
    PlaybackReports(Playback.INITIAL, run);
    PairsArrive(PlayedMarks(Playback.Final(Playback.INITIAL, run).up), flags);
    forall k | 0 <= k < |trace| && trace[k].frame.BotStoppedSpeakingFrame? ensures !Speaking(trace[..k]) {
      StopHasDone(trace, k);
    }
  }

  lemma NothingPlayed()
    ensures Playback.QueueInv(Playback.INITIAL) && StopsFollowDone(PlayedMarks(Playback.INITIAL.up))
  {
  }

  // ---- A purge between done and stop ----

  /** A stop with no "done" before it lets overheard speech through. */
  lemma EarlyStopCommitsOverheardSpeech()
    ensures var s := Initial(Some([]), "");
      var said := TranscriptFrame("ok", true, 0);
      var trace := [Envelope(BotStartedSpeakingFrame, Upstream), Envelope(said, Downstream),
                    Envelope(BotStoppedSpeakingFrame, Upstream),
                    Envelope(TranscriptFrame(END_TOKEN, true, 0), Downstream)];
      && Fresh(s) && IsToken(said) && Speaking(trace[..1]) && !Pending(trace[..3])
      && LastOutput(s, trace) == [UserCommitted("ok")]
  {
    var s := Initial(Some([]), "");
    var e0 := Envelope(BotStartedSpeakingFrame, Upstream);
    var e1 := Envelope(TranscriptFrame("ok", true, 0), Downstream);
    var e2 := Envelope(BotStoppedSpeakingFrame, Upstream);
    var e3 := Envelope(TranscriptFrame(END_TOKEN, true, 0), Downstream);
    var trace := [e0, e1, e2, e3];
    assert trace[..3][..2] == [e0, e1] && [e0, e1][..1] == [e0] && [e0][..0] == [];
    assert trace[..1] == [e0];
    TraceTracks(s, trace[..1]);
    TraceTracks(s, trace[..3]);
    var a := After(s, [e0, e1]);
    assert After(s, [e0]) == s.(botSpeaking := true);
    assert a == s.(botSpeaking := true, currentTranscript := "" + "ok");
    assert "" + "ok" == "ok";
  }

  /**
   * An interrupt that did not come from the aggregator can do that: a stage on the way up purges the
   * done from its process channel and then hands on the stop behind it, with no timeout involved.
   */
  lemma PurgedDoneCommitsOverheardSpeech(interrupt: Envelope)
    requires interrupt.frame.InterruptFrame?
    ensures var done, stop := Envelope(TTSDoneFrame, Upstream), Envelope(BotStoppedSpeakingFrame, Upstream);
      var s, said := Initial(Some([]), ""), TranscriptFrame("ok", true, 0);
      exists run ::
        && Processor.ValidRun(Processor.INITIAL, run)
        && var stage := Processor.Final(Processor.INITIAL, run);
        && stage.accepted == [done, stop] && stage.purged == [done] && !stage.timedOut
        && LastOutput(s, [Envelope(BotStartedSpeakingFrame, Upstream), Envelope(said, Downstream)] + stage.handed
                         + [Envelope(TranscriptFrame(END_TOKEN, true, 0), Downstream)]) == [UserCommitted("ok")]
  {
    hide LastOutput, Processor.ValidRun, Processor.Final;
    var done, stop := Envelope(TTSDoneFrame, Upstream), Envelope(BotStoppedSpeakingFrame, Upstream);
    var run := ProcessorOrder.PurgeBetween(done, stop, interrupt);
    var said := Envelope(TranscriptFrame("ok", true, 0), Downstream);
    var end := Envelope(TranscriptFrame(END_TOKEN, true, 0), Downstream);
    assert [Envelope(BotStartedSpeakingFrame, Upstream), said] + [stop] + [end]
        == [Envelope(BotStartedSpeakingFrame, Upstream), said, stop, end];
    EarlyStopCommitsOverheardSpeech();
  }
}
