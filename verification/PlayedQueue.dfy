/**
 * What the playback sink plays: while no interrupt and no turn start intervenes, exactly the frames
 * queued, in order, each played or reported as its kind asks; and which EndFrames let them play out.
 */
module PlayedQueue {
  import opened Frames
  import opened Playback

  /** What playing some frames sends upstream; a turn's first audio frame also reports that the bot speaks. */
  function Reports(frames: seq<Frame>, started: bool): seq<Frame> {
    if frames == [] then []
    else
      var f, rest := frames[0], Reports(frames[1..], started || frames[0].AudioFrame?);
      if f.AudioFrame? && !started then [BotStartedSpeakingFrame] + rest
      else if f.WordTimestampFrame? then [f] + rest
      else if f.TTSDoneFrame? then [f, BotStoppedSpeakingFrame] + rest
      else rest
  }

  function AudioCount(frames: seq<Frame>): nat {
    if frames == [] then 0 else (if frames[0].AudioFrame? then 1 else 0) + AudioCount(frames[1..])
  }

  /** The frames reported upstream, in order. */
  function Sent(up: seq<Report>): seq<Frame> {
    if up == [] then [] else Sent(up[..|up| - 1]) + [up[|up| - 1].frame]
  }

  lemma SentSnoc(up: seq<Report>, r: Report)
    ensures Sent(up + [r]) == Sent(up) + [r.frame]
  {
    assert (up + [r])[..|up|] == up;
  }

  /** `t` has played `frames` since `s`. */
  ghost predicate Plays(s: State, t: State, frames: seq<Frame>) {
    && Sent(t.up) == Sent(s.up) + Reports(frames, s.started)
    && t.dequeued == s.dequeued + AudioCount(frames)
    && (t.started <==> s.started || AudioCount(frames) > 0)
    && t.interrupted == s.interrupted
    && (t.finished <==> s.finished || HasEnd(frames))
    && (HasEnd(frames) ==> t.down != [] && t.down[|t.down| - 1] == frames[|frames| - 1])
  }

  lemma PlaysHead(s: State)
    requires s.queue != [] && Playable(s.queue[0]) && !s.finished
    ensures Plays(s, PlayHead(s).0, [s.queue[0]]) && PlayHead(s).0.queue == s.queue[1..]
    ensures PlayHead(s).1 <==> s.queue[0].AudioFrame? || s.queue[0].EndFrame?
  {
    hide Sent, Reports;
    HeadReports(s);
    JustOne(s.queue[0]);
  }

  lemma JustOne(f: Frame)
    ensures HasEnd([f]) <==> f.EndFrame?
    ensures AudioCount([f]) == if f.AudioFrame? then 1 else 0
  {
    assert [f][1..] == [];
  }

  lemma HeadReports(s: State)
    requires s.queue != [] && Playable(s.queue[0])
    ensures Sent(PlayHead(s).0.up) == Sent(s.up) + Reports([s.queue[0]], s.started)
  {
    hide Sent;
    var f, n := s.queue[0], s.dequeued;
    assert [f][1..] == [];
    match f
    case AudioFrame(_) =>
      SentSnoc(s.up, Report(BotStartedSpeakingFrame, n));
      assert Sent(s.up) + [] == Sent(s.up);
    case WordTimestampFrame(_) => SentSnoc(s.up, Report(f, n));
    case TTSDoneFrame =>
      SentSnoc(s.up, Report(f, n));
      SentSnoc(s.up + [Report(f, n)], Report(BotStoppedSpeakingFrame, n));
      assert Sent(s.up) + [f] + [BotStoppedSpeakingFrame] == Sent(s.up) + [f, BotStoppedSpeakingFrame];
    case EndFrame(_) => assert Sent(s.up) + [] == Sent(s.up);
  }

  lemma {:induction false} PlayedConcat(a: seq<Frame>, b: seq<Frame>, started: bool)
    ensures Reports(a + b, started) == Reports(a, started) + Reports(b, started || AudioCount(a) > 0)
    ensures AudioCount(a + b) == AudioCount(a) + AudioCount(b)
    ensures HasEnd(a + b) <==> HasEnd(a) || HasEnd(b)
    decreases |a|
  {
    if a == [] {
      assert a + b == b;
    } else {
      assert (a + b)[1..] == a[1..] + b;
      PlayedConcat(a[1..], b, started || a[0].AudioFrame?);
    }
  }

  lemma PlaysChain(s: State, t: State, u: State, a: seq<Frame>, b: seq<Frame>)
    requires Plays(s, t, a) && Plays(t, u, b) && (HasEnd(a) ==> b == [] && u.down == t.down)
    ensures Plays(s, u, a + b)
  {
    hide Reports, AudioCount, Sent;
    PlayedConcat(a, b, s.started);
    assert (Sent(s.up) + Reports(a, s.started)) + Reports(b, t.started)
        == Sent(s.up) + (Reports(a, s.started) + Reports(b, t.started));
    if HasEnd(a) {
      assert a + b == a;
    } else if HasEnd(b) {
      assert (a + b)[|a + b| - 1] == b[|b| - 1];
    }
  }

  lemma PlaysNothing(s: State)
    ensures Plays(s, s, [])
  {
    assert Sent(s.up) + [] == Sent(s.up);
  }

  /** The stretch of length k ends with its only EndFrame. */
  predicate FirstEnd(q: seq<Frame>, k: nat) {
    0 < k <= |q| && q[k - 1].EndFrame? && !HasEnd(q[..k - 1])
  }

  /** A tick plays a stretch off the front of the queue. */
  lemma {:induction false} TickPlays(s: State) returns (k: nat)
    requires !s.finished && forall f :: f in s.queue ==> Playable(f)
    ensures k <= |s.queue| && Plays(s, Tick(s), s.queue[..k]) && Tick(s).queue == s.queue[k..]
    ensures Tick(s).finished ==> FirstEnd(s.queue, k)
    decreases |s.queue|
  {
    hide Plays, PlayHead;
    if s.queue == [] {
      k := 0;
      PlaysNothing(s);
      assert s.queue[..0] == [];
    } else {
      var (t, over) := PlayHead(s);
      assert s.queue[0] in s.queue;
      PlaysHead(s);
      PlayedEnd(s, t, [s.queue[0]]);
      if over {
        k := 1;
        assert s.queue[..1] == [s.queue[0]];
      } else {
        k := TickPlays(t);
        PlaysChain(s, t, Tick(t), [s.queue[0]], t.queue[..k]);
        assert [s.queue[0]] + t.queue[..k] == s.queue[..k + 1];
        if Tick(t).finished {
          assert s.queue[..k][1..] == t.queue[..k - 1];
        }
        k := k + 1;
      }
    }
  }

  lemma PlayedEnd(s: State, t: State, frames: seq<Frame>)
    requires Plays(s, t, frames) && !s.finished
    ensures t.finished <==> HasEnd(frames)
    ensures |frames| == 1 ==> (HasEnd(frames) <==> frames[0].EndFrame?)
  {
  }

  /** A tick has played the first k frames of the queue. */
  ghost predicate TickStretch(s: State, k: nat) {
    && k <= |s.queue| && Plays(s, Tick(s), s.queue[..k]) && Tick(s).queue == s.queue[k..]
    && (Tick(s).finished ==> FirstEnd(s.queue, k))
  }

  lemma TickOfQueue(s: State) returns (k: nat)
    requires QueueInv(s) && !s.finished
    ensures TickStretch(s, k)
  {
    hide Plays, Tick, FirstEnd;
    k := TickPlays(s);
  }

  // ---- Runs without interruption ----

  /** Neither an interrupt, nor the start of a turn, nor an EndFrame that ends at once. */
  predicate Calm(op: Op) {
    op.Enqueue? ==>
      && !op.f.InterruptFrame? && !op.f.LLMResponseStartFrame? && !op.f.TTSSpeakFrame?
      && op.f != EndFrame("client_disconnected") && op.f != EndFrame("error")
  }

  predicate AllCalm(run: seq<Op>) {
    forall op :: op in run ==> Calm(op)
  }

  lemma CalmRest(run: seq<Op>)
    requires run != [] && AllCalm(run)
    ensures Calm(run[0]) && AllCalm(run[1..])
  {
    hide Calm;
    assert run[0] in run && forall op :: op in run[1..] ==> op in run;
  }

  /** The frames a run puts into the queue. */
  function Queued(run: seq<Op>): seq<Frame> {
    if run == [] then []
    else (if run[0].Enqueue? && Playable(run[0].f) then [run[0].f] else []) + Queued(run[1..])
  }

  lemma CalmArrival(s: State, f: Frame)
    requires !s.interrupted && Calm(Enqueue(f))
    ensures HandleQueueFrame(s, f) == if Playable(f) then s.(queue := s.queue + [f]) else s
  {
  }

  /** From `s` to `t` the first k frames of the queue and of what came in have been played, and the rest is queued. */
  ghost predicate PlayedUpTo(s: State, more: seq<Frame>, t: State, k: nat) {
    var all := s.queue + more;
    k <= |all| && Plays(s, t, all[..k]) && t.queue == all[k..] && (t.finished ==> FirstEnd(all, k))
  }

  lemma NothingPlayed(s: State)
    requires !s.finished
    ensures PlayedUpTo(s, [], s, 0)
  {
    hide Plays;
    PlaysNothing(s);
    assert s.queue + [] == s.queue && s.queue[..0] == [] && s.queue[0..] == s.queue;
  }

  lemma ArrivalPlayed(s: State, f: Frame, more: seq<Frame>, u: State, k: nat)
    requires !s.interrupted && Calm(Enqueue(f)) && PlayedUpTo(HandleQueueFrame(s, f), more, u, k)
    ensures PlayedUpTo(s, (if Playable(f) then [f] else []) + more, u, k)
  {
    hide Plays, HandleQueueFrame, FirstEnd, Calm;
    CalmArrival(s, f);
    var t := HandleQueueFrame(s, f);
    var x := if Playable(f) then [f] else [];
    assert s.queue + (x + more) == t.queue + more;
    SameSoFar(s, t, u, (t.queue + more)[..k]);
  }

  /**
   * Without interruption the frames that were queued or come in are played in order, none skipped and
   * none twice: a stretch of them has been played, exactly as its frames ask, and the rest is queued.
   */
  lemma {:induction false} QueueIsPlayedInOrder(s: State, run: seq<Op>) returns (k: nat)
    requires QueueInv(s) && !s.interrupted && !s.finished && ValidRun(s, run)
    requires AllCalm(run)
    ensures PlayedUpTo(s, Queued(run), Final(s, run), k)
    decreases |run|
  {
    hide PlayedUpTo, TickStretch, Tick, HandleQueueFrame, AllCalm, QueueInv;
    if run == [] {
      k := 0;
      NothingPlayed(s);
    } else {
      var t, rest := Next(s, run[0]), run[1..];
      CalmRest(run);
      StepKeepsInv(s, run[0]);
      match run[0] {
        case Enqueue(f) =>
          assert !t.interrupted && !t.finished by { CalmArrival(s, f); }
          k := QueueIsPlayedInOrder(t, rest);
          ArrivalPlayed(s, f, Queued(rest), Final(t, rest), k);
        case TickNow =>
          assert Queued(run) == [] + Queued(rest) == Queued(rest);
          k := TickOfQueue(s);
          if t.finished {
            assert rest == [];
            TickPlayed(s, k);
          } else {
            TickKeepsInv(s);
            var m := QueueIsPlayedInOrder(t, rest);
            TickThenPlayed(s, k, Queued(rest), Final(t, rest), m);
            k := k + m;
          }
      }
    }
  }

  lemma TickPlayed(s: State, k: nat)
    requires TickStretch(s, k) && Tick(s).finished
    ensures PlayedUpTo(s, [], Tick(s), k)
  {
    assert s.queue + [] == s.queue;
  }

  lemma TickThenPlayed(s: State, k: nat, more: seq<Frame>, u: State, m: nat)
    requires TickStretch(s, k) && !s.finished && !Tick(s).finished && PlayedUpTo(Tick(s), more, u, m)
    ensures PlayedUpTo(s, more, u, k + m)
  {
    hide Plays, Tick, FirstEnd, HasEnd;
    var all, t := s.queue + more, Tick(s);
    assert all[..k] == s.queue[..k] && all[k..] == t.queue + more;
    NoEndYet(s, t, all[..k]);
    PlaysChain(s, t, u, all[..k], all[k..][..m]);
    JoinStretches(all, k, m);
  }

  lemma SameSoFar(s: State, t: State, u: State, frames: seq<Frame>)
    requires t == s.(queue := t.queue) && Plays(t, u, frames)
    ensures Plays(s, u, frames)
  {
  }

  lemma JoinStretches(all: seq<Frame>, k: nat, m: nat)
    requires k <= |all| && m <= |all| - k && !HasEnd(all[..k])
    ensures all[..k] + all[k..][..m] == all[..k + m] && all[k..][m..] == all[k + m..]
    ensures FirstEnd(all[k..], m) ==> FirstEnd(all, k + m)
  {
    if FirstEnd(all[k..], m) {
      assert all[..k] + all[k..][..m - 1] == all[..k + m - 1];
      PlayedConcat(all[..k], all[k..][..m - 1], false);
    }
  }

  lemma NoEndYet(s: State, t: State, frames: seq<Frame>)
    requires Plays(s, t, frames) && !t.finished
    ensures !HasEnd(frames)
  {
  }

  // ---- Which EndFrames let the queue play out ----

  /** Ends the call at once: the caller has gone, or something has failed. */
  predicate EndsAtOnce(reason: string) {
    reason == "client_disconnected" || reason == "error"
  }

  /**
   * An EndFrame with any other reason queues up behind everything: once it has been played, all audio
   * queued before has been dequeued, and every word and done among it reported, in order.
   */
  lemma GracefulEndPlaysQueue(s: State, reason: string, run: seq<Op>)
    requires QueueInv(s) && !s.interrupted && !s.finished && !HasEnd(s.queue)
    requires reason != "client_disconnected" && reason != "error"
    requires AllCalm(run)
    requires ValidRun(HandleQueueFrame(s, EndFrame(reason)), run)
    ensures HandleQueueFrame(s, EndFrame(reason)) == s.(queue := s.queue + [EndFrame(reason)])
    ensures var t := Final(HandleQueueFrame(s, EndFrame(reason)), run);
      t.finished ==>
        && Sent(t.up) == Sent(s.up) + Reports(s.queue, s.started)
        && t.dequeued == s.dequeued + AudioCount(s.queue)
        && t.down != [] && t.down[|t.down| - 1] == EndFrame(reason)
  {
    hide Plays, Calm, HandleQueueFrame, Tick;
    var e := EndFrame(reason);
    CalmEnd(reason);
    CalmArrival(s, e);
    var q := HandleQueueFrame(s, e);
    StepKeepsInv(s, Enqueue(e));
    var k := QueueIsPlayedInOrder(q, run);
    var t, all := Final(q, run), q.queue + Queued(run);
    SameSoFar(s, q, t, all[..k]);
    if t.finished {
      EndComesLast(s.queue, e, Queued(run), k, all);
      PlaysThrough(s, t, s.queue, e);
    }
  }

  lemma CalmEnd(reason: string)
    requires reason != "client_disconnected" && reason != "error"
    ensures Calm(Enqueue(EndFrame(reason)))
  {
  }

  /** The first EndFrame of the queue is the one that came in. */
  lemma EndComesLast(q: seq<Frame>, e: Frame, more: seq<Frame>, k: nat, all: seq<Frame>)
    requires all == q + [e] + more && FirstEnd(all, k) && !HasEnd(q) && e.EndFrame?
    ensures all[..k] == q + [e]
  {
    if k <= |q| {
      EndAt(q, k - 1);
    } else if k > |q| + 1 {
      EndAt(all[..k - 1], |q|);
    }
  }

  lemma {:induction false} EndAt(q: seq<Frame>, i: nat)
    requires i < |q| && q[i].EndFrame?
    ensures HasEnd(q)
    decreases |q|
  {
    if i > 0 {
      EndAt(q[1..], i - 1);
    }
  }

  lemma PlaysThrough(s: State, t: State, q: seq<Frame>, e: Frame)
    requires Plays(s, t, q + [e]) && e.EndFrame?
    ensures Sent(t.up) == Sent(s.up) + Reports(q, s.started) && t.dequeued == s.dequeued + AudioCount(q)
    ensures t.down != [] && t.down[|t.down| - 1] == e
  {
    PlayedConcat(q, [e], s.started);
    assert [e][1..] == [];
    assert Reports(q, s.started) + [] == Reports(q, s.started);
  }

  /** With one of the two reasons nothing that was queued is played or reported any more. */
  lemma EndAtOnceDropsQueue(s: State, reason: string, run: seq<Op>)
    requires QueueInv(s) && EndsAtOnce(reason) && NoTurnBegins(run)
    ensures var q := HandleQueueFrame(s, EndFrame(reason));
      && q == s.(queue := [EndFrame(reason)], interrupted := true)
      && Final(q, run).up == s.up && Final(q, run).dequeued == s.dequeued
  {
    hide Tick;
    StepKeepsInv(s, Enqueue(EndFrame(reason)));
    InterruptedIsSilent(HandleQueueFrame(s, EndFrame(reason)), run);
  }

  lemma {:induction false} KeptFrame(q: seq<Frame>, f: Frame)
    ensures f in KeptFrames(q) <==> f in q && !f.IsInterruptible()
    decreases |q|
  {
    if q != [] {
      KeptFrame(q[..|q| - 1], f);
      assert q == q[..|q| - 1] + [q[|q| - 1]];
    }
  }

  /** An interrupt silences the sink, and leaves exactly the uninterruptible frames in its queue. */
  lemma InterruptSilences(s: State, run: seq<Op>)
    requires QueueInv(s) && NoTurnBegins(run)
    ensures var t := HandleQueueFrame(s, InterruptFrame);
      && t.interrupted && t.up == s.up && t.down == s.down
      && (forall f :: f in t.queue <==> f in s.queue && f.EndFrame?)
      && Final(t, run).up == s.up && Final(t, run).dequeued == s.dequeued
  {
    hide Tick, KeptFrames, Final;
    var t := HandleQueueFrame(s, InterruptFrame);
    forall f ensures f in t.queue <==> f in s.queue && f.EndFrame? {
      KeptFrame(s.queue, f);
      assert f in s.queue ==> Playable(f);
    }
    StepKeepsInv(s, Enqueue(InterruptFrame));
    InterruptedIsSilent(t, run);
  }

  /** The start of a turn makes the sink play again, from an empty queue. */
  lemma TurnPlaysAgain(s: State, f: Frame)
    requires f.LLMResponseStartFrame? || f.TTSSpeakFrame?
    ensures var t := HandleQueueFrame(s, f);
      !t.interrupted && !t.started && t.queue == [] && t.dequeued == 0 && t.up == s.up && t.down == s.down
  {
  }

  // ---- The pace ----

  /** A tick plays one audio frame, or an EndFrame, or else everything there is: never more than 20 ms. */
  lemma {:induction false} TickIsOneFrame(s: State)
    requires QueueInv(s) && !s.finished
    ensures var t := Tick(s);
      && t.dequeued <= s.dequeued + 1
      && (t.dequeued == s.dequeued && !t.finished ==> t.queue == [])
      && (t.finished ==> t.dequeued == s.dequeued)
      && (s.queue != [] && s.queue[0].AudioFrame? ==> t.queue == s.queue[1..])
    decreases |s.queue|
  {
    if s.queue != [] {
      assert s.queue[0] in s.queue && Playable(s.queue[0]);
      if !PlayHead(s).1 {
        TickIsOneFrame(PlayHead(s).0);
      }
    }
  }
}
