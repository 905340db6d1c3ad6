/**
 * The EndFrame on its way to the ear. The playback sink alone would drop an EndFrame behind which
 * a turn begins; behind synthesis that cannot happen, because an EndFrame is the last frame pushed.
 */
module SpeechEnd {
  import opened Frames
  import opened Text
  import Tts
  import G = TtsGuarantees
  import Playback
  import opened Speech

  // ---- EndFrames, and the frames that begin a turn ----

  function Ends(q: seq<Frame>): seq<Frame> {
    if q == [] then []
    else Ends(q[..|q| - 1]) + (if q[|q| - 1].EndFrame? then [q[|q| - 1]] else [])
  }

  predicate BeginsNone(q: seq<Frame>) {
    q == [] || (BeginsNone(q[..|q| - 1]) && !Playback.BeginsTurn(q[|q| - 1]))
  }

  /** Behind an EndFrame no turn begins. */
  predicate Guarded(q: seq<Frame>) {
    q == [] || (Guarded(q[..|q| - 1]) && (Playback.BeginsTurn(q[|q| - 1]) ==> Ends(q[..|q| - 1]) == []))
  }

  lemma {:induction false} Parts(a: seq<Frame>, b: seq<Frame>)
    ensures Ends(a + b) == Ends(a) + Ends(b)
    ensures BeginsNone(a + b) <==> BeginsNone(a) && BeginsNone(b)
    ensures Guarded(a + b) <==> Guarded(a) && Guarded(b) && (Ends(a) == [] || BeginsNone(b))
    decreases |b|
  {
    if b == [] {
      assert a + b == a;
    } else {
      Parts(a, b[..|b| - 1]);
      assert (a + b)[..|a + b| - 1] == a + b[..|b| - 1];
    }
  }

  lemma One(f: Frame)
    ensures Ends([f]) == if f.EndFrame? then [f] else []
    ensures BeginsNone([f]) <==> !Playback.BeginsTurn(f)
    ensures Guarded([f])
  {
    assert [f][..0] == [];
  }

  lemma Nothing()
    ensures Ends([]) == [] && BeginsNone([]) && Guarded([])
  {
  }

  lemma {:induction false} NoTurnIsGuarded(q: seq<Frame>)
    requires BeginsNone(q)
    ensures Guarded(q)
  {
    if q != [] {
      NoTurnIsGuarded(q[..|q| - 1]);
    }
  }

  /** A purge keeps every EndFrame and nothing that begins a turn. */
  lemma {:induction false} PurgeKeepsEnds(q: seq<Frame>)
    ensures Ends(Playback.KeptFrames(q)) == Ends(q) && BeginsNone(Playback.KeptFrames(q))
  {
    if q != [] {
      var init, f := Playback.KeptFrames(q[..|q| - 1]), q[|q| - 1];
      PurgeKeepsEnds(q[..|q| - 1]);
      Parts(init, [f]);
      One(f);
    }
  }

  /** The playback queue never holds a frame that begins a turn. */
  lemma {:induction false} QueueBeginsNone(q: seq<Frame>)
    requires forall f :: f in q ==> Playback.Playable(f)
    ensures BeginsNone(q)
  {
    if q != [] {
      QueueBeginsNone(q[..|q| - 1]);
      assert q[|q| - 1] in q;
    }
  }

  // ---- The invariant ----

  /** An EndFrame has been pushed downstream; it is then the last frame pushed. */
  predicate EndPushed(pushed: seq<Envelope>) {
    pushed != [] && pushed[|pushed| - 1].frame.EndFrame? && pushed[|pushed| - 1].dir.Downstream?
  }

  ghost predicate Played(p: Playback.State, e: Frame) {
    p.finished && p.down != [] && p.down[|p.down| - 1] == e
  }

  /** What is queued and on the way, given the EndFrame pushed last, if any. */
  ghost predicate OnItsWay(pushed: seq<Envelope>, all: seq<Frame>, p: Playback.State) {
    if EndPushed(pushed) then
      var e := pushed[|pushed| - 1].frame;
      Played(p, e) || (!p.finished && Ends(all) == [e] && Guarded(all))
    else
      !p.finished && Ends(all) == []
  }

  ghost predicate EndInv(y: System) {
    OnItsWay(y.tts.pushed, y.sink.queue + y.link, y.sink)
  }

  // ---- Synthesis ----

  lemma {:induction false} NoEndDown(envs: seq<Envelope>)
    requires forall i :: 0 <= i < |envs| ==> !(envs[i].frame.EndFrame? && envs[i].dir.Downstream?)
    ensures Ends(Down(envs)) == []
  {
    if envs != [] {
      var init, f := Down(envs[..|envs| - 1]), envs[|envs| - 1].frame;
      NoEndDown(envs[..|envs| - 1]);
      Parts(init, [f]);
      One(f);
      assert Down(envs) == if envs[|envs| - 1].dir.Downstream? then init + [f] else init;
    }
  }

  /** A step only adds to what has been pushed, and a stage that has stopped adds nothing. */
  lemma StepPushesMore(s: Tts.State, step: Tts.Step)
    requires s.Wf() && Tts.Enabled(s, step)
    ensures s.pushed <= Tts.Next(s, step).pushed
    ensures s.stopped ==> Tts.Next(s, step).pushed == s.pushed
  {
    hide Tts.HandleEvent, Tts.HandleCommand, Tts.FlushForEnd;
    match step {
      case Receive(_) =>
      case Consume => G.EventKeepsRest(s.(events := s.events[1..]), s.events[0]);
      case Execute(cmd, w) =>
        if cmd.env.frame.EndFrame? {
          G.CommandIsEnd(s, cmd, w);
          FlushForEndPushesNothing(s, w);
        } else {
          G.CommandPushesFew(s, cmd, w);
        }
    }
  }

  lemma FlushForEndPushesNothing(s: Tts.State, w: Tts.World)
    ensures Tts.FlushForEnd(s, w).pushed == s.pushed
  {
    hide Blank, Tts.SendText, Tts.FinishContext;
  }

  /** Before one is pushed none is among the frames pushed; the one pushed comes last. */
  lemma NewFrames(s: Tts.State, t: Tts.State) returns (more: seq<Envelope>)
    requires G.DeferralInv(s) && G.DeferralInv(t) && !s.stopped && s.pushed <= t.pushed
    ensures t.pushed == s.pushed + more && !EndPushed(s.pushed)
    ensures !EndPushed(t.pushed) ==> Ends(Down(more)) == []
    ensures EndPushed(t.pushed) ==> more != [] && more[|more| - 1] == t.pushed[|t.pushed| - 1]
    ensures EndPushed(t.pushed) ==> Ends(Down(more[..|more| - 1])) == []
    ensures EndPushed(t.pushed) ==> Down(more) == Down(more[..|more| - 1]) + [more[|more| - 1].frame]
  {
    more := t.pushed[|s.pushed|..];
    if EndPushed(t.pushed) {
      assert more == [] ==> t.pushed == s.pushed;
      forall i | 0 <= i < |more| - 1 ensures !more[i].frame.EndFrame? {
        assert more[i] == t.pushed[|s.pushed| + i];
      }
      NoEndDown(more[..|more| - 1]);
    } else {
      forall i | 0 <= i < |more| ensures !(more[i].frame.EndFrame? && more[i].dir.Downstream?) {
        assert more[i] == t.pushed[|s.pushed| + i];
      }
      NoEndDown(more);
    }
  }

  lemma SynthesisKeepsEnd(y: System, step: Tts.Step)
    requires Inv(y) && EndInv(y) && Enabled(y, Synthesis(step))
    ensures EndInv(Next(y, Synthesis(step)))
  {
    hide Tts.Next, Tts.Enabled, Ends, Guarded, BeginsNone, Down, Flowing, ReportsOnTime, G.DeferralInv, EndPushed;
    var s, t := y.tts, Tts.Next(y.tts, step);
    StepPushesMore(s, step);
    G.StepKeepsDeferral(s, step);
    var q := y.sink.queue + y.link;
    if s.stopped {
      assert t.pushed[|s.pushed|..] == [];
      assert Down([]) == [] by { NothingDown(); }
      assert y.link + [] == y.link;
    } else {
      var more := NewFrames(s, t);
      assert t.pushed[|s.pushed|..] == more;
      assert y.sink.queue + (y.link + Down(more)) == q + Down(more);
      EndJoins(s.pushed, t.pushed, more, q, y.sink);
    }
  }

  lemma EndJoins(before: seq<Envelope>, after: seq<Envelope>, more: seq<Envelope>, q: seq<Frame>, p: Playback.State)
    requires !EndPushed(before) && OnItsWay(before, q, p)
    requires !EndPushed(after) ==> Ends(Down(more)) == []
    requires EndPushed(after) ==> more != [] && more[|more| - 1] == after[|after| - 1]
    requires EndPushed(after) ==> Ends(Down(more[..|more| - 1])) == []
    requires EndPushed(after) ==> Down(more) == Down(more[..|more| - 1]) + [more[|more| - 1].frame]
    ensures OnItsWay(after, q + Down(more), p)
  {
    hide Ends, Guarded, BeginsNone, Down;
    Parts(q, Down(more));
    if EndPushed(after) {
      var init, e := Down(more[..|more| - 1]), more[|more| - 1].frame;
      Parts(init, [e]);
      One(e);
      NoEndIsGuarded(q);
      NoEndIsGuarded(init);
    }
  }

  lemma {:induction false} NoEndIsGuarded(q: seq<Frame>)
    requires Ends(q) == []
    ensures Guarded(q)
  {
    if q != [] {
      NoEndIsGuarded(q[..|q| - 1]);
    }
  }

  lemma NothingDown()
    ensures Down([]) == []
  {
  }

  // ---- Delivery ----

  lemma DeliverKeepsEnd(y: System)
    requires Inv(y) && EndInv(y) && Enabled(y, Deliver)
    ensures EndInv(Next(y, Deliver))
  {
    hide Ends, Guarded, BeginsNone, Flowing, ReportsOnTime, G.DeferralInv, Playback.QueueInv, EndPushed;
    var f, rest, p := y.link[0], y.link[1..], y.sink;
    assert p.queue + y.link == p.queue + [f] + rest;
    Delivered(y.tts.pushed, p, f, rest);
  }

  /** What an arriving frame does to the queue. */
  lemma Handled(p: Playback.State, f: Frame)
    ensures var q := Playback.HandleQueueFrame(p, f);
      && q.finished == p.finished && q.down == p.down
      && (|| q.queue == p.queue + [f]
          || (Playback.BeginsTurn(f) && q.queue == [])
          || (f.EndFrame? && q.queue == [f])
          || (!f.EndFrame? && (q.queue == p.queue || q.queue == Playback.KeptFrames(p.queue))))
  {
    hide Playback.KeptFrames;
  }

  /** Neither appending, nor clearing, nor purging the queue costs the only EndFrame. */
  lemma QueueKeepsEnd(q: seq<Frame>, f: Frame, rest: seq<Frame>, r: seq<Frame>)
    requires Guarded(q + [f] + rest) && |Ends(q + [f] + rest)| <= 1
    requires || r == q + [f] || (Playback.BeginsTurn(f) && r == []) || (f.EndFrame? && r == [f])
             || (!f.EndFrame? && (r == q || r == Playback.KeptFrames(q)))
    ensures Guarded(r + rest) && Ends(r + rest) == Ends(q + [f] + rest)
  {
    hide Ends, Guarded, BeginsNone, Playback.KeptFrames;
    Parts(q + [f], rest);
    Parts(q, [f]);
    One(f);
    if r != q + [f] {
      if r == [] {
        Nothing();
        assert [] + rest == rest;
        if Playback.BeginsTurn(f) {
          assert Ends(q) == [] && Ends(q + [f]) == [];
        }
      }
      Parts(r, rest);
      if f.EndFrame? {
        assert |Ends(q)| + 1 + |Ends(rest)| <= 1;
      } else {
        assert Ends(q + [f]) == Ends(q);
        PurgeKeepsEnds(q);
        NoTurnIsGuarded(Playback.KeptFrames(q));
      }
    }
  }

  lemma Delivered(pushed: seq<Envelope>, p: Playback.State, f: Frame, rest: seq<Frame>)
    requires Playback.QueueInv(p) && !p.finished && OnItsWay(pushed, p.queue + [f] + rest, p)
    ensures OnItsWay(pushed, Playback.HandleQueueFrame(p, f).queue + rest, Playback.HandleQueueFrame(p, f))
  {
    hide Ends, Guarded, EndPushed;
    hide Playback.KeptFrames, Playback.HandleQueueFrame, Playback.QueueInv, Playback.BeginsTurn;
    if Ends(p.queue + [f] + rest) == [] {
      NoEndIsGuarded(p.queue + [f] + rest);
    }
    Handled(p, f);
    QueueKeepsEnd(p.queue, f, rest, Playback.HandleQueueFrame(p, f).queue);
  }

  /** In a list of one element that holds `f`, nothing else is. */
  lemma EndsAlone(a: seq<Frame>, f: Frame, b: seq<Frame>)
    ensures |a + [f] + b| <= 1 ==> a == [] && b == [] && a + [f] + b == [f]
  {
    if |a + [f] + b| <= 1 {
      assert |a| + 1 + |b| <= 1;
    }
  }

  // ---- Ticks ----

  lemma HeadPlayed(p: Playback.State)
    requires p.queue != [] && Playback.QueueInv(p) && !p.finished
    ensures var f, t := p.queue[0], Playback.PlayHead(p);
      && Playback.Playable(f) && Playback.QueueInv(t.0) && t.0.queue == p.queue[1..]
      && (t.0.finished <==> f.EndFrame?) && (f.EndFrame? ==> t.1 && Played(t.0, f))
  {
    assert p.queue[0] in p.queue;
  }

  lemma HeadKeepsEnd(pushed: seq<Envelope>, link: seq<Frame>, p: Playback.State)
    requires p.queue != [] && Playback.QueueInv(p) && !p.finished && OnItsWay(pushed, p.queue + link, p)
    ensures var t := Playback.PlayHead(p);
      OnItsWay(pushed, t.0.queue + link, t.0) && Playback.QueueInv(t.0) && (t.0.finished ==> t.1)
  {
    hide Ends, Guarded, BeginsNone, EndPushed, Playback.QueueInv, Playback.PlayHead;
    HeadPlayed(p);
    var f, q := p.queue[0], p.queue[1..] + link;
    assert p.queue + link == [f] + q;
    Parts([f], q);
    One(f);
    EndsAlone([], f, Ends(q));
    assert [] + [f] + Ends(q) == [f] + Ends(q) && [] + Ends(q) == Ends(q);
  }

  lemma {:induction false} TickKeepsEnd(pushed: seq<Envelope>, link: seq<Frame>, p: Playback.State)
    requires Playback.QueueInv(p) && !p.finished && OnItsWay(pushed, p.queue + link, p)
    ensures OnItsWay(pushed, Playback.Tick(p).queue + link, Playback.Tick(p))
    decreases |p.queue|
  {
    hide OnItsWay, Playback.QueueInv;
    if p.queue != [] {
      HeadKeepsEnd(pushed, link, p);
      if !Playback.PlayHead(p).1 {
        TickKeepsEnd(pushed, link, Playback.PlayHead(p).0);
      }
    }
  }

  // ---- Interrupts ----

  /** An interrupt reorders nothing that matters: it only takes away frames that begin a turn. */
  lemma InterruptKeepsEnd(y: System, front: nat, mid: nat, ahead: nat)
    requires Inv(y) && EndInv(y) && Enabled(y, Interrupt(front, mid, ahead))
    ensures EndInv(Next(y, Interrupt(front, mid, ahead)))
  {
    hide Ends, Guarded, BeginsNone, Flowing, ReportsOnTime, G.DeferralInv, Playback.QueueInv, EndPushed;
    var q, m, b := y.sink.queue + y.link[..front], y.link[front..front + mid], y.link[front + mid..];
    var kept := Playback.KeptFrames(m);
    var put := kept[..ahead] + [InterruptFrame] + kept[ahead..];
    assert y.sink.queue + y.link == q + m + b;
    assert y.sink.queue + Next(y, Interrupt(front, mid, ahead)).link == q + put + b;
    PurgeKeepsEnds(m);
    PutIsHarmless(kept, ahead);
    Swapped(q, m, put, b);
  }

  lemma PutIsHarmless(kept: seq<Frame>, ahead: nat)
    requires ahead <= |kept| && BeginsNone(kept)
    ensures var put := kept[..ahead] + [InterruptFrame] + kept[ahead..]; Ends(put) == Ends(kept) && BeginsNone(put)
  {
    hide Ends, Guarded, BeginsNone;
    assert kept == kept[..ahead] + kept[ahead..];
    Parts(kept[..ahead], kept[ahead..]);
    Parts(kept[..ahead] + [InterruptFrame], kept[ahead..]);
    Parts(kept[..ahead], [InterruptFrame]);
    One(InterruptFrame);
    assert Ends(kept[..ahead]) + [] == Ends(kept[..ahead]);
  }

  lemma Swapped(q: seq<Frame>, m: seq<Frame>, n: seq<Frame>, b: seq<Frame>)
    requires Ends(n) == Ends(m) && BeginsNone(n)
    ensures Ends(q + n + b) == Ends(q + m + b)
    ensures Guarded(q + m + b) ==> Guarded(q + n + b)
  {
    hide Ends, Guarded, BeginsNone;
    Parts(q + m, b);
    Parts(q, m);
    Parts(q + n, b);
    Parts(q, n);
    NoTurnIsGuarded(n);
  }

  // ---- Whole runs ----

  lemma MoveKeepsEnd(y: System, m: Move)
    requires Inv(y) && EndInv(y) && Enabled(y, m)
    ensures EndInv(Next(y, m))
  {
    hide OnItsWay, Flowing, ReportsOnTime, G.DeferralInv, Playback.QueueInv;
    match m
    case Synthesis(step) => SynthesisKeepsEnd(y, step);
    case Deliver => DeliverKeepsEnd(y);
    case Tick => TickKeepsEnd(y.tts.pushed, y.link, y.sink);
    case Interrupt(front, mid, ahead) => InterruptKeepsEnd(y, front, mid, ahead);
  }

  lemma {:induction false} RunKeepsEnd(y: System, run: seq<Move>)
    requires Inv(y) && EndInv(y) && ValidRun(y, run)
    ensures Inv(Final(y, run)) && EndInv(Final(y, run))
    decreases |run|
  {
    hide Inv, EndInv, Next, Enabled;
    if run != [] {
      InvWf(y);
      MoveKeepsInv(y, run[0]);
      InvWf(Next(y, run[0]));
      MoveKeepsEnd(y, run[0]);
      RunKeepsEnd(Next(y, run[0]), run[1..]);
    }
  }

  lemma InvWf(y: System)
    requires Inv(y)
    ensures y.tts.Wf()
  {
  }

  lemma StartsWithoutEnd(rate: int)
    ensures EndInv(Initial(rate))
  {
  }

  /**
   * Once an EndFrame has been pushed downstream, in every run and under any interrupts it is on the
   * link, in the sink's queue, or has been played; and as long as it has not been played no turn
   * begins behind it.
   */
  lemma EndFrameIsNeverLost(rate: int, run: seq<Move>, e: Frame)
    requires Tts.Initial(rate).Wf() && ValidRun(Initial(rate), run)
    requires e.EndFrame? && Envelope(e, Downstream) in Final(Initial(rate), run).tts.pushed
    ensures var y := Final(Initial(rate), run);
      || Played(y.sink, e)
      || ((e in y.link || e in y.sink.queue) && Guarded(y.sink.queue + y.link))
  {
    hide Guarded, Final, ValidRun, Flowing, Ends;
    InitialInv(rate);
    StartsWithoutEnd(rate);
    RunKeepsEnd(Initial(rate), run);
    var y := Final(Initial(rate), run);
    var p := y.tts.pushed;
    var i :| 0 <= i < |p| && p[i] == Envelope(e, Downstream);
    assert p[i].frame.EndFrame? && i == |p| - 1;
    if !Played(y.sink, e) {
      assert Ends(y.sink.queue + y.link)[0] == e;
      EndsMember(y.sink.queue + y.link, 0);
    }
  }

  lemma {:induction false} EndsMember(q: seq<Frame>, i: nat)
    requires i < |Ends(q)|
    ensures Ends(q)[i] in q
  {
    var init := q[..|q| - 1];
    if i < |Ends(init)| {
      EndsMember(init, i);
    }
  }
}
