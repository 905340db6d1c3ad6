/**
 * Synthesis and playback joined by the channels between them. Whatever is said, interrupted and
 * restarted, words are reported in the order in which they arrived, and never before the audio
 * they belong to has been played.
 */
module Speech {
  import opened Frames
  import opened Sequences
  import Tts
  import G = TtsGuarantees
  import Playback

  datatype System = System(
    tts: Tts.State,
    link: seq<Frame>,                    // between the two stages: input, process and playback channels
    sink: Playback.State,
    arrived: seq<Tts.PendingWord>)       // history: words received for the context open at the time

  datatype Move =
    | Synthesis(step: Tts.Step)
    | Deliver
    | Tick
    /**
     * An interrupt overtakes the frames waiting in the input channel (those after `front + mid`),
     * purges the `mid` frames of the process channel and lines up behind the `front` ones of the
     * playback channel; `ahead` of the surviving frames get in before it.
     */
    | Interrupt(front: nat, mid: nat, ahead: nat)

  predicate Enabled(y: System, m: Move) {
    match m
    case Synthesis(step) => Tts.Enabled(y.tts, step)
    case Deliver => !y.sink.finished && y.link != []
    case Tick => !y.sink.finished
    case Interrupt(front, mid, ahead) =>
      front + mid <= |y.link| && ahead <= |Playback.KeptFrames(y.link[front..front + mid])|
  }

  function Down(envs: seq<Envelope>): seq<Frame> {
    if envs == [] then []
    else Down(envs[..|envs| - 1]) +
         (if envs[|envs| - 1].dir.Downstream? then [envs[|envs| - 1].frame] else [])
  }

  /** The words a synthesis step takes in. */
  function Arriving(s: Tts.State, step: Tts.Step): seq<Tts.PendingWord> {
    if step.Consume? && s.events != [] && s.events[0].WordTimestamps? && s.ctx != "" && s.ctx == s.events[0].ctx
    then s.events[0].words else []
  }

  function Next(y: System, m: Move): System
    requires y.tts.Wf() && Enabled(y, m)
  {
    match m
    case Synthesis(step) =>
      var t := Tts.Next(y.tts, step);
      var k := |y.tts.pushed|;
      y.(tts := t,
         link := y.link + Down(if k <= |t.pushed| then t.pushed[k..] else []),
         arrived := y.arrived + Arriving(y.tts, step))
    case Deliver => y.(link := y.link[1..], sink := Playback.HandleQueueFrame(y.sink, y.link[0]))
    case Tick => y.(sink := Playback.Tick(y.sink))
    case Interrupt(front, mid, ahead) =>
      var kept := Playback.KeptFrames(y.link[front..front + mid]);
      y.(link := y.link[..front] + kept[..ahead] + [InterruptFrame] + kept[ahead..] + y.link[front + mid..])
  }

  function Initial(rate: int): System {
    System(Tts.Initial(rate), [], Playback.INITIAL, [])
  }

  predicate ValidRun(y: System, run: seq<Move>)
    requires y.tts.Wf()
    decreases |run|
  {
    run == [] || (Enabled(y, run[0]) && (MoveKeepsWf(y, run[0]); ValidRun(Next(y, run[0]), run[1..])))
  }

  function Final(y: System, run: seq<Move>): System
    requires y.tts.Wf() && ValidRun(y, run)
    decreases |run|
  {
    if run == [] then y else MoveKeepsWf(y, run[0]); Final(Next(y, run[0]), run[1..])
  }

  lemma MoveKeepsWf(y: System, m: Move)
    requires y.tts.Wf() && Enabled(y, m)
    ensures Next(y, m).tts.Wf()
  {
    hide Tts.Next, Tts.Enabled;
    if m.Synthesis? {
      G.StepKeepsRate(y.tts, m.step);
    }
  }

  // ---- A clock over the frames on their way to the ear ----

  /** `n` audio frames so far in a turn; a turn cut off by an interrupt is not live. */
  datatype Clock = Clock(live: bool, n: nat)

  function After(f: Frame, c: Clock): Clock {
    match f
    case AudioFrame(_) => c.(n := c.n + 1)
    case LLMResponseStartFrame => Clock(true, 0)
    case TTSSpeakFrame(_) => Clock(true, 0)
    case InterruptFrame => c.(live := false)
    case EndFrame(reason) => if Playback.StopsImmediately(reason) then c.(live := false) else c
    case _ => c
  }

  function ClockAfter(q: seq<Frame>, c: Clock): Clock {
    if q == [] then c else After(q[|q| - 1], ClockAfter(q[..|q| - 1], c))
  }

  /** A word is on time if its start has been reached by the audio of its turn, or if the flush released it. */
  predicate OnTime(f: Frame, c: Clock) {
    f.WordTimestampFrame? && !f.word.flushed && c.live ==> f.word.start <= c.n as real
  }

  predicate AllOnTime(q: seq<Frame>, c: Clock) {
    q == [] || (AllOnTime(q[..|q| - 1], c) && OnTime(q[|q| - 1], ClockAfter(q[..|q| - 1], c)))
  }

  lemma Snoc(q: seq<Frame>, f: Frame, c: Clock)
    ensures ClockAfter(q + [f], c) == After(f, ClockAfter(q, c))
    ensures AllOnTime(q + [f], c) <==> AllOnTime(q, c) && OnTime(f, ClockAfter(q, c))
    ensures Words(q + [f]) == Words(q) + WordOf(f)
  {
    assert (q + [f])[..|q|] == q;
  }

  lemma {:induction false} WordsConcat(a: seq<Frame>, b: seq<Frame>)
    ensures Words(a + b) == Words(a) + Words(b)
    decreases |b|
  {
    hide WordOf;
    if b == [] {
      assert a + b == a;
    } else {
      var b', f := b[..|b| - 1], b[|b| - 1];
      assert (a + b)[..|a + b| - 1] == a + b';
      WordsConcat(a, b');
    }
  }

  lemma {:induction false} ClockConcat(a: seq<Frame>, b: seq<Frame>, c: Clock)
    ensures ClockAfter(a + b, c) == ClockAfter(b, ClockAfter(a, c))
    ensures AllOnTime(a + b, c) <==> AllOnTime(a, c) && AllOnTime(b, ClockAfter(a, c))
    decreases |b|
  {
    hide OnTime, After;
    if b == [] {
      assert a + b == a;
    } else {
      var b', f := b[..|b| - 1], b[|b| - 1];
      assert (a + b)[..|a + b| - 1] == a + b';
      ClockConcat(a, b', c);
    }
  }

  lemma Concat(a: seq<Frame>, b: seq<Frame>, c: Clock)
    ensures ClockAfter(a + b, c) == ClockAfter(b, ClockAfter(a, c))
    ensures AllOnTime(a + b, c) <==> AllOnTime(a, c) && AllOnTime(b, ClockAfter(a, c))
    ensures Words(a + b) == Words(a) + Words(b)
  {
    hide AllOnTime, ClockAfter, Words;
    ClockConcat(a, b, c);
    WordsConcat(a, b);
  }

  /** `c` promises no more than `d` does. */
  predicate Weaker(c: Clock, d: Clock) {
    c.live ==> c == d
  }

  lemma {:induction false} WeakerKeeps(q: seq<Frame>, c: Clock, d: Clock)
    requires Weaker(c, d) && AllOnTime(q, d)
    ensures AllOnTime(q, c) && Weaker(ClockAfter(q, c), ClockAfter(q, d))
    decreases |q|
  {
    if q != [] {
      WeakerKeeps(q[..|q| - 1], c, d);
    }
  }

  /** Exchanging a front part for one whose clock promises no more keeps everything behind it on time. */
  lemma Rejoin(p: seq<Frame>, c: Clock, q: seq<Frame>, d: Clock, rest: seq<Frame>)
    requires AllOnTime(p + rest, c) && AllOnTime(q, d) && Weaker(ClockAfter(q, d), ClockAfter(p, c))
    ensures AllOnTime(q + rest, d) && Weaker(ClockAfter(q + rest, d), ClockAfter(p + rest, c))
  {
    hide AllOnTime, ClockAfter;
    Concat(p, rest, c);
    Concat(q, rest, d);
    WeakerKeeps(rest, ClockAfter(q, d), ClockAfter(p, c));
  }

  /** Frames that survive a purge hold no words and start no turn. */
  lemma {:induction false} KeptStayDead(q: seq<Frame>, c: Clock)
    requires Playback.OnlyKept(q)
    ensures AllOnTime(q, c) && Weaker(ClockAfter(q, c), c)
    ensures Words(q) == []
    decreases |q|
  {
    if q != [] {
      assert Playback.OnlyKept(q[..|q| - 1]);
      KeptStayDead(q[..|q| - 1], c);
    }
  }

  // ---- Words ----

  function WordOf(f: Frame): seq<Tts.PendingWord> {
    if f.WordTimestampFrame? then [Tts.PendingWord(f.word.text, f.word.start)] else []
  }

  function Words(q: seq<Frame>): seq<Tts.PendingWord> {
    if q == [] then [] else Words(q[..|q| - 1]) + WordOf(q[|q| - 1])
  }

  /** The words reported upstream. */
  function Reported(up: seq<Playback.Report>): seq<Tts.PendingWord> {
    if up == [] then [] else Reported(up[..|up| - 1]) + WordOf(up[|up| - 1].frame)
  }

  // ---- The synthesis side ----

  /**
   * The far end as the synthesis stage sees it: `q0` is already on its way when the first `k`
   * frames have been pushed, `c0` and `w0` are the sink's clock and what it has reported.
   */
  datatype View = View(q0: seq<Frame>, k: nat, c0: Clock, w0: seq<Tts.PendingWord>)

  function OnTheWay(v: View, s: Tts.State): seq<Frame>
    requires v.k <= |s.pushed|
  {
    v.q0 + Down(s.pushed[v.k..])
  }

  ghost predicate Good(v: View, s: Tts.State, arrived: seq<Tts.PendingWord>) {
    && v.k <= |s.pushed|
    && InTime(OnTheWay(v, s), v.c0, s.framesPushed)
    && Subseq(v.w0 + Words(OnTheWay(v, s)) + s.pending, arrived)
  }

  /** Everything on the way is on time, and audio time has not been counted ahead of the audio sent. */
  ghost predicate InTime(q: seq<Frame>, c: Clock, frames: nat) {
    AllOnTime(q, c) && (ClockAfter(q, c).live ==> frames <= ClockAfter(q, c).n)
  }

  lemma PushOnTheWay(v: View, s: Tts.State, env: Envelope)
    requires v.k <= |s.pushed|
    ensures OnTheWay(v, s.(pushed := s.pushed + [env])) ==
            if env.dir.Downstream? then OnTheWay(v, s) + [env.frame] else OnTheWay(v, s)
  {
    var p := s.pushed[v.k..];
    assert (s.pushed + [env])[v.k..] == p + [env];
    assert (p + [env])[..|p|] == p;
    assert v.q0 + (Down(p) + [env.frame]) == (v.q0 + Down(p)) + [env.frame];
  }

  /** Releasing the head of the pending words in a frame that is on time. */
  lemma ReleaseWord(v: View, s: Tts.State, flushed: bool, arrived: seq<Tts.PendingWord>)
    requires Good(v, s, arrived) && s.pending != []
    requires flushed || s.pending[0].start <= s.framesPushed as real
    ensures Good(v, Tts.Push(s.(pending := s.pending[1..]), Tts.WordFrame(s.pending[0], flushed), Downstream), arrived)
  {
    hide Subseq, AllOnTime, ClockAfter;
    var f := Tts.WordFrame(s.pending[0], flushed);
    var q := OnTheWay(v, s);
    PushOnTheWay(v, s, Envelope(f, Downstream));
    Snoc(q, f, v.c0);
    assert s.pending == [s.pending[0]] + s.pending[1..];
    assert v.w0 + (Words(q) + [s.pending[0]]) + s.pending[1..] == v.w0 + Words(q) + s.pending;
  }

  /** Pushing an audio frame along with counting it. */
  lemma SendAudio(v: View, s: Tts.State, data: seq<byte>, rest: seq<byte>, arrived: seq<Tts.PendingWord>)
    requires Good(v, s, arrived)
    ensures var t := s.(pcm := rest, framesPushed := s.framesPushed + 1);
      Good(v, Tts.Push(t, AudioFrame(data), Downstream), arrived)
  {
    hide Subseq, AllOnTime, ClockAfter;
    PushOnTheWay(v, s, Envelope(AudioFrame(data), Downstream));
    Snoc(OnTheWay(v, s), AudioFrame(data), v.c0);
    assert Words(OnTheWay(v, s)) + [] == Words(OnTheWay(v, s));
  }

  /** Pushing a frame that is neither a word nor the start of a turn. */
  lemma SendOther(v: View, s: Tts.State, env: Envelope, arrived: seq<Tts.PendingWord>)
    requires Good(v, s, arrived)
    requires !env.frame.WordTimestampFrame?
    requires Playback.BeginsTurn(env.frame) && env.dir.Downstream? ==> s.framesPushed == 0
    ensures Good(v, s.(pushed := s.pushed + [env]), arrived)
  {
    hide Subseq, AllOnTime, ClockAfter;
    PushOnTheWay(v, s, env);
    Snoc(OnTheWay(v, s), env.frame, v.c0);
    assert Words(OnTheWay(v, s)) + [] == Words(OnTheWay(v, s));
  }

  lemma {:induction false} EmitIsGood(v: View, s: Tts.State, arrived: seq<Tts.PendingWord>)
    requires Good(v, s, arrived)
    ensures Good(v, Tts.EmitPendingWords(s), arrived)
    decreases |s.pending|
  {
    hide Good;
    if s.pending != [] && s.pending[0].start <= s.framesPushed as real {
      ReleaseWord(v, s, false, arrived);
      EmitIsGood(v, Tts.Push(s.(pending := s.pending[1..]), Tts.WordFrame(s.pending[0], false), Downstream), arrived);
    }
  }

  lemma {:induction false} CutFramesIsGood(v: View, s: Tts.State, arrived: seq<Tts.PendingWord>)
    requires s.Wf() && Good(v, s, arrived)
    ensures Good(v, Tts.CutFrames(s), arrived)
    decreases |s.pcm|
  {
    hide Good, Tts.EmitPendingWords;
    var n := Tts.FrameBytes(s.rate);
    if |s.pcm| >= n {
      SendAudio(v, s, s.pcm[..n], s.pcm[n..], arrived);
      var t := s.(pcm := s.pcm[n..], framesPushed := s.framesPushed + 1);
      EmitIsGood(v, Tts.Push(t, AudioFrame(s.pcm[..n]), Downstream), arrived);
      CutFramesIsGood(v, Tts.CutFrame(s), arrived);
    }
  }

  lemma {:induction false} FlushIsGood(v: View, s: Tts.State, arrived: seq<Tts.PendingWord>)
    requires Good(v, s, arrived)
    ensures Good(v, Tts.FlushWords(s), arrived)
    decreases |s.pending|
  {
    hide Good;
    if s.pending != [] {
      ReleaseWord(v, s, true, arrived);
      FlushIsGood(v, Tts.Push(s.(pending := s.pending[1..]), Tts.WordFrame(s.pending[0], true), Downstream), arrived);
    }
  }

  /** Changes to fields the guarantee does not depend on. */
  lemma SameIsGood(v: View, s: Tts.State, t: Tts.State, arrived: seq<Tts.PendingWord>)
    requires Good(v, s, arrived)
    requires t.pushed == s.pushed && t.pending == s.pending && t.framesPushed == s.framesPushed
    ensures Good(v, t, arrived)
  {
  }

  /** Forgetting the words still pending and the audio time counted. */
  lemma ClearedIsGood(v: View, s: Tts.State, t: Tts.State, arrived: seq<Tts.PendingWord>)
    requires Good(v, s, arrived)
    requires t.pushed == s.pushed && t.pending == [] && t.framesPushed == 0
    ensures Good(v, t, arrived)
  {
    hide Subseq, AllOnTime, ClockAfter, Words;
    var w := v.w0 + Words(OnTheWay(v, s));
    SubseqPrefix(w, s.pending, arrived);
    assert w + [] == w;
  }

  lemma MoreArrives(v: View, s: Tts.State, words: seq<Tts.PendingWord>, arrived: seq<Tts.PendingWord>)
    requires Good(v, s, arrived)
    ensures Good(v, s.(pending := s.pending + words), arrived + words)
  {
    hide Subseq, AllOnTime, ClockAfter, Words;
    var w := v.w0 + Words(OnTheWay(v, s));
    SubseqAppend(w + s.pending, arrived, words);
    assert w + (s.pending + words) == (w + s.pending) + words;
  }

  lemma EventIsGood(v: View, s: Tts.State, e: Tts.Event, arrived: seq<Tts.PendingWord>)
    requires s.Wf() && G.DeferralInv(s) && Good(v, s, arrived)
    ensures Good(v, Tts.HandleEvent(s, e), arrived + (if e.WordTimestamps? && s.ctx != ""
        && s.ctx == e.ctx then e.words else []))
  {
    hide Good, Tts.CutFrames, Tts.EmitPendingWords, Tts.FlushWords;
    assert arrived + [] == arrived;
    if s.ctx != "" && s.ctx == e.ctx {
      match e {
        case AudioChunk(_, data) =>
          SameIsGood(v, s, s.(pcm := s.pcm + data), arrived);
          CutFramesIsGood(v, s.(pcm := s.pcm + data), arrived);
        case WordTimestamps(_, words) =>
          MoreArrives(v, s, words, arrived);
          EmitIsGood(v, s.(pending := s.pending + words), arrived + words);
        case Done(_) => DoneIsGood(v, s, arrived);
      }
    }
  }

  lemma DoneIsGood(v: View, s: Tts.State, arrived: seq<Tts.PendingWord>)
    requires s.Wf() && G.DeferralInv(s) && Good(v, s, arrived) && s.ctx != ""
    ensures Good(v, Tts.HandleEvent(s, Tts.Done(s.ctx)), arrived)
  {
    hide Good, Tts.FlushWords;
    var u := Tts.PadLast(s);
    if s.pcm != [] {
      var n := Tts.FrameBytes(s.rate);
      var padded := if |s.pcm| < n then s.pcm + Tts.Zeros(n - |s.pcm|) else s.pcm;
      SendAudio(v, s, padded[..n], padded[n..], arrived);
    }
    FlushIsGood(v, u, arrived);
    Tts.FlushKeeps(u);
    var w := Tts.FlushWords(u);
    SendOther(v, w, Envelope(TTSDoneFrame, Downstream), arrived);
    var x := Tts.Push(w, TTSDoneFrame, Downstream).(textSent := false);
    SameIsGood(v, Tts.Push(w, TTSDoneFrame, Downstream), x, arrived);
    if x.pendingEnd.Some? {
      var d := x.pendingEnd.value;
      SendOther(v, x, d.env, arrived);
      SameIsGood(v, x.(pushed := x.pushed + [d.env]), Tts.Forward(x, d), arrived);
    }
  }

  lemma CommandIsGood(v: View, s: Tts.State, cmd: Tts.Command, w: Tts.World, arrived: seq<Tts.PendingWord>)
    requires Good(v, s, arrived) && Tts.Commanded(cmd.env.frame)
    ensures Good(v, Tts.HandleCommand(s, cmd, w), arrived)
  {
    hide Good;
    var f := cmd.env.frame;
    assert cmd.env == Envelope(f, cmd.env.dir);
    if f.EndFrame? {
      EndIsGood(v, s, cmd, w, arrived);
    } else if s.pendingEnd.None? {
      match f {
        case InterruptFrame => ClearedIsGood(v, s, Tts.HandleCommand(s, cmd, w), arrived);
        case LLMResponseStartFrame =>
          ClearedIsGood(v, s, Tts.OpenContext(s, w), arrived);
          SendOther(v, Tts.OpenContext(s, w), cmd.env, arrived);
        case TextFrame(text) => SameIsGood(v, s, Tts.AddText(s, text, w), arrived);
        case LLMResponseEndFrame => EndOfResponseIsGood(v, s, cmd.env, w, arrived);
        case TTSSpeakFrame(text) =>
          ClearedIsGood(v, s, Tts.SpeakNow(s, text, w), arrived);
          SendOther(v, Tts.SpeakNow(s, text, w), cmd.env, arrived);
        case _ => SendOther(v, s, cmd.env, arrived);
      }
    }
  }

  lemma EndOfResponseIsGood(v: View, s: Tts.State, env: Envelope, w: Tts.World, arrived: seq<Tts.PendingWord>)
    requires Good(v, s, arrived) && env.frame.LLMResponseEndFrame?
    ensures Good(v, Tts.EndResponse(s, env, w), arrived)
  {
    hide Good;
    var t := Tts.EndResponse(s, env, w);
    assert t.pending == s.pending && t.framesPushed == s.framesPushed;
    if t.pushed == s.pushed + [env] {
      SendOther(v, s, env, arrived);
      SameIsGood(v, s.(pushed := s.pushed + [env]), t, arrived);
    } else {
      var done := Envelope(TTSDoneFrame, Downstream);
      SendOther(v, s, done, arrived);
      var u := s.(pushed := s.pushed + [done]);
      SendOther(v, u, env, arrived);
      SameIsGood(v, u.(pushed := u.pushed + [env]), t, arrived);
    }
  }

  lemma EndIsGood(v: View, s: Tts.State, cmd: Tts.Command, w: Tts.World, arrived: seq<Tts.PendingWord>)
    requires Good(v, s, arrived) && cmd.env.frame.EndFrame?
    ensures Good(v, Tts.HandleEnd(s, cmd, w), arrived)
  {
    hide Good;
    var t := Tts.HandleEnd(s, cmd, w);
    if t.pushed == s.pushed {
      SameIsGood(v, s, t, arrived);
    } else {
      SendOther(v, s, cmd.env, arrived);
      SameIsGood(v, s.(pushed := s.pushed + [cmd.env]), t, arrived);
    }
  }

  // ---- The whole system ----

  function SinkClock(p: Playback.State): Clock {
    Clock(!p.interrupted && !p.finished, p.dequeued)
  }

  ghost predicate ReportsOnTime(up: seq<Playback.Report>) {
    forall i :: 0 <= i < |up| && up[i].frame.WordTimestampFrame? && !up[i].frame.word.flushed ==>
      up[i].frame.word.start <= up[i].dequeued as real
  }

  ghost predicate Flowing(queue: seq<Frame>, link: seq<Frame>, sink: Playback.State, tts: Tts.State,
                          arrived: seq<Tts.PendingWord>) {
    && InTime(queue + link, SinkClock(sink), tts.framesPushed)
    && Subseq(Reported(sink.up) + Words(queue + link) + tts.pending, arrived)
  }

  ghost predicate Inv(y: System) {
    && y.tts.Wf()
    && G.DeferralInv(y.tts)
    && Playback.QueueInv(y.sink)
    && ReportsOnTime(y.sink.up)
    && Flowing(y.sink.queue, y.link, y.sink, y.tts, y.arrived)
  }

  /** The system as the synthesis stage sees it when it takes its next step. */
  function ViewOf(y: System): View {
    View(y.sink.queue + y.link, |y.tts.pushed|, SinkClock(y.sink), Reported(y.sink.up))
  }

  lemma ViewIsGood(y: System)
    requires Flowing(y.sink.queue, y.link, y.sink, y.tts, y.arrived)
    ensures Good(ViewOf(y), y.tts, y.arrived)
  {
    hide Subseq, InTime, Words, Reported, SinkClock;
    assert y.tts.pushed[|y.tts.pushed|..] == [];
    assert OnTheWay(ViewOf(y), y.tts) == y.sink.queue + y.link;
  }

  lemma GoodFlows(y: System, t: Tts.State, arrived: seq<Tts.PendingWord>)
    requires Good(ViewOf(y), t, arrived)
    ensures |y.tts.pushed| <= |t.pushed|
    ensures Flowing(y.sink.queue, y.link + Down(t.pushed[|y.tts.pushed|..]), y.sink, t, arrived)
  {
    hide Subseq, InTime, Words, Reported, SinkClock, Down;
    var more := Down(t.pushed[|y.tts.pushed|..]);
    assert OnTheWay(ViewOf(y), t) == y.sink.queue + (y.link + more);
  }

  lemma SynthesisKeepsInv(y: System, step: Tts.Step)
    requires Inv(y) && Enabled(y, Synthesis(step))
    ensures Inv(Next(y, Synthesis(step)))
  {
    hide Good, Flowing, Tts.Next, Tts.Enabled, G.DeferralInv, Playback.QueueInv, ReportsOnTime, Arriving;
    ViewIsGood(y);
    G.StepKeepsRate(y.tts, step);
    G.StepKeepsDeferral(y.tts, step);
    StepIsGood(ViewOf(y), y.tts, step, y.arrived);
    GoodFlows(y, Tts.Next(y.tts, step), y.arrived + Arriving(y.tts, step));
  }

  lemma StepIsGood(v: View, s: Tts.State, step: Tts.Step, arrived: seq<Tts.PendingWord>)
    requires s.Wf() && G.DeferralInv(s) && Good(v, s, arrived) && Tts.Enabled(s, step)
    ensures Good(v, Tts.Next(s, step), arrived + Arriving(s, step))
  {
    hide Good, Tts.HandleEvent, Tts.HandleCommand;
    assert arrived + [] == arrived;
    match step {
      case Receive(e) => SameIsGood(v, s, s.(events := s.events + [e]), arrived);
      case Consume =>
        var u := s.(events := s.events[1..]);
        SameIsGood(v, s, u, arrived);
        EventIsGood(v, u, s.events[0], arrived);
      case Execute(cmd, w) => CommandIsGood(v, s, cmd, w, arrived);
    }
  }

  /** A frame leaves the link for the sink's queue, is dropped there, or starts a turn over. */
  lemma DeliverKeepsInv(y: System)
    requires Inv(y) && Enabled(y, Deliver)
    ensures Inv(Next(y, Deliver))
  {
    hide Subseq, AllOnTime, ClockAfter, Words, G.DeferralInv, Tts.State.Wf;
    var p, f, rest := y.sink, y.link[0], y.link[1..];
    var q := Playback.HandleQueueFrame(p, f);
    Playback.StepKeepsInv(p, Playback.Enqueue(f));
    assert y.link == [f] + rest;
    assert p.queue + y.link == (p.queue + [f]) + rest;
    DeliveredOnTime(p, f, rest);
    Rejoin(p.queue + [f], SinkClock(p), q.queue, SinkClock(q), rest);
    DeliveredWords(p, f, rest, y.tts.pending, y.arrived);
  }

  lemma DeliveredOnTime(p: Playback.State, f: Frame, rest: seq<Frame>)
    requires Playback.QueueInv(p) && !p.finished && AllOnTime((p.queue + [f]) + rest, SinkClock(p))
    ensures var q := Playback.HandleQueueFrame(p, f);
      AllOnTime(q.queue, SinkClock(q)) && Weaker(ClockAfter(q.queue, SinkClock(q)),
          ClockAfter(p.queue + [f], SinkClock(p)))
  {
    hide AllOnTime, ClockAfter;
    var q := Playback.HandleQueueFrame(p, f);
    Concat(p.queue + [f], rest, SinkClock(p));
    Snoc(p.queue, f, SinkClock(p));
    if Playback.BeginsTurn(f) {
      EmptyOnTime(SinkClock(q));
    } else if q.interrupted {
      Playback.StepKeepsInv(p, Playback.Enqueue(f));
      KeptStayDead(q.queue, SinkClock(q));
    }
  }

  lemma EmptyOnTime(c: Clock)
    ensures AllOnTime([], c) && ClockAfter([], c) == c
  {
  }

  /** Delivery reports nothing, and may only lose words. */
  lemma DeliveredWords(p: Playback.State, f: Frame, rest: seq<Frame>, pending: seq<Tts.PendingWord>,
      arrived: seq<Tts.PendingWord>)
    requires Subseq(Reported(p.up) + Words((p.queue + [f]) + rest) + pending, arrived)
    ensures var q := Playback.HandleQueueFrame(p, f);
      q.up == p.up && Subseq(Reported(q.up) + Words(q.queue + rest) + pending, arrived)
  {
    hide Subseq, Words, Reported;
    var q, c := Playback.HandleQueueFrame(p, f), Clock(false, 0);
    var r := Reported(p.up);
    Concat(p.queue + [f], rest, c);
    Concat(q.queue, rest, c);
    Snoc(p.queue, f, c);
    var before := Words(p.queue + [f]);
    Reassociate(r, before, Words(rest), pending);
    Reassociate(r, Words(q.queue), Words(rest), pending);
    if Words(q.queue) != before {
      LostWords(p, f);
      DropTail(r, Words(q.queue), before, Words(rest) + pending, arrived);
    }
  }

  lemma Reassociate<T>(r: seq<T>, a: seq<T>, b: seq<T>, z: seq<T>)
    ensures r + (a + b) + z == r + a + (b + z)
  {
  }

  lemma DropTail<T>(r: seq<T>, a: seq<T>, b: seq<T>, z: seq<T>, c: seq<T>)
    requires Subseq(r + b + z, c) && (a == [] || (|a| <= |b| && a == b[..|a|]))
    ensures Subseq(r + a + z, c)
  {
    hide Subseq;
    assert b == a + b[|a|..];
    assert r + b + z == (r + a) + b[|a|..] + z;
    SubseqDrop(r + a, b[|a|..], z, c);
  }

  lemma EmptyHasNoWords()
    ensures Words([]) == []
  {
  }

  /** When delivery changes the words in the queue, it leaves none, or drops the frame delivered. */
  lemma LostWords(p: Playback.State, f: Frame)
    ensures var a, b := Words(Playback.HandleQueueFrame(p, f).queue), Words(p.queue + [f]);
      a == [] || (|a| <= |b| && a == b[..|a|])
  {
    hide Words, AllOnTime, ClockAfter;
    EmptyHasNoWords();
    Snoc(p.queue, f, Clock(false, 0));
    assert Words(p.queue) == (Words(p.queue) + WordOf(f))[..|Words(p.queue)|];
    if f.EndFrame? {
      Snoc([], f, Clock(false, 0));
      assert [] + [f] == [f];
    }
    if f.InterruptFrame? {
      Playback.KeptFramesAreKept(p.queue);
      KeptStayDead(Playback.KeptFrames(p.queue), Clock(false, 0));
    }
  }

  /** Playing the head of the queue moves it across, and a word that is reported is on time. */
  lemma HeadKeepsInv(y: System)
    requires Inv(y) && !y.sink.finished && y.sink.queue != []
    ensures Inv(y.(sink := Playback.PlayHead(y.sink).0))
  {
    hide Subseq, AllOnTime, ClockAfter, Words, Reported, G.DeferralInv, Tts.State.Wf;
    var p, f := y.sink, y.sink.queue[0];
    var t := Playback.PlayHead(p).0;
    var rest := p.queue[1..] + y.link;
    assert p.queue + y.link == [f] + rest;
    assert f in p.queue && Playback.Playable(f);
    HeadOnTime(f, rest, SinkClock(p));
    HeadReports(p);
    Concat([f], rest, SinkClock(p));
    assert Weaker(SinkClock(t), After(f, SinkClock(p)));
    WeakerKeeps(rest, SinkClock(t), After(f, SinkClock(p)));
    assert Reported(p.up) + (WordOf(f) + Words(rest)) + y.tts.pending == Reported(t.up) + Words(rest) + y.tts.pending;
  }

  lemma HeadOnTime(f: Frame, rest: seq<Frame>, c: Clock)
    requires AllOnTime([f] + rest, c)
    ensures OnTime(f, c) && AllOnTime(rest, After(f, c))
    ensures ClockAfter([f] + rest, c) == ClockAfter(rest, After(f, c))
    ensures ClockAfter([f], c) == After(f, c) && Words([f]) == WordOf(f)
  {
    Concat([f], rest, c);
    assert [] + [f] == [f];
    Snoc([], f, c);
  }

  lemma ReportSnoc(up: seq<Playback.Report>, r: Playback.Report)
    ensures Reported(up + [r]) == Reported(up) + WordOf(r.frame)
  {
    assert (up + [r])[..|up|] == up;
  }

  lemma HeadReports(p: Playback.State)
    requires p.queue != [] && !p.finished && Playback.QueueInv(p)
    ensures Playback.QueueInv(Playback.PlayHead(p).0)
    ensures Reported(Playback.PlayHead(p).0.up) == Reported(p.up) + WordOf(p.queue[0])
    ensures ReportsOnTime(p.up) && OnTime(p.queue[0], SinkClock(p)) ==> ReportsOnTime(Playback.PlayHead(p).0.up)
  {
    hide Reported;
    var f := p.queue[0];
    ReportSnoc(p.up, Playback.Report(f, p.dequeued));
    ReportSnoc(p.up, Playback.Report(BotStartedSpeakingFrame, p.dequeued));
    ReportSnoc(p.up + [Playback.Report(f, p.dequeued)], Playback.Report(BotStoppedSpeakingFrame, p.dequeued));
    assert f in p.queue;
    assert Reported(p.up) + [] == Reported(p.up);
  }

  lemma {:induction false} TickKeepsInv(y: System)
    requires Inv(y) && !y.sink.finished
    ensures Inv(y.(sink := Playback.Tick(y.sink)))
    decreases |y.sink.queue|
  {
    hide Inv;
    if y.sink.queue != [] {
      HeadKeepsInv(y);
      var t := Playback.PlayHead(y.sink).0;
      if !Playback.PlayHead(y.sink).1 {
        TickKeepsInv(y.(sink := t));
      }
    }
  }

  /** An interrupt on the link silences what is behind it until the next turn, and may only lose words. */
  lemma InterruptKeepsInv(y: System, front: nat, mid: nat, ahead: nat)
    requires Inv(y) && Enabled(y, Interrupt(front, mid, ahead))
    ensures Inv(Next(y, Interrupt(front, mid, ahead)))
  {
    hide Subseq, AllOnTime, ClockAfter, Words, Reported, G.DeferralInv, Playback.QueueInv, Tts.State.Wf;
    var c, q := SinkClock(y.sink), y.sink.queue;
    var a, m, back := y.link[..front], y.link[front..front + mid], y.link[front + mid..];
    var kept := Playback.KeptFrames(m);
    var put := kept[..ahead] + [InterruptFrame] + kept[ahead..];
    Playback.KeptFramesAreKept(m);
    assert y.link == a + m + back;
    var link' := Next(y, Interrupt(front, mid, ahead)).link;
    assert link' == a + put + back;
    Regroup(q, a, m, back);
    Regroup(q, a, put, back);
    Concat(q + a, m + back, c);
    Concat(q + a, put + back, c);
    PutOnTime(put, m, back, ClockAfter(q + a, c));
    LoseWords(Reported(y.sink.up), Words(q + a), Words(m), Words(back), y.tts.pending, y.arrived);
  }

  lemma Regroup<T>(q: seq<T>, a: seq<T>, m: seq<T>, b: seq<T>)
    ensures q + (a + m + b) == (q + a) + (m + b)
  {
  }

  lemma LoseWords<T>(r: seq<T>, a: seq<T>, m: seq<T>, b: seq<T>, z: seq<T>, c: seq<T>)
    requires Subseq(r + (a + (m + b)) + z, c)
    ensures Subseq(r + (a + b) + z, c)
  {
    hide Subseq;
    assert r + (a + (m + b)) + z == (r + a) + m + (b + z);
    SubseqDrop(r + a, m, b + z, c);
    assert r + (a + b) + z == (r + a) + (b + z);
  }

  lemma PutOnTime(put: seq<Frame>, m: seq<Frame>, back: seq<Frame>, c: Clock)
    requires AllOnTime(m + back, c) && Playback.OnlyKept(put) && InterruptFrame in put
    ensures AllOnTime(put + back, c) && Weaker(ClockAfter(put + back, c), ClockAfter(m + back, c))
    ensures Words(m + back) == Words(m) + Words(back) && Words(put + back) == Words(back)
  {
    hide AllOnTime, ClockAfter, Words;
    Concat(m, back, c);
    Concat(put, back, c);
    KeptStayDead(put, c);
    InterruptKills(put, c);
    Rejoin(m, c, put, c, back);
    assert [] + Words(back) == Words(back);
  }

  lemma {:induction false} InterruptKills(q: seq<Frame>, c: Clock)
    requires Playback.OnlyKept(q) && InterruptFrame in q
    ensures !ClockAfter(q, c).live
    decreases |q|
  {
    var init, f := q[..|q| - 1], q[|q| - 1];
    assert q == init + [f];
    if !f.InterruptFrame? {
      assert Playback.OnlyKept(init);
      InterruptKills(init, c);
    }
  }

  lemma MoveKeepsInv(y: System, m: Move)
    requires Inv(y) && Enabled(y, m)
    ensures Inv(Next(y, m))
  {
    match m {
      case Synthesis(step) => SynthesisKeepsInv(y, step);
      case Deliver => DeliverKeepsInv(y);
      case Tick => TickKeepsInv(y);
      case Interrupt(front, mid, ahead) => InterruptKeepsInv(y, front, mid, ahead);
    }
  }

  lemma {:induction false} RunKeepsInv(y: System, run: seq<Move>)
    requires Inv(y) && ValidRun(y, run)
    ensures Inv(Final(y, run))
    decreases |run|
  {
    hide Next, Enabled;
    if run != [] {
      MoveKeepsInv(y, run[0]);
      RunKeepsInv(Next(y, run[0]), run[1..]);
    }
  }

  /**
   * In every run, under any interrupts: the words reported are a subsequence of the words that
   * arrived, so they leave in order and each at most once; and a word that was not part of a
   * final flush is reported only once at least as many audio frames of its turn have been
   * dequeued as its start time asks for.
   */
  lemma WordsLeaveInOrderAndOnTime(rate: int, run: seq<Move>)
    requires Tts.Initial(rate).Wf() && ValidRun(Initial(rate), run)
    ensures var y := Final(Initial(rate), run);
      && Subseq(Reported(y.sink.up), y.arrived)
      && ReportsOnTime(y.sink.up)
  {
    hide Subseq, Reported, Words, AllOnTime, ClockAfter, ValidRun;
    InitialInv(rate);
    RunKeepsInv(Initial(rate), run);
    InvReports(Final(Initial(rate), run));
  }

  lemma InitialInv(rate: int)
    requires Tts.Initial(rate).Wf()
    ensures Inv(Initial(rate))
  {
  }

  lemma InvReports(y: System)
    requires Inv(y)
    ensures Subseq(Reported(y.sink.up), y.arrived) && ReportsOnTime(y.sink.up)
  {
    hide Subseq, Reported, Words, AllOnTime, ClockAfter;
    var r, w := Reported(y.sink.up), Words(y.sink.queue + y.link);
    assert r + w + y.tts.pending == r + (w + y.tts.pending);
    SubseqPrefix(r, w + y.tts.pending, y.arrived);
  }
}
