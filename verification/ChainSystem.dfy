/** System frames on their way through a chain: in order, past no stage twice, and none lost on the way. */
module ChainSystem {
  import opened Frames
  import opened Processor
  import opened ProcessorChain

  /** The system frame a stage is handling and has not passed on yet. */
  function SystemInHand(s: Stage): seq<Envelope> {
    match s.input
    case Interrupting(sys) => [sys]
    case Waiting(sys) => [sys]
    case Draining(sys, _) => [sys]
    case Refilling(sys, _) => [sys]
    case Dispatching(sys, sent) => if sent then [] else [sys]
    case _ => []
  }

  function SystemWaiting(s: Stage): seq<Envelope> {
    SystemInHand(s) + s.sysCh
  }

  /** The system frame a move brings into stage j: from outside, or from the stage before it. */
  function Brings(c: Chain, m: Move, j: nat): seq<Envelope>
    requires MoveEnabled(c, m) && j < |c.stages|
  {
    match m
    case Inject(i, sys) => if i == j then [sys] else []
    case PassSystem(i) => if i + 1 == j then [c.stages[i].input.sys] else []
    case _ => []
  }

  /** The system frame a move takes out of stage j. */
  function Takes(c: Chain, m: Move, j: nat): seq<Envelope>
    requires MoveEnabled(c, m) && j < |c.stages|
  {
    if (m.PassSystem? || m.LoseSystem?) && m.i == j then [c.stages[j].input.sys] else []
  }

  function Brought(c: Chain, run: seq<Move>, j: nat): seq<Envelope>
    requires ValidMoves(c, run) && j < |c.stages|
    decreases |run|
  {
    if run == [] then []
    else SameLength(c, run[0]); Brings(c, run[0], j) + Brought(MoveTo(c, run[0]), run[1..], j)
  }

  function Taken(c: Chain, run: seq<Move>, j: nat): seq<Envelope>
    requires ValidMoves(c, run) && j < |c.stages|
    decreases |run|
  {
    if run == [] then []
    else SameLength(c, run[0]); Takes(c, run[0], j) + Taken(MoveTo(c, run[0]), run[1..], j)
  }

  lemma SameLength(c: Chain, m: Move)
    requires MoveEnabled(c, m)
    ensures |MoveTo(c, m).stages| == |c.stages|
  {
    hide Apply, Enabled;
  }

  /** Whatever a stage does by itself, the system frames waiting in it stay, in order. */
  lemma OwnKeepsSystem(s: Stage, a: Action)
    requires Enabled(s, a) && Own(s, a)
    ensures SystemWaiting(Apply(s, a)) == SystemWaiting(s)
  {
    if a.TakeSystem? {
      var t := Apply(s, a);
      assert SystemInHand(s) == [] && SystemInHand(t) == [s.sysCh[0]];
      assert s.sysCh == [s.sysCh[0]] + s.sysCh[1..];
    }
  }

  lemma AcceptedSystem(s: Stage, env: Envelope)
    ensures Enabled(s, AcceptSystem(env)) ==> SystemWaiting(Apply(s, AcceptSystem(env))) == SystemWaiting(s) + [env]
    ensures Enabled(s, AcceptData(env)) ==> SystemWaiting(Apply(s, AcceptData(env))) == SystemWaiting(s)
  {
    assert SystemInHand(s) + (s.sysCh + [env]) == SystemInHand(s) + s.sysCh + [env];
  }

  lemma PassedSystem(s: Stage)
    requires UnpushedSystem(s)
    ensures [s.input.sys] + SystemWaiting(PushedSystem(s)) == SystemWaiting(s)
  {
    assert [s.input.sys] + ([] + s.sysCh) == [s.input.sys] + s.sysCh;
  }

  lemma PushedKeepsSystem(s: Stage, k: nat)
    requires Unpushed(s, k)
    ensures SystemWaiting(Pushed(s, k)) == SystemWaiting(s)
  {
  }

  lemma MoveKeepsSystem(c: Chain, m: Move, j: nat)
    requires MoveEnabled(c, m) && j < |c.stages|
    ensures |MoveTo(c, m).stages| == |c.stages|
    ensures SystemWaiting(c.stages[j]) + Brings(c, m, j) == Takes(c, m, j) + SystemWaiting(MoveTo(c, m).stages[j])
  {
    hide Apply, Enabled, SystemWaiting, Pushed, PushedSystem;
    SameLength(c, m);
    var s, t := c.stages[j], MoveTo(c, m).stages[j];
    assert SystemWaiting(s) + [] == SystemWaiting(s) && [] + SystemWaiting(t) == SystemWaiting(t);
    match m
    case Feed => AcceptedSystem(s, c.todo[0]);
    case Local(i, a) => if i == j { OwnKeepsSystem(s, a); }
    case PassData(i, k) =>
      if i == j { PushedKeepsSystem(s, k); } else if i + 1 == j { AcceptedSystem(s, c.stages[i].loops[k].pc.env); }
    case LoseData(i, k) => if i == j { PushedKeepsSystem(s, k); }
    case PassSystem(i) =>
      if i == j { PassedSystem(s); } else if i + 1 == j { AcceptedSystem(s, c.stages[i].input.sys); }
    case LoseSystem(i) => if i == j { PassedSystem(s); }
    case Inject(i, sys) => if i == j { AcceptedSystem(s, sys); }
  }

  /**
   * In every run and for every stage: the system frames that were waiting or have been brought in are, in
   * order, those that have gone out and those still waiting. None is lost, and none overtakes another.
   */
  lemma {:induction false} SystemFramesPassInOrder(c: Chain, run: seq<Move>, j: nat)
    requires ValidMoves(c, run) && j < |c.stages|
    ensures |FinalChain(c, run).stages| == |c.stages|
    ensures SystemWaiting(c.stages[j]) + Brought(c, run, j)
         == Taken(c, run, j) + SystemWaiting(FinalChain(c, run).stages[j])
    decreases |run|
  {
    hide SystemWaiting, MoveTo, MoveEnabled, Brings, Takes;
    if run == [] {
      assert SystemWaiting(c.stages[j]) + [] == [] + SystemWaiting(c.stages[j]);
    } else {
      var d, m, rest := MoveTo(c, run[0]), run[0], run[1..];
      MoveKeepsSystem(c, m, j);
      SystemFramesPassInOrder(d, rest, j);
      var w, x, y, z := SystemWaiting(c.stages[j]), SystemWaiting(d.stages[j]), Brought(d, rest, j), Taken(d, rest, j);
      assert w + (Brings(c, m, j) + y) == (w + Brings(c, m, j)) + y;
      assert (Takes(c, m, j) + x) + y == Takes(c, m, j) + (x + y);
      var last := SystemWaiting(FinalChain(d, rest).stages[j]);
      assert Takes(c, m, j) + (z + last) == (Takes(c, m, j) + z) + last;
    }
  }

  /** What goes out of a stage comes into the next one, unless that is shutting down or is not there. */
  lemma SystemFramesArrive(c: Chain, m: Move, j: nat)
    requires MoveEnabled(c, m) && j + 1 < |c.stages| && Takes(c, m, j) != []
    ensures Brings(c, m, j + 1) == Takes(c, m, j) || c.stages[j + 1].cancelling || c.stages[j + 1].cancelled
  {
  }
}
