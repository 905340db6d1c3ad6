/**
 * Whether a fired event is accepted: each one is, unless it meets a dispatcher that is closing, a
 * full queue, or a guard that an earlier event of its kind has used.
 */
module CallAcceptance {
  import opened CallEvents
  import opened Sequences

  // ---- Under the lock ----

  /** A firing thread that holds the lock goes on to send exactly while the dispatcher is not closing. */
  lemma CheckDecides(s: State, t: int, task: Task)
    requires At(s.pcs, t) == Firing(task, Checking)
    ensures var r := Apply(s, Step(t));
      && At(r.pcs, t) == Firing(task, if s.closing then Unlocking else Sending)
      && r.accepted == s.accepted && r.queue == s.queue
  {
  }

  /** Then its event is queued and accepted exactly if fewer than 512 events wait. */
  lemma SendDecides(s: State, t: int, task: Task)
    requires At(s.pcs, t) == Firing(task, Sending) && Inv(s)
    ensures var r := Apply(s, Step(t));
      && At(r.pcs, t) == Firing(task, Unlocking) && !r.panicked
      && r.accepted == (if |s.queue| < 512 then s.accepted + [task] else s.accepted)
      && r.queue == (if |s.queue| < 512 then s.queue + [task] else s.queue)
  {
    hide Locked, OneShots, Flow, Reported;
    assert OrderedAt(s, At(s.pcs, t));
  }

  /** Five kinds of event go through a guard that lets one of them pass; the committed turns and results do not. */
  lemma GuardedKinds(task: Task)
    ensures Start(Fire(task)) ==
      Firing(task, if task.kind in {BotJoined, UserJoined, UserFirstSpeech, BotFirstSpeech, FirstUserAudio}
                   then AtOnce else WantLock)
  {
  }

  // ---- What becomes of every event ----

  datatype Cause = GuardUsed | DispatcherClosing | QueueFull

  datatype Loss = Loss(task: Task, cause: Cause)

  /** The event an action drops, if any, read off the state it meets. */
  function LossOf(s: State, a: Action): seq<Loss> {
    if !a.Step? || !At(s.pcs, a.t).Firing? then []
    else
      var task, fire := At(s.pcs, a.t).task, At(s.pcs, a.t).fire;
      if fire.AtOnce? && OnceOf(s, task.kind).Done? then [Loss(task, GuardUsed)]
      else if fire.Checking? && s.closing then [Loss(task, DispatcherClosing)]
      else if fire.Sending? && |s.queue| >= 512 then [Loss(task, QueueFull)]
      else []
  }

  function Losses(s: State, run: seq<Action>): seq<Loss>
    requires ValidRun(s, run)
    decreases |run|
  {
    if run == [] then [] else LossOf(s, run[0]) + Losses(Apply(s, run[0]), run[1..])
  }

  function FiredBy(a: Action): seq<Task> {
    if a.Begin? && a.op.Fire? then [a.op.task] else []
  }

  /** The events of a run whose firing has begun. */
  function Fired(run: seq<Action>): seq<Task> {
    if run == [] then [] else FiredBy(run[0]) + Fired(run[1..])
  }

  function Tasks(losses: seq<Loss>): seq<Task> {
    if losses == [] then [] else [losses[0].task] + Tasks(losses[1..])
  }

  /** The event a thread carries, as long as nothing has been decided about it. */
  function Carried(pc: PC): seq<Task> {
    if pc.Firing? && (pc.fire.AtOnce? || pc.fire.WantLock? || pc.fire.Checking? || pc.fire.Sending?)
    then [pc.task] else []
  }

  function CarriedBy(pcs: map<int, PC>, threads: seq<int>): seq<Task> {
    if threads == [] then [] else Carried(At(pcs, threads[0])) + CarriedBy(pcs, threads[1..])
  }

  /** `threads` lists everybody who may be inside, each once. */
  ghost predicate Covers(s: State, threads: seq<int>) {
    Distinct(threads) && forall t :: !At(s.pcs, t).Idle? ==> t in threads
  }

  /** Accepted events and undecided ones, as a bag. */
  function Alive(s: State, threads: seq<int>): multiset<Task> {
    multiset(s.accepted) + multiset(CarriedBy(s.pcs, threads))
  }

  lemma {:induction false} SameCarried(before: map<int, PC>, after: map<int, PC>, threads: seq<int>)
    requires forall t :: t in threads ==> At(after, t) == At(before, t)
    ensures CarriedBy(after, threads) == CarriedBy(before, threads)
    decreases |threads|
  {
    if threads != [] {
      SameCarried(before, after, threads[1..]);
    }
  }

  lemma SamePart(c: seq<Task>, m: seq<Task>, m': seq<Task>, x: multiset<Task>, y: multiset<Task>)
    requires multiset(m') + x == multiset(m) + y
    ensures multiset(c + m') + x == multiset(c + m) + y
  {
    forall e ensures (multiset(c + m') + x)[e] == (multiset(c + m) + y)[e] {
      assert (multiset(m') + x)[e] == (multiset(m) + y)[e];
    }
  }

  lemma {:induction false} OneCarries(before: map<int, PC>, after: map<int, PC>, threads: seq<int>, t: int)
    requires t in threads && Distinct(threads)
    requires forall u :: u != t ==> At(after, u) == At(before, u)
    ensures multiset(CarriedBy(after, threads)) + multiset(Carried(At(before, t)))
         == multiset(CarriedBy(before, threads)) + multiset(Carried(At(after, t)))
    decreases |threads|
  {
    hide At, Carried;
    var rest := threads[1..];
    if threads[0] == t {
      SameCarried(before, after, rest);
    } else {
      OneCarries(before, after, rest, t);
      assert At(after, threads[0]) == At(before, threads[0]);
      SamePart(Carried(At(before, threads[0])), CarriedBy(before, rest), CarriedBy(after, rest),
               multiset(Carried(At(before, t))), multiset(Carried(At(after, t))));
    }
  }

  /** Nothing, or just this event. */
  predicate Just(tasks: seq<Task>, task: Task) {
    tasks == [] || tasks == [task]
  }

  /** The event a thread carries is carried on, accepted, or dropped: one of the three. */
  lemma FireAccounts(s: State, t: int, task: Task, at: FireStage) returns (x: seq<Task>)
    requires CanFire(s, task, at) && FlagsOrdered(s) && OrderedAt(s, Firing(task, at))
    requires At(s.pcs, t) == Firing(task, at)
    ensures FireEffect(s, t, task, at).accepted == s.accepted + x
    ensures var kept, lost := Carried(FireTarget(s, task, at)), Tasks(LossOf(s, Step(t)));
      && Just(x, task) && Just(kept, task) && Just(lost, task)
      && |x| + |kept| + |lost| == |Carried(Firing(task, at))|
  {
    hide At;
    var accepted := FireEffect(s, t, task, at).accepted;
    x := if at.Sending? && |s.queue| < 512 then [task] else [];
    assert accepted == s.accepted + x;
  }

  lemma OneOfThree(a: seq<Task>, x: seq<Task>, kept: seq<Task>, lost: seq<Task>, before: seq<Task>, task: Task)
    requires Just(x, task) && Just(kept, task) && Just(lost, task) && Just(before, task)
    requires |x| + |kept| + |lost| == |before|
    ensures multiset(a + x) + multiset(kept) + multiset(lost) == multiset(a) + multiset(before)
  {
  }

  lemma StepAccounts(s: State, a: Action, threads: seq<int>)
    requires Inv(s) && Enabled(s, a) && Covers(s, threads) && (a.Begin? ==> a.t in threads)
    ensures Covers(Apply(s, a), threads)
    ensures Alive(Apply(s, a), threads) + multiset(Tasks(LossOf(s, a))) == Alive(s, threads) + multiset(FiredBy(a))
  {
    hide Inv, At, Effect, Target, Enabled, LossOf, Carried;
    var r := Apply(s, a);
    if a.Begin? || a.Step? {
      ActorIsCovered(s, a, threads);
      OneCarries(s.pcs, r.pcs, threads, a.t);
      ActorAccounts(s, a);
      Balance(multiset(s.accepted), multiset(r.accepted), multiset(CarriedBy(s.pcs, threads)),
              multiset(CarriedBy(r.pcs, threads)), multiset(Carried(At(s.pcs, a.t))),
              multiset(Carried(At(r.pcs, a.t))), multiset(Tasks(LossOf(s, a))), multiset(FiredBy(a)));
    } else {
      WorkerAccounts(s, a);
    }
  }

  lemma ActorIsCovered(s: State, a: Action, threads: seq<int>)
    requires Enabled(s, a) && (a.Begin? || a.Step?) && Covers(s, threads) && (a.Begin? ==> a.t in threads)
    ensures a.t in threads && Apply(s, a).accepted == Effect(s, a).accepted
  {
    hide At, Effect, Target;
  }

  lemma Balance(a: multiset<Task>, a': multiset<Task>, m: multiset<Task>, m': multiset<Task>,
                c: multiset<Task>, c': multiset<Task>, l: multiset<Task>, f: multiset<Task>)
    requires a' + c' + l == a + c + f && m' + c == m + c'
    ensures (a' + m') + l == (a + m) + f
  {
    forall x ensures ((a' + m') + l)[x] == ((a + m) + f)[x] {
      assert (a' + c' + l)[x] == (a + c + f)[x] && (m' + c)[x] == (m + c')[x];
    }
  }

  lemma ActorAccounts(s: State, a: Action)
    requires Inv(s) && Enabled(s, a) && (a.Begin? || a.Step?)
    ensures multiset(Effect(s, a).accepted) + multiset(Carried(Target(s, a))) + multiset(Tasks(LossOf(s, a)))
         == multiset(s.accepted) + multiset(Carried(At(s.pcs, a.t))) + multiset(FiredBy(a))
  {
    hide Locked, OneShots, Flow, Reported, At, FireEffect, FireTarget, StopEffect, StopTarget, OrderedAt, FlagsOrdered;
    hide CanFire, CanStop, LossOf, Carried;
    assert OrderedAt(s, At(s.pcs, a.t));
    if a.Begin? {
      BeginAccounts(s, a);
    } else {
      match At(s.pcs, a.t)
      case Firing(task, at) =>
        var x := FireAccounts(s, a.t, task, at);
        CarriesItsTask(task, at);
        OneOfThree(s.accepted, x, Carried(Target(s, a)), Tasks(LossOf(s, a)), Carried(Firing(task, at)), task);
      case Stopping(c, at) => StopAccounts(s, a, c, at);
    }
  }

  lemma CarriesItsTask(task: Task, at: FireStage)
    ensures Just(Carried(Firing(task, at)), task)
  {
  }

  lemma BeginAccounts(s: State, a: Action)
    requires Enabled(s, a) && a.Begin?
    ensures Effect(s, a).accepted == s.accepted && LossOf(s, a) == [] && Carried(At(s.pcs, a.t)) == []
    ensures Carried(Target(s, a)) == FiredBy(a)
  {
  }

  lemma StopAccounts(s: State, a: Action, c: bool, at: StopStage)
    requires Enabled(s, a) && a.Step? && At(s.pcs, a.t) == Stopping(c, at)
    ensures Effect(s, a).accepted == s.accepted && LossOf(s, a) == [] && Carried(At(s.pcs, a.t)) == []
    ensures Carried(Target(s, a)) == [] && FiredBy(a) == []
  {
    hide At, StopEffect;
  }

  lemma WorkerAccounts(s: State, a: Action)
    requires Enabled(s, a) && !a.Begin? && !a.Step?
    ensures var r := Apply(s, a);
      r.accepted == s.accepted && r.pcs == s.pcs && LossOf(s, a) == [] && FiredBy(a) == []
  {
  }

  lemma {:induction false} TasksConcat(a: seq<Loss>, b: seq<Loss>)
    ensures Tasks(a + b) == Tasks(a) + Tasks(b)
    decreases |a|
  {
    if a == [] {
      assert a + b == b;
    } else {
      assert (a + b)[1..] == a[1..] + b;
      TasksConcat(a[1..], b);
    }
  }

  ghost predicate EntersThrough(run: seq<Action>, threads: seq<int>) {
    forall a :: a in run && a.Begin? ==> a.t in threads
  }

  lemma {:induction false} RunAccounts(s: State, run: seq<Action>, threads: seq<int>)
    requires Inv(s) && ValidRun(s, run) && Covers(s, threads) && EntersThrough(run, threads)
    ensures Covers(Final(s, run), threads)
    ensures Alive(Final(s, run), threads) + multiset(Tasks(Losses(s, run)))
         == Alive(s, threads) + multiset(Fired(run))
    decreases |run|
  {
    hide Inv, Covers, Alive, LossOf, FiredBy, Apply, Enabled;
    if run != [] {
      var t := Apply(s, run[0]);
      StepKeepsInv(s, run[0]);
      StepAccounts(s, run[0], threads);
      RunAccounts(t, run[1..], threads);
      TasksConcat(LossOf(s, run[0]), Losses(t, run[1..]));
      Chain(Alive(s, threads), Alive(t, threads), Alive(Final(t, run[1..]), threads),
            Tasks(LossOf(s, run[0])), Tasks(Losses(t, run[1..])), FiredBy(run[0]), Fired(run[1..]));
    }
  }

  lemma Chain(a: multiset<Task>, b: multiset<Task>, c: multiset<Task>,
              l: seq<Task>, m: seq<Task>, f: seq<Task>, g: seq<Task>)
    requires b + multiset(l) == a + multiset(f) && c + multiset(m) == b + multiset(g)
    ensures c + multiset(l + m) == a + multiset(f + g)
  {
    forall x ensures (c + multiset(l + m))[x] == (a + multiset(f + g))[x] {
      assert (b + multiset(l))[x] == (a + multiset(f))[x] && (c + multiset(m))[x] == (b + multiset(g))[x];
    }
  }

  /**
   * Every event fired in a run is accepted, or still undecided in a thread's hands, or was dropped
   * for one of the three causes, and only once: as bags of events this is an equation.
   */
  lemma EveryEventIsAccountedFor(run: seq<Action>, threads: seq<int>)
    requires ValidRun(INITIAL, run) && Distinct(threads) && EntersThrough(run, threads)
    ensures var s := Final(INITIAL, run);
      multiset(Fired(run))
      == multiset(s.accepted) + multiset(CarriedBy(s.pcs, threads)) + multiset(Tasks(Losses(INITIAL, run)))
    ensures var s := Final(INITIAL, run);
      (forall t :: At(s.pcs, t).Idle?) ==>
        multiset(Fired(run)) == multiset(s.accepted) + multiset(Tasks(Losses(INITIAL, run)))
  {
    hide Final, ValidRun, Apply, At, Inv;
    InitialInv();
    NobodyInside(threads);
    RunAccounts(INITIAL, run, threads);
    if forall t :: At(Final(INITIAL, run).pcs, t).Idle? {
      IdleCarryNothing(Final(INITIAL, run).pcs, threads);
    }
  }

  lemma NobodyInside(threads: seq<int>)
    ensures forall t :: At(INITIAL.pcs, t).Idle?
    ensures CarriedBy(INITIAL.pcs, threads) == []
  {
    IdleCarryNothing(INITIAL.pcs, threads);
  }

  lemma {:induction false} IdleCarryNothing(pcs: map<int, PC>, threads: seq<int>)
    requires forall t :: At(pcs, t).Idle?
    ensures CarriedBy(pcs, threads) == []
    decreases |threads|
  {
    hide At;
    if threads != [] {
      IdleCarryNothing(pcs, threads[1..]);
    }
  }

  // ---- A used guard ----

  /** An event of this kind has been accepted, or dropped for another reason than the guard. */
  ghost predicate Tried(accepted: seq<Task>, losses: seq<Loss>, k: Kind) {
    || (exists task :: task in accepted && task.kind == k)
    || (exists loss :: loss in losses && loss.cause != GuardUsed && loss.task.kind == k)
  }

  predicate PastDecision(pc: PC, k: Kind) {
    pc.Firing? && (pc.fire.Unlocking? || pc.fire.LeavingOnce?) && pc.task.kind == k
  }

  /** Whoever is past the decision, and every used guard, has such an event behind it. */
  ghost predicate GuardsHonest(s: State, losses: seq<Loss>) {
    forall k: Kind ::
      && (OnceOf(s, k).Done? ==> Tried(s.accepted, losses, k))
      && forall t :: PastDecision(At(s.pcs, t), k) ==> Tried(s.accepted, losses, k)
  }

  lemma TriedGrows(a: seq<Task>, x: seq<Task>, l: seq<Loss>, y: seq<Loss>, k: Kind)
    requires Tried(a, l, k)
    ensures Tried(a + x, l + y, k)
  {
    if task :| task in a && task.kind == k {
      assert task in a + x;
    } else {
      var loss :| loss in l && loss.cause != GuardUsed && loss.task.kind == k;
      assert loss in l + y;
    }
  }

  lemma AcceptedGrows(s: State, a: Action) returns (x: seq<Task>)
    requires Enabled(s, a)
    ensures Apply(s, a).accepted == s.accepted + x
    ensures a.Step? && At(s.pcs, a.t).Firing? && At(s.pcs, a.t).fire.Sending? && !s.closed && |s.queue| < 512 ==>
      x == [At(s.pcs, a.t).task]
  {
    x := Apply(s, a).accepted[|s.accepted|..];
  }

  /** An action that takes a thread past the decision, or uses a guard up, has such an event behind it. */
  lemma NewlyTried(s: State, a: Action, losses: seq<Loss>, k: Kind)
    requires Inv(s) && GuardsHonest(s, losses) && Enabled(s, a) && (a.Begin? || a.Step?)
    requires PastDecision(Target(s, a), k) || OnceOf(Effect(s, a), k).Done?
    ensures Tried(Apply(s, a).accepted, losses + LossOf(s, a), k)
  {
    hide Locked, OneShots, Flow, Reported, Tried, At;
    var pc := At(s.pcs, a.t);
    var x := AcceptedGrows(s, a);
    assert OrderedAt(s, pc);
    if Tried(s.accepted, losses, k) {
      TriedGrows(s.accepted, x, losses, LossOf(s, a), k);
    } else {
      assert !OnceOf(s, k).Done? && !PastDecision(pc, k);
      DecidedNow(s, a, x, losses, k);
    }
  }

  lemma DecidedNow(s: State, a: Action, x: seq<Task>, losses: seq<Loss>, k: Kind)
    requires Enabled(s, a) && (a.Begin? || a.Step?) && FlagsOrdered(s) && OrderedAt(s, At(s.pcs, a.t))
    requires PastDecision(Target(s, a), k) || OnceOf(Effect(s, a), k).Done?
    requires !OnceOf(s, k).Done? && !PastDecision(At(s.pcs, a.t), k)
    requires At(s.pcs, a.t).Firing? && At(s.pcs, a.t).fire.Sending? && !s.closed && |s.queue| < 512 && a.Step? ==>
      x == [At(s.pcs, a.t).task]
    ensures Tried(s.accepted + x, losses + LossOf(s, a), k)
  {
    var pc := At(s.pcs, a.t);
    assert a.Step? && pc.Firing? && pc.task.kind == k && (pc.fire.Checking? || pc.fire.Sending?);
    var all := losses + LossOf(s, a);
    if pc.fire.Checking? {
      assert Loss(pc.task, DispatcherClosing) in all;
    } else if |s.queue| >= 512 {
      assert Loss(pc.task, QueueFull) in all;
    } else {
      assert pc.task in s.accepted + x;
    }
  }

  lemma StepKeepsHonest(s: State, a: Action, losses: seq<Loss>)
    requires Inv(s) && GuardsHonest(s, losses) && Enabled(s, a)
    ensures GuardsHonest(Apply(s, a), losses + LossOf(s, a))
  {
    hide Inv, Tried, At, Enabled, Effect, Target, LossOf, PastDecision, OnceOf;
    var r, all := Apply(s, a), losses + LossOf(s, a);
    var x := AcceptedGrows(s, a);
    if a.Begin? || a.Step? {
      OnceOfFrame(Effect(s, a), r);
    } else {
      WorkerLeavesThreads(s, a);
      OnceOfFrame(s, r);
    }
    forall k: Kind
      ensures OnceOf(r, k).Done? ==> Tried(r.accepted, all, k)
      ensures forall t :: PastDecision(At(r.pcs, t), k) ==> Tried(r.accepted, all, k)
    {
      if Tried(s.accepted, losses, k) {
        TriedGrows(s.accepted, x, losses, LossOf(s, a), k);
      } else if (a.Begin? || a.Step?) && (PastDecision(Target(s, a), k) || OnceOf(Effect(s, a), k).Done?) {
        NewlyTried(s, a, losses, k);
      }
    }
  }

  lemma {:induction false} RunKeepsHonest(s: State, run: seq<Action>, losses: seq<Loss>)
    requires Inv(s) && GuardsHonest(s, losses) && ValidRun(s, run)
    ensures GuardsHonest(Final(s, run), losses + Losses(s, run))
    decreases |run|
  {
    hide Inv, GuardsHonest, LossOf, Apply, Enabled;
    if run == [] {
      assert losses + [] == losses;
    } else {
      var t := Apply(s, run[0]);
      StepKeepsInv(s, run[0]);
      StepKeepsHonest(s, run[0], losses);
      RunKeepsHonest(t, run[1..], losses + LossOf(s, run[0]));
      assert losses + LossOf(s, run[0]) + Losses(t, run[1..]) == losses + (LossOf(s, run[0]) + Losses(t, run[1..]));
    }
  }

  /** An event is turned away at its guard only after another one of its kind has come as far as the queue. */
  lemma UsedGuardsWereTried(run: seq<Action>, a: Action, task: Task)
    requires ValidRun(INITIAL, run) && Loss(task, GuardUsed) in LossOf(Final(INITIAL, run), a)
    ensures Tried(Final(INITIAL, run).accepted, Losses(INITIAL, run), task.kind)
  {
    hide Inv, Tried, Final, ValidRun, Losses;
    InitialInv();
    NothingTried();
    RunKeepsHonest(INITIAL, run, []);
    assert [] + Losses(INITIAL, run) == Losses(INITIAL, run);
  }

  lemma NothingTried()
    ensures GuardsHonest(INITIAL, [])
  {
  }
}
