/**
 * Exactly when a processor hands frames over in the order in which it accepted them. After a
 * timed-out wait two process loops may run side by side; order is lost when the old one takes a
 * frame past others that an interrupt is holding back, and in no other way.
 */
module ProcessorOrder {
  import opened Frames
  import opened Sequences
  import opened Processor

  /** A process loop takes a frame while an interrupt holds others that came before it. */
  predicate Overtakes(s: Stage, a: Action) {
    a.LoopTake? && Held(s) != []
  }

  /** Handed frames followed by the waiting ones are in the order of acceptance. */
  ghost predicate InOrder(s: Stage) {
    Subseq(s.handed + Rest(s), s.accepted)
  }

  // ---- One step ----

  lemma AcceptKeepsOrder(s: Stage, a: Action)
    requires InOrder(s) && Enabled(s, a) && a.AcceptData?
    ensures InOrder(Apply(s, a))
  {
    hide Subseq, Rest;
    FlowOfAccept(s, a);
    SubseqSnoc(s.handed + Rest(s), s.accepted, a.env);
    assert s.handed + (Rest(s) + [a.env]) == (s.handed + Rest(s)) + [a.env];
  }

  lemma StepKeepsOrder(s: Stage, a: Action)
    requires InOrder(s) && Enabled(s, a) && !Overtakes(s, a)
    ensures InOrder(Apply(s, a))
  {
    hide Subseq, Rest, Apply, Enabled;
    if a.AcceptData? {
      AcceptKeepsOrder(s, a);
    } else {
      var x, b, z := Flow(s, a);
      FlowKeepsOrder(s, Apply(s, a), FateOf(a), x, b, z);
    }
  }

  /** Of two different elements that occur once, one selection cannot have both orders. */
  lemma OneOrderOnly<T>(h: seq<T>, x: seq<T>, b: T, z: seq<T>, c: seq<T>)
    requires Distinct(c) && x != [] && Subseq(h + x + [b] + z, c)
    ensures !Subseq(h + ([b] + x) + z, c)
  {
    hide Subseq;
    if Subseq(h + ([b] + x) + z, c) {
      var k, y := x[0], x[1..];
      assert x == [k] + y;
      assert h + x + [b] + z == h + [k] + y + [b] + z;
      OrderedPair(h, k, y, b, z, c);
      assert h + ([b] + x) + z == h + [b] + [] + [k] + (y + z);
      OrderedPair(h, b, [], k, y + z, c);
    }
  }

  /** Two selected elements have places in the same order. */
  lemma OrderedPair<T>(h: seq<T>, k: T, y: seq<T>, b: T, z: seq<T>, c: seq<T>)
    requires Subseq(h + [k] + y + [b] + z, c)
    ensures exists i, j :: 0 <= i < j < |c| && c[i] == k && c[j] == b
  {
    hide Subseq;
    assert h + [k] + y + [b] + z == [] + h + ([k] + y + [b] + z);
    SubseqDrop([], h, [k] + y + [b] + z, c);
    assert [] + ([k] + y + [b] + z) == [k] + y + ([b] + z);
    SubseqDrop([k], y, [b] + z, c);
    assert [k] + ([b] + z) == [k, b] + z;
    SubseqPrefix([k, b], z, c);
    PairPlaces(k, b, c);
  }

  lemma {:induction false} PairPlaces<T>(k: T, b: T, c: seq<T>)
    requires Subseq([k, b], c)
    ensures exists i, j :: 0 <= i < j < |c| && c[i] == k && c[j] == b
    decreases |c|
  {
    var last := c[..|c| - 1];
    if Subseq([k, b], last) {
      PairPlaces(k, b, last);
      var i, j :| 0 <= i < j < |last| && last[i] == k && last[j] == b;
      assert c[i] == k && c[j] == b;
    } else {
      assert [k, b][..1] == [k];
      SubseqMember([k], last, 0);
      var i :| 0 <= i < |last| && last[i] == k;
      assert c[i] == k && c[|c| - 1] == b;
    }
  }

  /** A step keeps frames in order if and only if it does not overtake, when no frame occurs twice. */
  lemma StepKeepsOrderIff(s: Stage, a: Action)
    requires InOrder(s) && Enabled(s, a) && Distinct(Apply(s, a).accepted)
    ensures InOrder(Apply(s, a)) <==> !Overtakes(s, a)
  {
    hide Subseq, Rest, Apply, Enabled, Distinct;
    if Overtakes(s, a) {
      var x, b, z := Flow(s, a);
      var t := Apply(s, a);
      assert s.handed + Rest(s) == s.handed + x + b + z;
      assert t.handed + Rest(t) == s.handed + (b + x) + z;
      OneOrderOnly(s.handed, x, b[0], z, s.accepted);
    } else {
      StepKeepsOrder(s, a);
    }
  }

  // ---- Whole runs ----

  predicate NeverOvertakes(s: Stage, run: seq<Action>)
    requires ValidRun(s, run)
    decreases |run|
  {
    run == [] || (!Overtakes(s, run[0]) && NeverOvertakes(Apply(s, run[0]), run[1..]))
  }

  ghost predicate AlwaysInOrder(s: Stage, run: seq<Action>)
    requires ValidRun(s, run)
    decreases |run|
  {
    InOrder(s) && (run == [] || AlwaysInOrder(Apply(s, run[0]), run[1..]))
  }

  lemma {:induction false} AcceptedGrows(s: Stage, run: seq<Action>)
    requires ValidRun(s, run)
    ensures Final(s, run).accepted == s.accepted + Arrivals(s, run)
    decreases |run|
  {
    hide Enabled;
    if run != [] {
      AcceptedGrows(Apply(s, run[0]), run[1..]);
      AcceptedByStep(s, run[0]);
    }
  }

  lemma AcceptedByStep(s: Stage, a: Action)
    requires Enabled(s, a)
    ensures Apply(s, a).accepted == s.accepted + (if a.AcceptData? then [a.env] else [])
    ensures Apply(s, a).handed == s.handed + (if a.LoopTake? && s.procCh != [] then [s.procCh[0]] else [])
  {
    if a.AcceptData? {
      assert Apply(s, a).handed == s.handed;
    } else {
      hide Apply, Enabled, Rest;
      var x, b, z := Flow(s, a);
    }
  }

  lemma DistinctPrefix<T>(a: seq<T>, b: seq<T>)
    requires Distinct(a + b)
    ensures Distinct(a)
  {
    forall i, j | 0 <= i < j < |a| ensures a[i] != a[j] {
      assert (a + b)[i] != (a + b)[j];
    }
  }

  /** A run is in order throughout if and only if none of its steps overtakes. */
  lemma {:induction false} RunIsInOrderIff(s: Stage, run: seq<Action>)
    requires InOrder(s) && ValidRun(s, run) && Distinct(Final(s, run).accepted)
    ensures AlwaysInOrder(s, run) <==> NeverOvertakes(s, run)
    decreases |run|
  {
    hide InOrder, Overtakes, Apply, Enabled;
    if run != [] {
      var t := Apply(s, run[0]);
      AcceptedGrows(t, run[1..]);
      DistinctPrefix(t.accepted, Arrivals(t, run[1..]));
      StepKeepsOrderIff(s, run[0]);
      if InOrder(t) {
        RunIsInOrderIff(t, run[1..]);
      }
    }
  }

  lemma {:induction false} RunKeepsOrder(s: Stage, run: seq<Action>)
    requires InOrder(s) && ValidRun(s, run) && NeverOvertakes(s, run)
    ensures InOrder(Final(s, run))
    decreases |run|
  {
    hide InOrder, Overtakes, Apply, Enabled;
    if run != [] {
      StepKeepsOrder(s, run[0]);
      RunKeepsOrder(Apply(s, run[0]), run[1..]);
    }
  }

  /** Without an overtaking step, timed-out waits or not, frames are handed over in order. */
  lemma RunsKeepOrder(run: seq<Action>)
    requires ValidRun(INITIAL, run) && NeverOvertakes(INITIAL, run)
    ensures Subseq(Final(INITIAL, run).handed, Final(INITIAL, run).accepted)
  {
    hide Subseq;
    assert InOrder(INITIAL) by { StartsInOrder(); }
    RunKeepsOrder(INITIAL, run);
    var t := Final(INITIAL, run);
    SubseqPrefix(t.handed, Rest(t), t.accepted);
  }

  lemma StartsInOrder()
    ensures InOrder(INITIAL) && Rest(INITIAL) == []
  {
  }

  /** Without a timed-out wait nothing overtakes. */
  lemma {:induction false} OnlyTimeoutsOvertake(s: Stage, run: seq<Action>)
    requires OneLoop(s) && ValidRun(s, run) && WaitTimeout !in run
    ensures NeverOvertakes(s, run)
    decreases |run|
  {
    hide Apply, Enabled, OneLoop;
    if run != [] {
      LoopsStep(s, run[0]);
      OnlyTimeoutsOvertake(Apply(s, run[0]), run[1..]);
    }
  }

  // ---- Which loop overtakes ----

  /** A loop whose context is done and that is not in its select. */
  predicate IsOut(s: Stage, k: nat) {
    k < |s.loops| && s.LoopDone(k) && !s.loops[k].pc.Selecting?
  }

  /** Such a loop leaves at its next check. */
  lemma OutStaysOut(s: Stage, a: Action, k: nat)
    requires IsOut(s, k) && Enabled(s, a)
    ensures IsOut(Apply(s, a), k) && a != LoopTake(k)
  {
  }

  lemma {:induction false} OutForGood(s: Stage, run: seq<Action>, k: nat)
    requires IsOut(s, k) && ValidRun(s, run)
    ensures IsOut(Final(s, run), k)
    decreases |run|
  {
    hide IsOut, Apply, Enabled;
    if run != [] {
      OutStaysOut(s, run[0], k);
      OutForGood(Apply(s, run[0]), run[1..], k);
    }
  }

  /** All loops but the current one are cancelled, and while an interrupt waits or drains so is that. */
  ghost predicate OldLoopsCancelled(s: Stage) {
    && s.loops != []
    && (forall k :: 0 <= k < |s.loops| - 1 ==> s.loops[k].cancelled)
    && (s.input.Waiting? || s.input.Draining? ==> Current(s).cancelled)
  }

  lemma OldLoopsStep(s: Stage, a: Action)
    requires OldLoopsCancelled(s) && Enabled(s, a)
    ensures OldLoopsCancelled(Apply(s, a))
  {
    var t := Apply(s, a);
    if a.RestartLoop? {
      assert forall k :: 0 <= k < |s.loops| ==> t.loops[k] == s.loops[k];
    } else {
      assert |t.loops| == |s.loops|;
      assert forall k :: 0 <= k < |s.loops| ==> s.loops[k].cancelled ==> t.loops[k].cancelled;
    }
  }

  lemma {:induction false} OldLoopsRun(s: Stage, run: seq<Action>)
    requires OldLoopsCancelled(s) && ValidRun(s, run)
    ensures OldLoopsCancelled(Final(s, run))
    decreases |run|
  {
    hide OldLoopsCancelled, Apply, Enabled;
    if run != [] {
      OldLoopsStep(s, run[0]);
      OldLoopsRun(Apply(s, run[0]), run[1..]);
    }
  }

  /**
   * A loop that overtakes has been cancelled, and since its context was done it has been between its
   * check and its select all the time: one that was in ProcessFrame then never overtakes.
   */
  lemma OvertakerSatInSelect(before: seq<Action>, after: seq<Action>, k: nat)
    requires ValidRun(INITIAL, before) && ValidRun(Final(INITIAL, before), after)
    requires var s := Final(Final(INITIAL, before), after); Enabled(s, LoopTake(k)) && Overtakes(s, LoopTake(k))
    ensures Final(Final(INITIAL, before), after).loops[k].cancelled
    ensures var m := Final(INITIAL, before);
      k < |m.loops| && m.LoopDone(k) ==> m.loops[k].pc.Selecting?
  {
    hide ValidRun, Final, Apply;
    var m := Final(INITIAL, before);
    OldLoopsRun(INITIAL, before);
    OldLoopsRun(m, after);
    if IsOut(m, k) {
      OutForGood(m, after, k);
    }
  }

  // ---- What reaches ProcessFrame, exactly ----

  /** The frames a run accepts. */
  function Arrivals(s: Stage, run: seq<Action>): seq<Envelope>
    requires ValidRun(s, run)
    decreases |run|
  {
    if run == [] then []
    else (if run[0].AcceptData? then [run[0].env] else []) + Arrivals(Apply(s, run[0]), run[1..])
  }

  /** The frames a run hands over. */
  function Delivered(s: Stage, run: seq<Action>): seq<Envelope>
    requires ValidRun(s, run)
    decreases |run|
  {
    if run == [] then []
    else (if run[0].LoopTake? && s.procCh != [] then [s.procCh[0]] else []) + Delivered(Apply(s, run[0]), run[1..])
  }

  /** Some frame is overtaken while it is held back, and is handed over after all. */
  ghost predicate OvertakenIsDelivered(s: Stage, run: seq<Action>)
    requires ValidRun(s, run)
    decreases |run|
  {
    run != [] &&
    var t := Apply(s, run[0]);
    || (Overtakes(s, run[0]) && exists e :: e in Held(s) && e in Delivered(t, run[1..]))
    || OvertakenIsDelivered(t, run[1..])
  }

  lemma {:induction false} HandedGrows(s: Stage, run: seq<Action>)
    requires ValidRun(s, run)
    ensures Final(s, run).handed == s.handed + Delivered(s, run)
    decreases |run|
  {
    hide Enabled, Apply;
    if run != [] {
      HandedGrows(Apply(s, run[0]), run[1..]);
      AcceptedByStep(s, run[0]);
    }
  }

  /** Everything still to come: the waiting frames and those the run accepts. */
  function Coming(s: Stage, run: seq<Action>): seq<Envelope>
    requires ValidRun(s, run)
  {
    Rest(s) + Arrivals(s, run)
  }

  /** A run is its first step and the rest. */
  lemma FirstStep(s: Stage, run: seq<Action>)
    requires ValidRun(s, run) && run != []
    ensures Enabled(s, run[0]) && ValidRun(Apply(s, run[0]), run[1..])
    ensures Arrivals(s, run) == (if run[0].AcceptData? then [run[0].env] else []) + Arrivals(Apply(s, run[0]), run[1..])
    ensures Delivered(s, run) ==
      (if run[0].LoopTake? && s.procCh != [] then [s.procCh[0]] else []) + Delivered(Apply(s, run[0]), run[1..])
  {
    hide Apply, Enabled;
  }

  lemma Regroup<T>(a: seq<T>, b: seq<T>, c: seq<T>, d: seq<T>)
    ensures a + b + c + d == a + b + (c + d) && (a + c) + d == a + (c + d)
  {
  }

  lemma ComingAfterAccept(s: Stage, run: seq<Action>)
    requires ValidRun(s, run) && run != [] && run[0].AcceptData?
    ensures Enabled(s, run[0]) && ValidRun(Apply(s, run[0]), run[1..])
    ensures Coming(Apply(s, run[0]), run[1..]) == Coming(s, run)
    ensures Delivered(s, run) == Delivered(Apply(s, run[0]), run[1..])
  {
    hide Rest, Apply, Enabled, ValidRun, Arrivals, Delivered;
    FirstStep(s, run);
    FlowOfAccept(s, run[0]);
    Regroup([], Rest(s), [run[0].env], Arrivals(Apply(s, run[0]), run[1..]));
    assert [] + Rest(s) == Rest(s);
  }

  /** Any other step takes one block out of what is to come, and hands it over if it is a take. */
  lemma ComingAfterStep(s: Stage, run: seq<Action>) returns (x: seq<Envelope>, b: seq<Envelope>, w: seq<Envelope>)
    requires ValidRun(s, run) && run != [] && !run[0].AcceptData?
    ensures Enabled(s, run[0]) && ValidRun(Apply(s, run[0]), run[1..])
    ensures Coming(s, run) == x + b + w && Coming(Apply(s, run[0]), run[1..]) == x + w
    ensures Delivered(s, run) == (if run[0].LoopTake? then b else []) + Delivered(Apply(s, run[0]), run[1..])
    ensures run[0].LoopTake? ==> |b| == 1 && x == Held(s)
  {
    hide Rest, Apply, Enabled, ValidRun, Arrivals, Delivered, Held;
    FirstStep(s, run);
    var z;
    x, b, z := Flow(s, run[0]);
    var more := Arrivals(Apply(s, run[0]), run[1..]);
    w := z + more;
    Regroup(x, b, z, more);
    assert [] + more == more;
    AcceptedByStep(s, run[0]);
  }

  /** Only what was waiting or is accepted can be handed over. */
  lemma {:induction false} DeliveredIsComing(s: Stage, run: seq<Action>, e: Envelope)
    requires ValidRun(s, run) && e in Delivered(s, run)
    ensures e in Coming(s, run)
    decreases |run|
  {
    hide Rest, Apply, Arrivals, Delivered, Enabled;
    if run == [] {
      NothingDelivered(s);
    } else {
      var t := Apply(s, run[0]);
      if run[0].AcceptData? {
        ComingAfterAccept(s, run);
        DeliveredIsComing(t, run[1..], e);
      } else {
        var x, b, w := ComingAfterStep(s, run);
        if e in Delivered(t, run[1..]) {
          DeliveredIsComing(t, run[1..], e);
        }
      }
    }
  }

  lemma NothingDelivered(s: Stage)
    ensures Delivered(s, []) == [] && !OvertakenIsDelivered(s, [])
  {
  }

  lemma DistinctParts<T>(x: seq<T>, b: seq<T>, w: seq<T>)
    requires Distinct(x + b + w)
    ensures Distinct(x + w)
    ensures forall e :: e in b ==> e !in x && e !in w
    ensures forall e :: e in x ==> e !in w
  {
    var s, t := x + b + w, x + w;
    forall i, j | 0 <= i < j < |t| ensures t[i] != t[j] {
      var i', j' := if i < |x| then i else i + |b|, if j < |x| then j else j + |b|;
      assert t[i] == s[i'] && t[j] == s[j'];
    }
    forall e | e in b ensures e !in x && e !in w {
      var i :| 0 <= i < |b| && b[i] == e;
      assert s[|x| + i] == e;
      assert forall k :: 0 <= k < |x| ==> s[k] == x[k];
      assert forall k :: 0 <= k < |w| ==> s[|x| + |b| + k] == w[k];
    }
    forall e | e in x ensures e !in w {
      var i :| 0 <= i < |x| && x[i] == e;
      assert s[i] == e;
      assert forall k :: 0 <= k < |w| ==> s[|x| + |b| + k] == w[k];
    }
  }

  /** Dropping a block that is not handed over does not matter to the order. */
  lemma DropIff<T>(d: seq<T>, x: seq<T>, b: seq<T>, w: seq<T>)
    requires forall e :: e in d ==> e !in b
    ensures Subseq(d, x + b + w) <==> Subseq(d, x + w)
  {
    hide Subseq;
    if Subseq(d, x + b + w) {
      SubseqAvoids(d, x, b, w);
    }
    if Subseq(d, x + w) {
      Widen(d, x, b, w);
    }
  }

  lemma Widen<T>(d: seq<T>, x: seq<T>, b: seq<T>, w: seq<T>)
    requires Subseq(d, x + w)
    ensures Subseq(d, x + b + w)
  {
    hide Subseq;
    SubseqRefl(x + b + w);
    SubseqDrop(x, b, w, x + b + w);
    SubseqTrans(d, x + w, x + b + w);
  }

  /** Taking `f` past `x` is in order exactly if nothing of `x` comes after it, and the rest is in order. */
  lemma TakeIff<T>(d: seq<T>, x: seq<T>, f: T, w: seq<T>)
    requires Distinct(x + [f] + w)
    ensures Subseq([f] + d, x + [f] + w) <==> Subseq(d, x + w) && forall e :: e in d ==> e !in x
  {
    hide Subseq, Distinct;
    DistinctParts(x, [f], w);
    assert f in [f];
    if Subseq([f] + d, x + [f] + w) {
      SubseqAfter(f, d, x, w);
      SubseqSuffix(d, x, w);
      forall e | e in d ensures e !in x {
        var i :| 0 <= i < |d| && d[i] == e;
        SubseqMember(d, w, i);
      }
    }
    if Subseq(d, x + w) && forall e :: e in d ==> e !in x {
      assert x + w == [] + x + w;
      SubseqAvoids(d, [], x, w);
      assert [] + w == w;
      SubseqPrepend([f], d, w);
      SubseqSuffix([f] + d, x, [f] + w);
      assert x + ([f] + w) == x + [f] + w;
    }
  }

  /** What a run hands over is in order if and only if it hands over no frame that it overtook before. */
  lemma {:induction false} DeliveredInOrderIff(s: Stage, run: seq<Action>)
    requires ValidRun(s, run) && Distinct(Coming(s, run))
    ensures Subseq(Delivered(s, run), Coming(s, run)) <==> !OvertakenIsDelivered(s, run)
    decreases |run|
  {
    hide Subseq, Rest, Apply, Enabled, Arrivals, Delivered, Coming, Distinct;
    if run == [] {
      NothingDelivered(s);
      assert Subseq([], Coming(s, run)) by { EmptySelection(Coming(s, run)); }
    } else {
      var t, rest := Apply(s, run[0]), run[1..];
      var d := Delivered(t, rest);
      if run[0].AcceptData? {
        ComingAfterAccept(s, run);
        DeliveredInOrderIff(t, rest);
      } else {
        var x, b, w := ComingAfterStep(s, run);
        DistinctParts(x, b, w);
        DeliveredInOrderIff(t, rest);
        if run[0].LoopTake? {
          assert b == [b[0]];
          TakeIff(d, x, b[0], w);
        } else {
          forall e | e in d ensures e !in b {
            DeliveredIsComing(t, rest, e);
          }
          DropIff(d, x, b, w);
          assert [] + d == d;
        }
      }
    }
  }

  lemma EmptySelection<T>(c: seq<T>)
    ensures Subseq([], c)
  {
  }

  /**
   * Frames reach ProcessFrame in the order in which they were accepted if and only if no frame is
   * overtaken while an interrupt holds it back and handed over after all. Frames carry distinct
   * ids, so none is accepted twice.
   */
  lemma HandedInOrderIff(run: seq<Action>)
    requires ValidRun(INITIAL, run) && Distinct(Final(INITIAL, run).accepted)
    ensures Subseq(Final(INITIAL, run).handed, Final(INITIAL, run).accepted) <==> !OvertakenIsDelivered(INITIAL, run)
  {
    hide Subseq, Distinct, Rest, Arrivals, Delivered, OvertakenIsDelivered, Final, ValidRun;
    StartsInOrder();
    AcceptedGrows(INITIAL, run);
    HandedGrows(INITIAL, run);
    assert Final(INITIAL, run).accepted == Arrivals(INITIAL, run) == Coming(INITIAL, run);
    assert Final(INITIAL, run).handed == Delivered(INITIAL, run);
    DeliveredInOrderIff(INITIAL, run);
  }

  // ---- Interruptible frames ----

  /** The interruptible frames, in order. */
  function Interruptible(s: seq<Envelope>): seq<Envelope> {
    if s == [] then []
    else Interruptible(s[..|s| - 1]) + (if s[|s| - 1].frame.IsInterruptible() then [s[|s| - 1]] else [])
  }

  lemma {:induction false} InterruptibleConcat(a: seq<Envelope>, b: seq<Envelope>)
    ensures Interruptible(a + b) == Interruptible(a) + Interruptible(b)
    decreases |b|
  {
    if b == [] {
      assert a + b == a;
    } else {
      InterruptibleConcat(a, b[..|b| - 1]);
      assert (a + b)[..|a + b| - 1] == a + b[..|b| - 1];
    }
  }

  lemma {:induction false} NoneInterruptible(s: seq<Envelope>)
    requires forall i :: 0 <= i < |s| ==> !s[i].frame.IsInterruptible()
    ensures Interruptible(s) == []
  {
    if s != [] {
      NoneInterruptible(s[..|s| - 1]);
    }
  }

  /** An interrupt holds back uninterruptible frames only. */
  ghost predicate HoldsKept(s: Stage) {
    forall i :: 0 <= i < |Held(s)| ==> !Held(s)[i].frame.IsInterruptible()
  }

  ghost predicate InterruptibleInOrder(s: Stage) {
    HoldsKept(s) && Subseq(Interruptible(s.handed + Rest(s)), Interruptible(s.accepted))
  }

  lemma HoldsKeptStep(s: Stage, a: Action)
    requires HoldsKept(s) && Enabled(s, a)
    ensures HoldsKept(Apply(s, a))
  {
    var h, k := Held(s), Held(Apply(s, a));
    if a.DrainOne? && !s.procCh[0].frame.IsInterruptible() {
      assert k == h + [s.procCh[0]];
    } else {
      assert k == h || k == [];
    }
  }

  lemma InterruptibleStep(s: Stage, a: Action)
    requires InterruptibleInOrder(s) && Enabled(s, a)
    ensures InterruptibleInOrder(Apply(s, a))
  {
    hide Subseq, Rest, Apply, Enabled, Interruptible, Held;
    HoldsKeptStep(s, a);
    if a.AcceptData? {
      FlowOfAccept(s, a);
      AcceptedByStep(s, a);
      assert Apply(s, a).handed + Rest(Apply(s, a)) == (s.handed + Rest(s)) + [a.env];
      InterruptibleConcat(s.handed + Rest(s), [a.env]);
      InterruptibleConcat(s.accepted, [a.env]);
      SubseqAppend(Interruptible(s.handed + Rest(s)), Interruptible(s.accepted), Interruptible([a.env]));
    } else {
      var x, b, z := Flow(s, a);
      if a.LoopTake? {
        NoneInterruptible(x);
      }
      FlowKeepsInterruptible(s, Apply(s, a), FateOf(a), x, b, z);
    }
  }

  lemma FlowKeepsInterruptible(s: Stage, t: Stage, fate: Fate, x: seq<Envelope>, b: seq<Envelope>, z: seq<Envelope>)
    requires Flows(s, t, fate, x, b, z) && (fate.Handed? ==> Interruptible(x) == [])
    requires Subseq(Interruptible(s.handed + Rest(s)), Interruptible(s.accepted))
    ensures Subseq(Interruptible(t.handed + Rest(t)), Interruptible(t.accepted))
  {
    hide Subseq, Rest, Interruptible;
    var h := s.handed;
    assert h + Rest(s) == h + x + b + z;
    Parts(h, x, b, z);
    if fate.Handed? {
      assert t.handed + Rest(t) == h + b + x + z;
      Parts(h, b, x, z);
      assert Interruptible(t.handed + Rest(t)) == Interruptible(h) + Interruptible(b) + Interruptible(z);
      assert Interruptible(h + Rest(s)) == Interruptible(h) + Interruptible(b) + Interruptible(z);
    } else {
      assert t.handed + Rest(t) == h + x + [] + z;
      Parts(h, x, [], z);
      NoneInterruptible([]);
      assert Interruptible(t.handed + Rest(t)) == Interruptible(h) + Interruptible(x) + Interruptible(z);
      SubseqDrop(Interruptible(h) + Interruptible(x), Interruptible(b), Interruptible(z), Interruptible(s.accepted));
    }
  }

  lemma Parts(h: seq<Envelope>, x: seq<Envelope>, b: seq<Envelope>, z: seq<Envelope>)
    ensures Interruptible(h + x + b + z) == Interruptible(h) + Interruptible(x) + Interruptible(b) + Interruptible(z)
  {
    hide Interruptible;
    InterruptibleConcat(h + x + b, z);
    InterruptibleConcat(h + x, b);
    InterruptibleConcat(h, x);
  }

  lemma {:induction false} RunKeepsInterruptible(s: Stage, run: seq<Action>)
    requires InterruptibleInOrder(s) && ValidRun(s, run)
    ensures InterruptibleInOrder(Final(s, run))
    decreases |run|
  {
    hide InterruptibleInOrder, Apply, Enabled;
    if run != [] {
      InterruptibleStep(s, run[0]);
      RunKeepsInterruptible(Apply(s, run[0]), run[1..]);
    }
  }

  /**
   * In every run, timed-out waits included, the interruptible frames are handed over in the order
   * in which they were accepted: only uninterruptible ones can be overtaken.
   */
  lemma InterruptibleFramesKeepOrder(run: seq<Action>)
    requires ValidRun(INITIAL, run)
    ensures Subseq(Interruptible(Final(INITIAL, run).handed), Interruptible(Final(INITIAL, run).accepted))
  {
    hide Subseq, Interruptible, Rest;
    assert InterruptibleInOrder(INITIAL) by { InterruptibleAtStart(); }
    RunKeepsInterruptible(INITIAL, run);
    var t := Final(INITIAL, run);
    InterruptibleConcat(t.handed, Rest(t));
    SubseqPrefix(Interruptible(t.handed), Interruptible(Rest(t)), Interruptible(t.accepted));
  }

  lemma InterruptibleAtStart()
    ensures InterruptibleInOrder(INITIAL)
  {
  }

  // ---- Order is really lost ----

  /** With a timed-out wait, any frame can overtake an uninterruptible one. */
  lemma TimeoutCanReorder(a: Envelope, b: Envelope, interrupt: Envelope)
    requires !a.frame.IsSystem() && !a.frame.IsInterruptible()
    requires !b.frame.IsSystem()
    requires a != b && interrupt.frame.InterruptFrame?
    ensures exists run ::
      && ValidRun(INITIAL, run)
      && Final(INITIAL, run).accepted == [a, b]
      && Final(INITIAL, run).handed == [b, a]
      && Final(INITIAL, run).timedOut
  {
    hide ValidRun, Final;
    var sel := [Loop(false, Selecting)];
    var s1 := INITIAL.(procCh := [a, b], loops := sel, accepted := [a, b]);
    var r1 := QueueBoth(a, b, s1);
    var gone := [Loop(true, Selecting)];
    var s2 := s1.(loops := gone, input := Draining(interrupt, [a]), procCh := [b], timedOut := true);
    var r2 := GiveUpWaiting(a, b, interrupt, r1, s1, s2);
    var r3, s := Extend(r2, s2, LoopTake(0));
    r3, s := Extend(r3, s, RestartLoop);
    r3, s := Extend(r3, s, RefillOne);
    assert s.procCh == [a];
    r3, s := Extend(r3, s, LoopCheck(1));
    r3, s := Extend(r3, s, LoopTake(1));
    assert s.handed == [b, a];
  }

  lemma QueueBoth(a: Envelope, b: Envelope, s1: Stage) returns (run: seq<Action>)
    requires !a.frame.IsSystem() && !b.frame.IsSystem()
    requires s1 == INITIAL.(procCh := [a, b], loops := [Loop(false, Selecting)], accepted := [a, b])
    ensures ValidRun(INITIAL, run) && Final(INITIAL, run) == s1
  {
    hide ValidRun, Final;
    var s;
    EmptyRun(INITIAL);
    run, s := Extend([], INITIAL, AcceptData(a));
    run, s := Extend(run, s, LoopCheck(0));
    run, s := Extend(run, s, NothingUrgent);
    run, s := Extend(run, s, TakeData);
    run, s := Extend(run, s, ForwardData);
    assert s == INITIAL.(procCh := [a], loops := [Loop(false, Selecting)], accepted := [a]);
    run, s := Extend(run, s, AcceptData(b));
    run, s := Extend(run, s, NothingUrgent);
    run, s := Extend(run, s, TakeData);
    run, s := Extend(run, s, ForwardData);
  }

  lemma GiveUpWaiting(a: Envelope, b: Envelope, interrupt: Envelope, r1: seq<Action>, s1: Stage, s2: Stage)
    returns (run: seq<Action>)
    requires !a.frame.IsInterruptible() && interrupt.frame.InterruptFrame?
    requires s1 == INITIAL.(procCh := [a, b], loops := [Loop(false, Selecting)], accepted := [a, b])
    requires s2 == s1.(loops := [Loop(true, Selecting)], input := Draining(interrupt, [a]), procCh := [b],
                       timedOut := true)
    requires ValidRun(INITIAL, r1) && Final(INITIAL, r1) == s1
    ensures ValidRun(INITIAL, run) && Final(INITIAL, run) == s2
  {
    hide ValidRun, Final;
    var s;
    run, s := Extend(r1, s1, AcceptSystem(interrupt));
    run, s := Extend(run, s, TakeSystem);
    run, s := Extend(run, s, CancelLoop);
    run, s := Extend(run, s, WaitTimeout);
    assert s == s1.(loops := [Loop(true, Selecting)], input := Draining(interrupt, []), timedOut := true);
    run, s := Extend(run, s, DrainOne);
    assert s.procCh == [b] && s.input.keep == [a];
  }

  // ---- A purge takes one frame and leaves the next ----

  /** An interrupt can purge a frame from the process channel while the one sent right behind it gets through. */
  lemma PurgeBetween(a: Envelope, b: Envelope, interrupt: Envelope) returns (run: seq<Action>)
    requires !a.frame.IsSystem() && a.frame.IsInterruptible() && !b.frame.IsSystem()
    requires interrupt.frame.InterruptFrame?
    ensures ValidRun(INITIAL, run)
    ensures var s := Final(INITIAL, run);
      s.accepted == [a, b] && s.purged == [a] && s.handed == [b] && !s.timedOut
  {
    hide ValidRun, Final;
    var s;
    EmptyRun(INITIAL);
    run, s := Extend([], INITIAL, AcceptData(a));
    run, s := Extend(run, s, NothingUrgent);
    run, s := Extend(run, s, TakeData);
    run, s := Extend(run, s, ForwardData);
    assert s == INITIAL.(procCh := [a], accepted := [a]);
    run, s := Extend(run, s, AcceptSystem(interrupt));
    run, s := Extend(run, s, AcceptData(b));
    run, s := PurgeOne(run, s, interrupt);
    run := HandOne(run, s, b);
  }

  lemma HandOne(before: seq<Action>, now: Stage, b: Envelope) returns (run: seq<Action>)
    requires now.input.Fair? && now.dataCh == [b] && now.procCh == [] && now.handed == []
    requires now.loops == [Loop(true, Exited), Loop(false, Top)] && !now.cancelled
    requires ValidRun(INITIAL, before) && Final(INITIAL, before) == now
    ensures ValidRun(INITIAL, run)
    ensures var s := Final(INITIAL, run);
      s.handed == [b] && s.accepted == now.accepted && s.purged == now.purged && s.timedOut == now.timedOut
  {
    hide ValidRun, Final;
    var s;
    run, s := Extend(before, now, TakeData);
    run, s := Extend(run, s, ForwardData);
    run, s := Extend(run, s, LoopCheck(1));
    run, s := Extend(run, s, LoopTake(1));
  }

  lemma PurgeOne(before: seq<Action>, now: Stage, interrupt: Envelope) returns (run: seq<Action>, s: Stage)
    requires interrupt.frame.InterruptFrame? && |now.procCh| == 1 && now.procCh[0].frame.IsInterruptible()
    requires now == INITIAL.(sysCh := [interrupt], dataCh := now.dataCh, procCh := now.procCh, accepted := now.accepted)
    requires ValidRun(INITIAL, before) && Final(INITIAL, before) == now
    ensures ValidRun(INITIAL, run) && Final(INITIAL, run) == s
    ensures s == now.(sysCh := [], procCh := [], input := Fair, loops := [Loop(true, Exited), Loop(false, Top)],
                      purged := now.procCh)
  {
    hide ValidRun, Final;
    run, s := Extend(before, now, TakeSystem);
    run, s := Extend(run, s, CancelLoop);
    run, s := Extend(run, s, LoopExit(0));
    run, s := Extend(run, s, LoopsGone);
    run, s := Extend(run, s, DrainOne);
    run, s := Extend(run, s, RestartLoop);
    run, s := Extend(run, s, RefillDone);
    run, s := Extend(run, s, Dispatched);
    run, s := Extend(run, s, NothingUrgent);
    assert s.procCh == [] && s.purged == now.procCh;
  }

  /** Adds one enabled action at the end of a run from the initial state. */
  lemma Extend(run: seq<Action>, now: Stage, a: Action) returns (longer: seq<Action>, next: Stage)
    requires ValidRun(INITIAL, run) && Final(INITIAL, run) == now && Enabled(now, a)
    ensures longer == run + [a] && next == Apply(now, a)
    ensures ValidRun(INITIAL, longer) && Final(INITIAL, longer) == next
  {
    hide Apply, Enabled;
    longer, next := run + [a], Apply(now, a);
    OneStep(now, a);
    RunsCompose(INITIAL, run, [a]);
  }

  lemma EmptyRun(s: Stage)
    ensures ValidRun(s, []) && Final(s, []) == s
  {
  }

  lemma OneStep(s: Stage, a: Action)
    requires Enabled(s, a)
    ensures ValidRun(s, [a]) && Final(s, [a]) == Apply(s, a)
  {
    hide Apply, Enabled;
    assert [a][1..] == [];
  }

  lemma {:induction false} RunsCompose(s: Stage, r1: seq<Action>, r2: seq<Action>)
    requires ValidRun(s, r1) && ValidRun(Final(s, r1), r2)
    ensures ValidRun(s, r1 + r2) && Final(s, r1 + r2) == Final(Final(s, r1), r2)
    decreases |r1|
  {
    if r1 == [] {
      assert r1 + r2 == r2;
    } else {
      assert (r1 + r2)[1..] == r1[1..] + r2;
      RunsCompose(Apply(s, r1[0]), r1[1..], r2);
    }
  }

  // ---- System frames come first ----

  function DataTaken(run: seq<Action>): nat {
    if run == [] then 0 else (if run[0].TakeData? then 1 else 0) + DataTaken(run[1..])
  }

  /**
   * A waiting system frame is taken before any further data frame; only a select that was already open
   * to both may still take one, so an interrupt never waits for more than a single frame.
   */
  lemma {:induction false} SystemFramesComeFirst(s: Stage, run: seq<Action>)
    requires ValidRun(s, run) && s.sysCh != [] && TakeSystem !in run
    ensures DataTaken(run) <= if s.input.Fair? then 1 else 0
    decreases |run|
  {
    hide Apply, Enabled;
    if run != [] {
      assert run[0] in run;
      SystemFrameWaits(s, run[0]);
      SystemFramesComeFirst(Apply(s, run[0]), run[1..]);
    }
  }

  lemma SystemFrameWaits(s: Stage, a: Action)
    requires Enabled(s, a) && s.sysCh != [] && a != TakeSystem
    ensures var t := Apply(s, a);
      t.sysCh != [] && (t.input.Fair? ==> s.input.Fair? && !a.TakeData?) && (a.TakeData? ==> s.input.Fair?)
  {
  }

  /** An interrupt leaves no interruptible frame in the process channel, and discards no other. */
  lemma PurgeIsExact(s: Stage, a: Action)
    requires Enabled(s, a) && a.DrainOne?
    ensures var t, e := Apply(s, a), s.procCh[0];
      if e.frame.EndFrame? || e.frame.FunctionCallInProgressFrame? || e.frame.FunctionCallResultFrame?
         || e.frame.InterruptFrame? || e.frame.ErrorFrame?
      then t.purged == s.purged && t.input.keep == s.input.keep + [e]
      else t.purged == s.purged + [e] && t.input.keep == s.input.keep
  {
  }

  /** Interrupt and error frames go ahead through a channel of their own, all others through the data channel. */
  lemma LanesAndCapacities(s: Stage, env: Envelope)
    ensures Enabled(s, AcceptSystem(env)) <==> (env.frame.InterruptFrame? || env.frame.ErrorFrame?) && |s.sysCh| < 16
    ensures Enabled(s, AcceptData(env)) <==>
      !env.frame.InterruptFrame? && !env.frame.ErrorFrame? && |s.dataCh| < 100
    ensures Enabled(s, ForwardData) <==> s.input.Holding? && |s.procCh| < 100
    ensures Enabled(s, AcceptData(env)) ==>
      Apply(s, AcceptData(env)) == s.(dataCh := s.dataCh + [env], accepted := s.accepted + [env])
    ensures Enabled(s, AcceptSystem(env)) ==> Apply(s, AcceptSystem(env)) == s.(sysCh := s.sysCh + [env])
  {
  }
}
