/**
 * What is said to the synthesizer: every piece of text reaches it once and in order, cut into
 * sentences; what is missing are the sentences a filter has emptied or a write has lost, no others.
 */
module SpokenText {
  import opened Frames
  import opened Text
  import opened Tts
  import G = TtsGuarantees

  /** Text given to the synthesizer in one go, and what the world answered to it. */
  datatype Piece = Piece(text: string, world: World)

  function Joined(pieces: seq<Piece>): string {
    if pieces == [] then "" else Joined(pieces[..|pieces| - 1]) + pieces[|pieces| - 1].text
  }

  /** What is written for some pieces: each as it is pronounced, unless its filter or its write fails. */
  function Written(ctx: string, pieces: seq<Piece>): seq<Wire> {
    if pieces == [] then []
    else
      var p := pieces[|pieces| - 1];
      Written(ctx, pieces[..|pieces| - 1]) + (if Lost(p) then [] else [Synthesize(ctx, Pronounced(p))])
  }

  /** A filter has left nothing of the piece, or its write has failed. */
  predicate Lost(p: Piece) {
    (p.world.filtered.Some? && Blank(p.world.filtered.value)) || !p.world.sends
  }

  function Pronounced(p: Piece): string {
    if p.world.filtered.Some? then p.world.filtered.value else p.text
  }

  predicate AllLost(pieces: seq<Piece>) {
    forall p :: p in pieces ==> Lost(p)
  }

  /** The texts of the text frames executed in a run, joined. */
  function Texts(run: seq<Step>): string {
    if run == [] then "" else TextOf(run[0]) + Texts(run[1..])
  }

  function TextOf(step: Step): string {
    if step.Execute? && step.cmd.env.frame.TextFrame? then step.cmd.env.frame.text else ""
  }

  /** A command that opens or closes a stretch of text. */
  predicate Bounds(step: Step) {
    step.Execute? && var f := step.cmd.env.frame;
    f.LLMResponseStartFrame? || f.TTSSpeakFrame? || f.InterruptFrame? || f.LLMResponseEndFrame? || f.EndFrame?
  }

  // ---- Where sentences end ----

  lemma SpeaksUnlessLost(text: string, w: World)
    ensures w.Speaks() <==> !Lost(Piece(text, w))
    ensures w.Speakable(text) == Pronounced(Piece(text, w))
  {
    if w.filtered.Some? {
      TrimmedAwayIff(w.filtered.value);
    }
  }

  /** Stops, question and exclamation marks, commas and dandas end a piece; letters, digits and blanks do not. */
  lemma SentencesEnd(s: string, c: char)
    ensures c in {'.', '?', '!', ',', ';', ':', '\U{0964}', '\U{0965}'} ==> EndsWithPunctuation(s + [c])
    ensures 'a' <= c <= 'z' || 'A' <= c <= 'Z' || '0' <= c <= '9' || c == ' ' || c == '\n' ==>
      !EndsWithPunctuation(s + [c])
    ensures !EndsWithPunctuation("")
  {
  }

  // ---- One step ----

  lemma JoinedSnoc(pieces: seq<Piece>, p: Piece)
    ensures Joined(pieces + [p]) == Joined(pieces) + p.text
  {
    assert (pieces + [p])[..|pieces|] == pieces;
  }

  lemma WrittenSnoc(ctx: string, pieces: seq<Piece>, p: Piece)
    ensures Written(ctx, pieces + [p]) ==
      Written(ctx, pieces) + (if Lost(p) then [] else [Synthesize(ctx, Pronounced(p))])
    ensures AllLost(pieces + [p]) <==> AllLost(pieces) && Lost(p)
  {
    assert (pieces + [p])[..|pieces|] == pieces;
    assert p in pieces + [p] && forall q :: q in pieces ==> q in pieces + [p];
  }

  /** What has been said and collected: the pieces so far, and the text still waiting for its sentence to end. */
  ghost predicate Says(s: State, t: State, text: string, pieces: seq<Piece>) {
    && Joined(pieces) + t.aggregation == s.aggregation + text
    && t.wire == s.wire + Written(s.ctx, pieces)
    && (forall p :: p in pieces ==> EndsWithPunctuation(p.text))
    && (!EndsWithPunctuation(s.aggregation) ==> !EndsWithPunctuation(t.aggregation))
    && t.ctx == s.ctx && t.pendingEnd.None?
  }

  /** Whether the synthesizer owes a done event, when none for this context has come in. */
  ghost predicate Owes(s: State, t: State, pieces: seq<Piece>) {
    && (Done(s.ctx) !in s.events ==> Done(s.ctx) !in t.events)
    && (Done(s.ctx) !in s.events ==> (t.textSent <==> s.textSent || !AllLost(pieces)))
  }

  lemma TextStep(s: State, text: string, w: World) returns (pieces: seq<Piece>)
    requires s.pendingEnd.None?
    ensures Says(s, AddText(s, text, w), text, pieces) && Owes(s, AddText(s, text, w), pieces)
    ensures forall p :: p in pieces ==> p.world == w
  {
    hide EndsWithPunctuation, Blank;
    var all := s.aggregation + text;
    SpeaksUnlessLost(all, w);
    if EndsWithPunctuation(all) {
      pieces := [Piece(all, w)];
      JoinedSnoc([], Piece(all, w));
      WrittenSnoc(s.ctx, [], Piece(all, w));
      assert [] + pieces == pieces && "" + all == all && all + "" == all;
      EmptyEndsNothing();
    } else {
      pieces := [];
      assert "" + all == all && s.wire + [] == s.wire;
    }
  }

  lemma EmptyEndsNothing()
    ensures !EndsWithPunctuation("")
  {
  }

  lemma QuietStep(s: State, step: Step)
    requires s.Wf() && Enabled(s, step) && s.pendingEnd.None? && !Bounds(step)
    requires !(step.Execute? && step.cmd.env.frame.TextFrame?)
    ensures var t := Next(s, step); Says(s, t, "", []) && (step != Receive(Done(s.ctx)) ==> Owes(s, t, []))
  {
    hide HandleEvent;
    var t := Next(s, step);
    assert s.wire + [] == s.wire && "" + s.aggregation == s.aggregation && s.aggregation + "" == s.aggregation;
    if step.Consume? {
      var u, e := s.(events := s.events[1..]), s.events[0];
      G.EventKeepsRest(u, e);
      assert e in s.events && forall d :: d in u.events ==> d in s.events;
      NothingHeld(u, e);
      assert e.Done? && s.ctx == e.ctx ==> e == Done(s.ctx);
    }
  }

  lemma NothingHeld(s: State, e: Event)
    requires s.Wf() && s.pendingEnd.None?
    ensures HandleEvent(s, e).pendingEnd.None?
  {
    if e.Done? && s.ctx != "" && s.ctx == e.ctx {
      hide FlushWords, PadLast;
      G.FlushPlays(s);
    } else {
      hide HandleEvent;
      G.EventKeepsRest(s, e);
    }
  }

  lemma OneStep(s: State, step: Step) returns (pieces: seq<Piece>)
    requires s.Wf() && Enabled(s, step) && s.pendingEnd.None? && !Bounds(step)
    ensures Says(s, Next(s, step), TextOf(step), pieces)
    ensures step != Receive(Done(s.ctx)) ==> Owes(s, Next(s, step), pieces)
    ensures forall p :: p in pieces ==> step.Execute? && p.world == step.world
  {
    hide Says, Owes, HandleEvent, AddText;
    if step.Execute? && step.cmd.env.frame.TextFrame? {
      pieces := TextStep(s, step.cmd.env.frame.text, step.world);
    } else {
      pieces := [];
      QuietStep(s, step);
    }
  }

  lemma {:induction false} JoinedConcat(a: seq<Piece>, b: seq<Piece>)
    ensures Joined(a + b) == Joined(a) + Joined(b)
    decreases |b|
  {
    if b == [] {
      assert a + b == a && Joined(a) + "" == Joined(a);
    } else {
      var init, p := b[..|b| - 1], b[|b| - 1];
      JoinedConcat(a, init);
      assert (a + b)[..|a + b| - 1] == a + init;
      assert (Joined(a) + Joined(init)) + p.text == Joined(a) + (Joined(init) + p.text);
    }
  }

  lemma {:induction false} WrittenConcat(ctx: string, a: seq<Piece>, b: seq<Piece>)
    ensures Written(ctx, a + b) == Written(ctx, a) + Written(ctx, b)
    decreases |b|
  {
    hide Lost, Pronounced;
    if b == [] {
      assert a + b == a && Written(ctx, a) + [] == Written(ctx, a);
    } else {
      var init, p := b[..|b| - 1], b[|b| - 1];
      WrittenConcat(ctx, a, init);
      assert (a + b)[..|a + b| - 1] == a + init;
      var x := if Lost(p) then [] else [Synthesize(ctx, Pronounced(p))];
      assert (Written(ctx, a) + Written(ctx, init)) + x == Written(ctx, a) + (Written(ctx, init) + x);
    }
  }

  lemma PiecesConcat(ctx: string, a: seq<Piece>, b: seq<Piece>)
    ensures Joined(a + b) == Joined(a) + Joined(b)
    ensures Written(ctx, a + b) == Written(ctx, a) + Written(ctx, b)
    ensures AllLost(a + b) <==> AllLost(a) && AllLost(b)
  {
    hide Joined, Written, Lost;
    JoinedConcat(a, b);
    WrittenConcat(ctx, a, b);
  }

  lemma SaysChain(s: State, t: State, u: State, x: string, y: string, a: seq<Piece>, b: seq<Piece>)
    requires Says(s, t, x, a) && Says(t, u, y, b)
    ensures Says(s, u, x + y, a + b)
    ensures Owes(s, t, a) && Owes(t, u, b) ==> Owes(s, u, a + b)
  {
    hide EndsWithPunctuation, Joined, Written, AllLost;
    PiecesConcat(s.ctx, a, b);
    assert (Joined(a) + Joined(b)) + u.aggregation == Joined(a) + (Joined(b) + u.aggregation);
    assert Joined(a) + (t.aggregation + y) == (Joined(a) + t.aggregation) + y;
    assert (s.aggregation + x) + y == s.aggregation + (x + y);
    assert (s.wire + Written(s.ctx, a)) + Written(s.ctx, b) == s.wire + (Written(s.ctx, a) + Written(s.ctx, b));
  }

  // ---- A stretch of text ----

  predicate NoBounds(run: seq<Step>) {
    forall step :: step in run ==> !Bounds(step)
  }

  /** The pieces were answered by the world of some command of the run. */
  ghost predicate AnsweredIn(pieces: seq<Piece>, run: seq<Step>) {
    forall p :: p in pieces ==> exists step :: step in run && step.Execute? && step.world == p.world
  }

  /**
   * Between two bounds, whatever the world answers: the texts executed are, joined to what had been
   * collected before, the pieces given to the synthesizer, in order, and the rest still collected.
   */
  lemma {:induction false} TextIsConserved(s: State, run: seq<Step>) returns (pieces: seq<Piece>)
    requires s.Wf() && s.pendingEnd.None? && G.ValidRun(s, run) && NoBounds(run)
    ensures Says(s, G.Final(s, run), Texts(run), pieces) && AnsweredIn(pieces, run)
    ensures Receive(Done(s.ctx)) !in run ==> Owes(s, G.Final(s, run), pieces)
    decreases |run|
  {
    hide Enabled, Next, Bounds, TextOf;
    if run == [] {
      pieces := [];
      assert s.wire + [] == s.wire && "" + s.aggregation == s.aggregation && s.aggregation + "" == s.aggregation;
    } else {
      hide Says, Owes, AnsweredIn;
      G.StepKeepsRate(s, run[0]);
      assert run[0] in run && forall step :: step in run[1..] ==> step in run;
      var first := OneStep(s, run[0]);
      var t := Next(s, run[0]);
      SaysKeeps(s, t, TextOf(run[0]), first);
      var rest := TextIsConserved(t, run[1..]);
      pieces := first + rest;
      SaysChain(s, t, G.Final(t, run[1..]), TextOf(run[0]), Texts(run[1..]), first, rest);
      AnsweredChain(first, rest, run);
    }
  }

  lemma SaysKeeps(s: State, t: State, text: string, pieces: seq<Piece>)
    requires Says(s, t, text, pieces)
    ensures t.ctx == s.ctx && t.pendingEnd.None?
  {
  }

  lemma AnsweredChain(first: seq<Piece>, rest: seq<Piece>, run: seq<Step>)
    requires run != [] && AnsweredIn(rest, run[1..])
    requires forall p :: p in first ==> run[0].Execute? && p.world == run[0].world
    ensures AnsweredIn(first + rest, run)
  {
    assert run[0] in run && forall step :: step in run[1..] ==> step in run;
  }

  // ---- With no filter and no failing write ----

  predicate Plain(step: Step) {
    step.Execute? ==> step.world.filtered.None? && step.world.sends
  }

  /** The texts written, joined. */
  function Said(wire: seq<Wire>): string {
    if wire == [] then ""
    else
      Said(wire[..|wire| - 1]) + (if wire[|wire| - 1].Synthesize? then wire[|wire| - 1].text else "")
  }

  lemma {:induction false} SaidConcat(a: seq<Wire>, b: seq<Wire>)
    ensures Said(a + b) == Said(a) + Said(b)
    decreases |b|
  {
    if b == [] {
      assert a + b == a && Said(a) + "" == Said(a);
    } else {
      var init, last := b[..|b| - 1], b[|b| - 1];
      SaidConcat(a, init);
      assert (a + b)[..|a + b| - 1] == a + init;
      var x := if last.Synthesize? then last.text else "";
      assert (Said(a) + Said(init)) + x == Said(a) + (Said(init) + x);
    }
  }

  lemma {:induction false} PlainPieces(ctx: string, pieces: seq<Piece>)
    requires forall p :: p in pieces ==> p.world.filtered.None? && p.world.sends
    ensures Said(Written(ctx, pieces)) == Joined(pieces)
  {
    if pieces != [] {
      var init, p := pieces[..|pieces| - 1], pieces[|pieces| - 1];
      assert p in pieces && forall q :: q in init ==> q in pieces;
      PlainPieces(ctx, init);
      SaidConcat(Written(ctx, init), [Synthesize(ctx, p.text)]);
      assert [Synthesize(ctx, p.text)][..0] == [];
      assert "" + p.text == p.text;
    }
  }

  /** Then what has been said is, together with what is still collected, exactly the texts executed. */
  lemma PlainTextIsConserved(s: State, run: seq<Step>)
    requires s.Wf() && s.pendingEnd.None? && G.ValidRun(s, run) && NoBounds(run)
    requires forall step :: step in run ==> Plain(step)
    ensures var t := G.Final(s, run);
      Said(t.wire) + t.aggregation == Said(s.wire) + s.aggregation + Texts(run)
  {
    hide G.Final, G.ValidRun, Texts, Said, Joined, Written;
    var pieces := TextIsConserved(s, run);
    PlainPieces(s.ctx, pieces);
    SaidConcat(s.wire, Written(s.ctx, pieces));
    var t := G.Final(s, run);
    assert Said(s.wire) + (s.aggregation + Texts(run)) == Said(s.wire) + s.aggregation + Texts(run);
    assert Said(s.wire) + Joined(pieces) + t.aggregation == Said(s.wire) + (Joined(pieces) + t.aggregation);
  }

  // ---- A whole response ----

  /** What is left at the end of a stretch, as a piece of its own unless it is blank. */
  function Rest(text: string, w: World): seq<Piece> {
    if Blank(text) then [] else [Piece(text, w)]
  }

  predicate IsStart(step: Step) {
    step.Execute? && step.cmd.env.frame.LLMResponseStartFrame?
  }

  lemma StartOpens(s: State, open: Step)
    requires s.Wf() && s.pendingEnd.None? && IsStart(open) && Enabled(s, open)
    ensures var t := Next(s, open);
      && t.ctx == ContextId(open.world.draw) && t.aggregation == "" && t.wire == s.wire && t.events == []
      && !t.textSent && t.pendingEnd.None? && !t.stopped
  {
  }

  /** The end of a response writes what is left unless it is blank, and completes the context or closes the turn. */
  lemma ResponseEnds(s: State, close: Step)
    requires s.Wf() && s.pendingEnd.None? && Enabled(s, close) && s.ctx != ""
    requires close.Execute? && close.cmd.env.frame.LLMResponseEndFrame?
    ensures var t, w := Next(s, close), close.world;
      var rest := Rest(s.aggregation, w);
      var owed := s.textSent || !AllLost(rest);
      && t.aggregation == "" && t.pcm == []
      && t.wire == s.wire + Written(s.ctx, rest) + (if owed && w.writes then [Finish(s.ctx)] else [])
      && t.textSent == (owed && w.writes)
      && t.pushed == s.pushed + (if owed then [] else [Envelope(TTSDoneFrame, Downstream)]) + [close.cmd.env]
  {
    RestIsWritten(s, close.world);
    var t := Next(s, close);
    assert s.pushed + [] == s.pushed;
    assert t.wire == s.wire + Written(s.ctx, Rest(s.aggregation, close.world)) +
                     (if t.textSent then [Finish(s.ctx)] else []);
  }

  lemma RestIsWritten(s: State, w: World)
    ensures var rest := Rest(s.aggregation, w);
      var t := if Blank(s.aggregation) then s else SendText(s, s.aggregation, w);
      t.wire == s.wire + Written(s.ctx, rest) && (t.textSent <==> s.textSent || !AllLost(rest))
  {
    hide Blank;
    SpeaksUnlessLost(s.aggregation, w);
    WrittenSnoc(s.ctx, [], Piece(s.aggregation, w));
    assert [] + [Piece(s.aggregation, w)] == [Piece(s.aggregation, w)];
    assert s.wire + [] == s.wire;
  }

  /**
   * A first EndFrame writes what is left unless it is blank, and is held back exactly if the
   * synthesizer then owes a done event.
   */
  lemma FirstEndFrame(s: State, close: Step)
    requires s.Wf() && s.pendingEnd.None? && Enabled(s, close)
    requires close.Execute? && close.cmd.env.frame.EndFrame?
    ensures var t, w := Next(s, close), close.world;
      var rest := Rest(s.aggregation, w);
      var owed := s.textSent || !AllLost(rest);
      var finished := owed && w.writes && s.ctx != "";
      && Blank(t.aggregation)
      && t.wire == s.wire + Written(s.ctx, rest) + (if finished then [Finish(s.ctx)] else [])
      && (t.pendingEnd.Some? <==> finished) && (t.stopped <==> !finished)
      && t.pushed == (if finished then s.pushed else s.pushed + [close.cmd.env])
      && (finished ==> t.pendingEnd == Some(Deferred(close.cmd.env, close.cmd.done)))
  {
    RestIsWritten(s, close.world);
    hide SendText;
    var u := FlushForEnd(s, close.world);
    var w := close.world;
    assert u.wire == s.wire + Written(s.ctx, Rest(s.aggregation, w)) + (if u.textSent then [Finish(s.ctx)] else []);
  }

  /** A prompt goes out as it is, in a context of its own that is completed at once. */
  lemma PromptIsSpoken(s: State, speak: Step, text: string)
    requires s.Wf() && s.pendingEnd.None? && Enabled(s, speak)
    requires speak.Execute? && speak.cmd.env.frame == TTSSpeakFrame(text)
    ensures var t, w, ctx := Next(s, speak), speak.world, ContextId(speak.world.draw);
      var lost := Lost(Piece(text, w));
      && t.ctx == ctx && t.aggregation == "" && t.textSent == (!lost && w.writes)
      && t.wire == s.wire + Written(ctx, [Piece(text, w)]) + (if !lost && w.writes then [Finish(ctx)] else [])
  {
    SpeaksUnlessLost(text, speak.world);
    WrittenSnoc(ContextId(speak.world.draw), [], Piece(text, speak.world));
    assert [] + [Piece(text, speak.world)] == [Piece(text, speak.world)];
    var t, w, ctx := Next(s, speak), speak.world, ContextId(speak.world.draw);
    assert t.wire == s.wire + Written(ctx, [Piece(text, w)]) + (if t.textSent then [Finish(ctx)] else []);
  }

  /** An interrupt gives up what is collected, and cancels the context if there is one. */
  lemma InterruptGivesUp(s: State, cmd: Command, w: World)
    requires s.pendingEnd.None? && cmd.env.frame.InterruptFrame?
    ensures var t := HandleCommand(s, cmd, w);
      && t.wire == s.wire + (if s.ctx != "" && w.writes then [Cancel(s.ctx)] else [])
      && t.aggregation == "" && t.ctx == "" && t.active == "" && t.pcm == [] && t.pending == [] && t.events == []
      && !t.textSent && t.framesPushed == 0 && t.pushed == s.pushed
  {
    assert s.wire + [] == s.wire;
  }

  /**
   * A whole response: from its start frame to its end, or to an EndFrame, the texts executed are
   * exactly the pieces given to the synthesizer in its context, up to a blank rest. If no done event
   * comes in before, the context is completed exactly when some piece was not lost.
   */
  lemma ResponseIsSpoken(s: State, open: Step, middle: seq<Step>, close: Step)
    returns (pieces: seq<Piece>, rest: string)
    requires s.Wf() && s.pendingEnd.None? && NoBounds(middle) && G.ValidRun(s, [open] + middle + [close])
    requires IsStart(open) && close.Execute?
    requires close.cmd.env.frame.LLMResponseEndFrame? || close.cmd.env.frame.EndFrame?
    requires Receive(Done(ContextId(open.world.draw))) !in middle
    ensures var t, ctx := G.Final(s, [open] + middle + [close]), ContextId(open.world.draw);
      && Joined(pieces) + rest == Texts(middle) && Blank(rest)
      && (forall i :: 0 <= i < |pieces| - 1 ==> EndsWithPunctuation(pieces[i].text))
      && var finished := !AllLost(pieces) && close.world.writes;
      && t.wire == s.wire + Written(ctx, pieces) + (if finished then [Finish(ctx)] else [])
      && (close.cmd.env.frame.EndFrame? ==> (t.pendingEnd.Some? <==> finished))
  {
    hide Next, Enabled, Blank, EndsWithPunctuation, Texts, Joined, Written, AllLost, NoBounds, G.ValidRun, G.Final;
    var u := OpenedRun(s, open, middle, close);
    assert [open] + middle + [close] == [open] + (middle + [close]);
    G.RunSplits(u, middle, close);
    var m, w, ctx := G.Final(u, middle), close.world, ContextId(open.world.draw);
    var first := TextIsConserved(u, middle);
    var last := Rest(m.aggregation, w);
    pieces, rest := first + last, if Blank(m.aggregation) then m.aggregation else "";
    PiecesConcat(ctx, first, last);
    assert first != [] ==> forall i :: 0 <= i < |first| ==> first[i] in first;
    RestJoined(m.aggregation, w);
    assert (Joined(first) + Joined(last)) + rest == Joined(first) + (Joined(last) + rest);
    assert "" + Texts(middle) == Texts(middle);
    if close.cmd.env.frame.EndFrame? {
      FirstEndFrame(m, close);
    } else {
      ResponseEnds(m, close);
    }
    assert (s.wire + Written(ctx, first)) + Written(ctx, last) == s.wire + (Written(ctx, first) + Written(ctx, last));
  }

  lemma RestJoined(text: string, w: World)
    ensures Joined(Rest(text, w)) + (if Blank(text) then text else "") == text
    ensures Blank(if Blank(text) then text else "")
  {
    hide Blank;
    if !Blank(text) {
      JoinedSnoc([], Piece(text, w));
      assert [] + [Piece(text, w)] == [Piece(text, w)] && "" + text == text && text + "" == text;
      EmptyIsBlank();
    }
  }

  lemma EmptyIsBlank()
    ensures Blank("")
  {
  }

  lemma OpenedRun(s: State, open: Step, middle: seq<Step>, close: Step) returns (u: State)
    requires s.Wf() && s.pendingEnd.None? && G.ValidRun(s, [open] + middle + [close]) && IsStart(open)
    ensures u.Wf() && G.ValidRun(u, middle + [close])
    ensures G.Final(s, [open] + middle + [close]) == G.Final(u, middle + [close])
    ensures u.ctx == ContextId(open.world.draw) && u.ctx != "" && u.aggregation == "" && u.wire == s.wire
    ensures u.events == [] && !u.textSent && u.pendingEnd.None?
  {
    hide Next, Enabled;
    var run := [open] + middle + [close];
    assert run[0] == open && run[1..] == middle + [close];
    G.StepKeepsRate(s, open);
    StartOpens(s, open);
    u := Next(s, open);
  }
}
