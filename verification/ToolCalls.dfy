/**
 * Merging streamed tool-call fragments. What the accumulator lists is read off the stream itself:
 * for each index, in order of first appearance, the merge of the fragments that carry it.
 */
module ToolCalls {
  import opened Frames

  datatype Delta = Delta(index: int, part: ToolCall)

  /** The indices of a stream, by first appearance. */
  function Order(stream: seq<Delta>): seq<int> {
    if stream == [] then []
    else
      var order, i := Order(stream[..|stream| - 1]), stream[|stream| - 1].index;
      if i in order then order else order + [i]
  }

  /** The fragments for one index, in order. */
  function Parts(stream: seq<Delta>, index: int): seq<ToolCall> {
    if stream == [] then []
    else
      var d := stream[|stream| - 1];
      Parts(stream[..|stream| - 1], index) + (if d.index == index then [d.part] else [])
  }

  function Names(parts: seq<ToolCall>): string {
    if parts == [] then "" else Names(parts[..|parts| - 1]) + parts[|parts| - 1].name
  }

  function Arguments(parts: seq<ToolCall>): string {
    if parts == [] then "" else Arguments(parts[..|parts| - 1]) + parts[|parts| - 1].arguments
  }

  function LastId(parts: seq<ToolCall>): string {
    if parts == [] then ""
    else if parts[|parts| - 1].id != "" then parts[|parts| - 1].id
    else LastId(parts[..|parts| - 1])
  }

  function LastKind(parts: seq<ToolCall>): (kind: string)
    ensures kind != ""
  {
    if parts == [] then "function"
    else if parts[|parts| - 1].kind != "" then parts[|parts| - 1].kind
    else LastKind(parts[..|parts| - 1])
  }

  /** Names and arguments are put together; the last id and type given stand. */
  function Merge(parts: seq<ToolCall>): ToolCall {
    ToolCall(LastId(parts), LastKind(parts), Names(parts), Arguments(parts))
  }

  predicate Worthless(c: ToolCall) {
    c.name == "" && c.arguments == ""
  }

  function Listed(order: seq<int>, stream: seq<Delta>): seq<ToolCall> {
    if order == [] then []
    else
      var c := Merge(Parts(stream, order[|order| - 1]));
      Listed(order[..|order| - 1], stream) + (if Worthless(c) then [] else [c])
  }

  function Merged(stream: seq<Delta>): seq<ToolCall> {
    Listed(Order(stream), stream)
  }

  // ---- The accumulator ----

  class ToolCallAccumulator {
    var calls: map<int, ToolCall>
    var order: seq<int>
    /** What has been added so far. */
    ghost var stream: seq<Delta>

    ghost predicate Valid()
      reads this
    {
      && order == Order(stream)
      && (forall i :: i in calls <==> i in order)
      && (forall i :: i in calls ==> calls[i] == Merge(Parts(stream, i)))
    }

    constructor ()
      ensures Valid() && stream == []
    {
      calls, order, stream := map[], [], [];
    }

    method Add(index: int, delta: ToolCall)
      requires Valid()
      modifies this
      ensures Valid() && stream == old(stream) + [Delta(index, delta)]
    {
      hide Merge, Order, Parts;
      var call := ToolCall("", "", "", "");
      if index in calls {
        call := calls[index];
      } else {
        order := order + [index];
        call := call.(kind := "function");
      }
      if delta.id != "" {
        call := call.(id := delta.id);
      }
      if delta.kind != "" {
        call := call.(kind := delta.kind);
      }
      call := call.(name := call.name + delta.name);
      call := call.(arguments := call.arguments + delta.arguments);
      AddedDelta(stream, index, delta);
      NoParts(stream, index);
      calls := calls[index := call];
      stream := stream + [Delta(index, delta)];
    }

    method List() returns (out: seq<ToolCall>)
      requires Valid()
      ensures out == Merged(stream)
    {
      hide Merge, Order, Parts;
      out := [];
      for k := 0 to |order|
        invariant out == Listed(order[..k], stream)
      {
        assert order[..k + 1][..k] == order[..k];
        var index := order[k];
        assert index in calls;
        var call := calls[index];
        MergedHasKind(Parts(stream, index));
        if call.kind == "" {
          call := call.(kind := "function");
        }
        if call.name == "" && call.arguments == "" {
          continue;
        }
        out := out + [call];
      }
      assert order[..|order|] == order;
    }
  }

  /** Adding a fragment: its index joins the order, and its parts grow by it. */
  lemma AddedDelta(stream: seq<Delta>, index: int, part: ToolCall)
    ensures var more := stream + [Delta(index, part)];
      && Order(more) == (if index in Order(stream) then Order(stream) else Order(stream) + [index])
      && (forall i :: i != index ==> Parts(more, i) == Parts(stream, i))
      && var before, after := Merge(Parts(stream, index)), Merge(Parts(more, index));
      && after.name == before.name + part.name && after.arguments == before.arguments + part.arguments
      && after.id == (if part.id != "" then part.id else before.id)
      && after.kind == (if part.kind != "" then part.kind else before.kind)
  {
    var more := stream + [Delta(index, part)];
    assert more[..|stream|] == stream;
    var parts := Parts(stream, index);
    assert (parts + [part])[..|parts|] == parts;
  }

  lemma {:induction false} NoParts(stream: seq<Delta>, index: int)
    ensures index !in Order(stream) ==> Merge(Parts(stream, index)) == ToolCall("", "function", "", "")
    ensures index !in Order(stream) ==> Parts(stream, index) == []
  {
    if stream != [] {
      NoParts(stream[..|stream| - 1], index);
    }
  }

  lemma MergedHasKind(parts: seq<ToolCall>)
    ensures Merge(parts).kind != ""
  {
  }

  // ---- The interleaving does not matter ----

  /**
   * Two streams with the same fragments for each index, in the same order, and with the indices
   * first appearing in the same order, give the same list: how the fragments of different calls
   * interleave is irrelevant.
   */
  lemma MergeIsConfluent(a: seq<Delta>, b: seq<Delta>)
    requires Order(a) == Order(b)
    requires forall i :: Parts(a, i) == Parts(b, i)
    ensures Merged(a) == Merged(b)
  {
    hide Order, Parts, Merge;
    ListedSame(Order(a), a, b);
  }

  lemma {:induction false} ListedSame(order: seq<int>, a: seq<Delta>, b: seq<Delta>)
    requires forall i :: Parts(a, i) == Parts(b, i)
    ensures Listed(order, a) == Listed(order, b)
  {
    hide Parts, Merge;
    if order != [] {
      ListedSame(order[..|order| - 1], a, b);
    }
  }

  lemma {:induction false} PartsConcat(a: seq<Delta>, b: seq<Delta>, i: int)
    ensures Parts(a + b, i) == Parts(a, i) + Parts(b, i)
    decreases |b|
  {
    if b == [] {
      assert a + b == a;
    } else {
      PartsConcat(a, b[..|b| - 1], i);
      assert (a + b)[..|a + b| - 1] == a + b[..|b| - 1];
    }
  }

  lemma {:induction false} OrderConcat(a: seq<Delta>, b: seq<Delta>, c: seq<Delta>)
    requires Order(a) == Order(b)
    ensures Order(a + c) == Order(b + c)
    decreases |c|
  {
    if c == [] {
      assert a + c == a && b + c == b;
    } else {
      OrderConcat(a, b, c[..|c| - 1]);
      assert (a + c)[..|a + c| - 1] == a + c[..|c| - 1];
      assert (b + c)[..|b + c| - 1] == b + c[..|c| - 1];
    }
  }

  lemma SwapKeepsSelections(before: seq<Delta>, x: Delta, y: Delta, i: int)
    requires x.index != y.index && (x.index in Order(before) || y.index in Order(before))
    ensures Order(before + [x, y]) == Order(before + [y, x])
    ensures Parts(before + [x, y], i) == Parts(before + [y, x], i)
  {
    hide Merge, Order, Parts;
    AddedDelta(before, x.index, x.part);
    AddedDelta(before, y.index, y.part);
    AddedDelta(before + [x], y.index, y.part);
    AddedDelta(before + [y], x.index, x.part);
    assert before + [x] + [y] == before + [x, y] && before + [y] + [x] == before + [y, x];
    PartsOfTwo(before, x, y, i);
    PartsOfTwo(before, y, x, i);
  }

  lemma PartsOfTwo(before: seq<Delta>, x: Delta, y: Delta, i: int)
    ensures Parts(before + [x, y], i) ==
      Parts(before, i) + (if x.index == i then [x.part] else []) + (if y.index == i then [y.part] else [])
  {
    assert (before + [x, y])[..|before| + 1] == before + [x];
    assert (before + [x])[..|before|] == before;
  }

  /** In particular, neighbouring fragments of different calls may be swapped once one call has begun. */
  lemma NeighboursMayBeSwapped(before: seq<Delta>, x: Delta, y: Delta, rest: seq<Delta>)
    requires x.index != y.index && (x.index in Order(before) || y.index in Order(before))
    ensures Merged(before + [x, y] + rest) == Merged(before + [y, x] + rest)
  {
    hide Order, Parts, Merged;
    var a, b := before + [x, y], before + [y, x];
    SwapKeepsSelections(before, x, y, 0);
    OrderConcat(a, b, rest);
    forall i ensures Parts(a + rest, i) == Parts(b + rest, i) {
      SwapKeepsSelections(before, x, y, i);
      PartsConcat(a, rest, i);
      PartsConcat(b, rest, i);
    }
    MergeIsConfluent(a + rest, b + rest);
  }

  // ---- What is listed, and in which order ----

  /** Some fragment of the call says anything. */
  ghost predicate SaysSomething(stream: seq<Delta>, index: int) {
    exists d :: d in stream && d.index == index && (d.part.name != "" || d.part.arguments != "")
  }

  /** Where an index first appears; the length of the stream if it does not. */
  function FirstAt(stream: seq<Delta>, index: int): (k: nat)
    ensures k <= |stream|
  {
    if stream == [] then 0
    else
      var k := FirstAt(stream[..|stream| - 1], index);
      if k < |stream| - 1 || stream[k].index == index then k else |stream|
  }

  /** The indices stand in the order in which they first appear. */
  ghost predicate ByAppearance(stream: seq<Delta>, indices: seq<int>) {
    forall a, b :: 0 <= a < b < |indices| ==> FirstAt(stream, indices[a]) < FirstAt(stream, indices[b])
  }

  lemma {:induction false} WorthlessIff(stream: seq<Delta>, index: int)
    ensures !Worthless(Merge(Parts(stream, index))) <==> SaysSomething(stream, index)
    decreases |stream|
  {
    hide Merge, Parts;
    if stream == [] {
      NothingMerged(index);
    } else {
      var init, d := stream[..|stream| - 1], stream[|stream| - 1];
      WorthlessIff(init, index);
      assert stream == init + [d];
      AddedDelta(init, d.index, d.part);
      assert d in stream && forall e :: e in stream <==> e in init || e == d;
    }
  }

  lemma NothingMerged(index: int)
    ensures Worthless(Merge(Parts([], index)))
  {
  }

  lemma {:induction false} OrderIsFirstAt(stream: seq<Delta>)
    ensures forall i :: i in Order(stream) <==> FirstAt(stream, i) < |stream|
    ensures ByAppearance(stream, Order(stream))
  {
    if stream != [] {
      var init, last := stream[..|stream| - 1], stream[|stream| - 1];
      OrderIsFirstAt(init);
      forall i ensures FirstAt(stream, i) ==
          if i in Order(init) then FirstAt(init, i) else if i == last.index then |init| else |stream|
      {
      }
      var order := Order(init);
      forall a, b | 0 <= a < b < |Order(stream)|
        ensures FirstAt(stream, Order(stream)[a]) < FirstAt(stream, Order(stream)[b])
      {
        assert order[a] in order && (b < |order| ==> order[b] in order);
      }
    }
  }

  /** Those of some indices that are listed, in order. */
  function Kept(order: seq<int>, stream: seq<Delta>): seq<int> {
    if order == [] then []
    else
      var i := order[|order| - 1];
      Kept(order[..|order| - 1], stream) + (if Worthless(Merge(Parts(stream, i))) then [] else [i])
  }

  lemma {:induction false} ListedIsKept(order: seq<int>, stream: seq<Delta>)
    ensures |Listed(order, stream)| == |Kept(order, stream)|
    ensures forall k :: 0 <= k < |Kept(order, stream)| ==>
      Listed(order, stream)[k] == Merge(Parts(stream, Kept(order, stream)[k]))
    decreases |order|
  {
    hide Merge, Parts, Worthless;
    if order != [] {
      ListedIsKept(order[..|order| - 1], stream);
    }
  }

  lemma {:induction false} KeptAre(order: seq<int>, stream: seq<Delta>)
    requires ByAppearance(stream, order)
    ensures forall i :: i in Kept(order, stream) <==> i in order && SaysSomething(stream, i)
    ensures ByAppearance(stream, Kept(order, stream))
    decreases |order|
  {
    hide Merge, Parts, Worthless, FirstAt, SaysSomething;
    if order != [] {
      var init, i := order[..|order| - 1], order[|order| - 1];
      KeptAre(init, stream);
      WorthlessIff(stream, i);
      var kept := Kept(init, stream);
      forall a | 0 <= a < |kept| ensures FirstAt(stream, kept[a]) < FirstAt(stream, i) {
        assert kept[a] in kept;
        var b :| 0 <= b < |init| && init[b] == kept[a];
        assert FirstAt(stream, order[b]) < FirstAt(stream, order[|init|]);
      }
      AppearsLast(stream, kept, i);
    }
  }

  lemma AppearsLast(stream: seq<Delta>, kept: seq<int>, i: int)
    requires ByAppearance(stream, kept)
    requires forall a :: 0 <= a < |kept| ==> FirstAt(stream, kept[a]) < FirstAt(stream, i)
    ensures ByAppearance(stream, kept + [i]) && ByAppearance(stream, kept + [])
  {
    hide FirstAt;
    assert kept + [] == kept;
  }

  /**
   * The list holds exactly the calls of which some fragment says anything, each as the merge of its
   * fragments, in the order in which their indices first appear.
   */
  lemma ListIsInOrder(stream: seq<Delta>) returns (kept: seq<int>)
    ensures |kept| == |Merged(stream)|
    ensures forall k :: 0 <= k < |kept| ==> Merged(stream)[k] == Merge(Parts(stream, kept[k]))
    ensures forall i :: i in kept <==> SaysSomething(stream, i)
    ensures ByAppearance(stream, kept)
  {
    hide Merge, Parts, Order, FirstAt, Listed, Kept;
    kept := Kept(Order(stream), stream);
    OrderIsFirstAt(stream);
    ListedIsKept(Order(stream), stream);
    KeptAre(Order(stream), stream);
    forall i | SaysSomething(stream, i) ensures i in Order(stream) {
      SpeakersAppear(stream, i);
    }
  }

  lemma {:induction false} SpeakersAppear(stream: seq<Delta>, index: int)
    requires exists d :: d in stream && d.index == index
    ensures index in Order(stream)
    decreases |stream|
  {
    var init, last := stream[..|stream| - 1], stream[|stream| - 1];
    if last.index != index {
      var d :| d in stream && d.index == index;
      assert d in init;
      SpeakersAppear(init, index);
    }
  }
}
