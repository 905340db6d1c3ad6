/**
 * Moving tool results behind the messages that request them: the loop over a map of groups, and
 * what its output is, said without that map.
 */
module ToolResultOrder {
  import opened Frames
  import opened Sequences

  /** A tool message that names the call it answers. */
  predicate IsResult(m: Message) {
    m.role == "tool" && m.toolCallID != ""
  }

  function NonTool(ms: seq<Message>): seq<Message> {
    if ms == [] then []
    else NonTool(ms[..|ms| - 1]) + (if IsResult(ms[|ms| - 1]) then [] else [ms[|ms| - 1]])
  }

  /** The results for one id, in order. */
  function Group(ms: seq<Message>, id: string): seq<Message> {
    if ms == [] then []
    else
      var m := ms[|ms| - 1];
      Group(ms[..|ms| - 1], id) + (if IsResult(m) && m.toolCallID == id then [m] else [])
  }

  /** The ids of the results, by first appearance. */
  function FirstIds(ms: seq<Message>): seq<string> {
    if ms == [] then []
    else
      var m, ids := ms[|ms| - 1], FirstIds(ms[..|ms| - 1]);
      if IsResult(m) && m.toolCallID !in ids then ids + [m.toolCallID] else ids
  }

  predicate Lists(calls: seq<ToolCall>, id: string) {
    calls != [] && (Lists(calls[..|calls| - 1], id) || calls[|calls| - 1].id == id)
  }

  predicate Requested(others: seq<Message>, id: string) {
    others != [] && (Requested(others[..|others| - 1], id) || Lists(others[|others| - 1].toolCalls, id))
  }

  /** The results that go behind a message listing `calls`, given the messages before it. */
  function Attached(before: seq<Message>, calls: seq<ToolCall>, ms: seq<Message>): seq<Message> {
    if calls == [] then []
    else
      var init, id := calls[..|calls| - 1], calls[|calls| - 1].id;
      if Requested(before, id) || Lists(init, id) then Attached(before, init, ms)
      else Attached(before, init, ms) + Group(ms, id)
  }

  function Body(others: seq<Message>, ms: seq<Message>): seq<Message> {
    if others == [] then []
    else
      var init, m := others[..|others| - 1], others[|others| - 1];
      Body(init, ms) + [m] + Attached(init, m.toolCalls, ms)
  }

  function Orphans(ids: seq<string>, others: seq<Message>, ms: seq<Message>): seq<Message> {
    if ids == [] then []
    else
      var init, id := ids[..|ids| - 1], ids[|ids| - 1];
      if Requested(others, id) then Orphans(init, others, ms) else Orphans(init, others, ms) + Group(ms, id)
  }

  /** Each group of results behind the first message that requests it; the rest at the end. */
  function Reorder(ms: seq<Message>): seq<Message> {
    Body(NonTool(ms), ms) + Orphans(FirstIds(ms), NonTool(ms), ms)
  }

  // ---- The selections distribute ----

  lemma {:induction false} NonToolConcat(a: seq<Message>, b: seq<Message>)
    ensures NonTool(a + b) == NonTool(a) + NonTool(b)
    decreases |b|
  {
    if b == [] {
      assert a + b == a;
    } else {
      NonToolConcat(a, b[..|b| - 1]);
      assert (a + b)[..|a + b| - 1] == a + b[..|b| - 1];
    }
  }

  lemma {:induction false} GroupConcat(a: seq<Message>, b: seq<Message>, id: string)
    ensures Group(a + b, id) == Group(a, id) + Group(b, id)
    decreases |b|
  {
    if b == [] {
      assert a + b == a;
    } else {
      GroupConcat(a, b[..|b| - 1], id);
      assert (a + b)[..|a + b| - 1] == a + b[..|b| - 1];
    }
  }

  lemma OneMessage(m: Message, id: string)
    ensures NonTool([m]) == if IsResult(m) then [] else [m]
    ensures Group([m], id) == if IsResult(m) && m.toolCallID == id then [m] else []
  {
    assert [m][..0] == [];
  }

  ghost predicate AreResultsFor(g: seq<Message>, id: string) {
    forall i :: 0 <= i < |g| ==> IsResult(g[i]) && g[i].toolCallID == id
  }

  lemma {:induction false} GroupMembers(ms: seq<Message>, id: string)
    ensures AreResultsFor(Group(ms, id), id)
    ensures NonTool(Group(ms, id)) == []
    decreases |ms|
  {
    if ms != [] {
      var init, m := ms[..|ms| - 1], ms[|ms| - 1];
      GroupMembers(init, id);
      assert Group(ms, id) == Group(init, id) + (if IsResult(m) && m.toolCallID == id then [m] else []);
    }
    NoOthersAmong(Group(ms, id), id);
  }

  lemma {:induction false} NoOthersAmong(g: seq<Message>, id: string)
    requires AreResultsFor(g, id)
    ensures NonTool(g) == []
  {
    if g != [] {
      NoOthersAmong(g[..|g| - 1], id);
    }
  }

  lemma {:induction false} WithoutIds(ms: seq<Message>)
    requires FirstIds(ms) == []
    ensures NonTool(ms) == ms
  {
    if ms != [] {
      WithoutIds(ms[..|ms| - 1]);
    }
  }

  lemma {:induction false} GroupOfGroup(ms: seq<Message>, i: string, id: string)
    ensures Group(Group(ms, i), id) == if i == id then Group(ms, id) else []
  {
    if ms != [] {
      var init, m := ms[..|ms| - 1], ms[|ms| - 1];
      GroupOfGroup(init, i, id);
      if IsResult(m) && m.toolCallID == i {
        GroupConcat(Group(init, i), [m], id);
        OneMessage(m, id);
      } else {
        assert Group(ms, i) == Group(init, i);
      }
    }
  }

  /** An id has results exactly when it is among the first ids; those are distinct and not empty. */
  lemma {:induction false} FirstIdsAre(ms: seq<Message>, id: string)
    ensures Group(ms, id) != [] <==> id in FirstIds(ms)
    ensures Distinct(FirstIds(ms))
  {
    if ms != [] {
      FirstIdsAre(ms[..|ms| - 1], id);
    }
  }

  lemma {:induction false} NonToolOthers(ms: seq<Message>)
    ensures forall i :: 0 <= i < |NonTool(ms)| ==> !IsResult(NonTool(ms)[i])
    ensures NonTool(NonTool(ms)) == NonTool(ms)
  {
    if ms != [] {
      NonToolOthers(ms[..|ms| - 1]);
      NonToolConcat(NonTool(ms[..|ms| - 1]), NonTool(ms)[|NonTool(ms[..|ms| - 1])|..]);
    }
  }

  // ---- What is kept ----

  lemma {:induction false} AttachedKeeps(before: seq<Message>, calls: seq<ToolCall>, ms: seq<Message>, id: string)
    ensures NonTool(Attached(before, calls, ms)) == []
    ensures Group(Attached(before, calls, ms), id) ==
      if Lists(calls, id) && !Requested(before, id) then Group(ms, id) else []
  {
    hide Group, NonTool, Requested;
    if calls == [] {
      assert NonTool([]) == [] && Group([], id) == [] by { EmptySelections(id); }
    } else {
      var init, i := calls[..|calls| - 1], calls[|calls| - 1].id;
      AttachedKeeps(before, init, ms, id);
      if !(Requested(before, i) || Lists(init, i)) {
        NonToolConcat(Attached(before, init, ms), Group(ms, i));
        GroupConcat(Attached(before, init, ms), Group(ms, i), id);
        GroupMembers(ms, i);
        GroupOfGroup(ms, i, id);
      }
    }
  }

  lemma EmptySelections(id: string)
    ensures NonTool([]) == [] && Group([], id) == []
  {
  }

  lemma {:induction false} BodyKeeps(others: seq<Message>, ms: seq<Message>, id: string)
    requires forall i :: 0 <= i < |others| ==> !IsResult(others[i])
    ensures NonTool(Body(others, ms)) == others
    ensures Group(Body(others, ms), id) == if Requested(others, id) then Group(ms, id) else []
  {
    hide Group, NonTool, Attached, Lists;
    if others == [] {
      EmptySelections(id);
    } else {
      var init, m := others[..|others| - 1], others[|others| - 1];
      BodyKeeps(init, ms, id);
      AttachedKeeps(init, m.toolCalls, ms, id);
      SelectionsAround(Body(init, ms), m, Attached(init, m.toolCalls, ms), id);
      assert init + [m] + [] == others;
    }
  }

  /** The selections of a list around a message that is no result. */
  lemma SelectionsAround(b: seq<Message>, m: Message, a: seq<Message>, id: string)
    requires !IsResult(m)
    ensures NonTool(b + [m] + a) == NonTool(b) + [m] + NonTool(a)
    ensures Group(b + [m] + a, id) == Group(b, id) + Group(a, id)
  {
    hide Group, NonTool;
    NonToolConcat(b + [m], a);
    NonToolConcat(b, [m]);
    GroupConcat(b + [m], a, id);
    GroupConcat(b, [m], id);
    OneMessage(m, id);
    assert Group(b, id) + [] == Group(b, id);
  }

  lemma {:induction false} OrphansKeep(ids: seq<string>, others: seq<Message>, ms: seq<Message>, id: string)
    requires Distinct(ids)
    ensures NonTool(Orphans(ids, others, ms)) == []
    ensures Group(Orphans(ids, others, ms), id) == if id in ids && !Requested(others, id) then Group(ms, id) else []
  {
    hide Group, NonTool, Requested;
    if ids == [] {
      EmptySelections(id);
    } else {
      var init, i := ids[..|ids| - 1], ids[|ids| - 1];
      OrphansKeep(init, others, ms, id);
      assert id in ids <==> id in init || id == i;
      if !Requested(others, i) {
        NonToolConcat(Orphans(init, others, ms), Group(ms, i));
        GroupConcat(Orphans(init, others, ms), Group(ms, i), id);
        GroupMembers(ms, i);
        GroupOfGroup(ms, i, id);
      }
    }
  }

  /** The order of the other messages, and of the results that share an id, stays as it was. */
  lemma ReorderKeepsOrder(ms: seq<Message>, id: string)
    ensures NonTool(Reorder(ms)) == NonTool(ms)
    ensures Group(Reorder(ms), id) == Group(ms, id)
  {
    hide Group, NonTool, FirstIds, Body, Orphans, Requested;
    var others, ids := NonTool(ms), FirstIds(ms);
    NonToolOthers(ms);
    FirstIdsAre(ms, id);
    BodyKeeps(others, ms, id);
    OrphansKeep(ids, others, ms, id);
    NonToolConcat(Body(others, ms), Orphans(ids, others, ms));
    GroupConcat(Body(others, ms), Orphans(ids, others, ms), id);
  }

  lemma CountSnoc(ms: seq<Message>, last: Message, m: Message)
    ensures multiset(ms + [last])[m] == multiset(ms)[m] + (if last == m then 1 else 0)
  {
  }

  lemma {:induction false} CountInGroup(ms: seq<Message>, m: Message)
    requires IsResult(m)
    ensures multiset(ms)[m] == multiset(Group(ms, m.toolCallID))[m]
  {
    hide IsResult;
    if ms != [] {
      var init, last := ms[..|ms| - 1], ms[|ms| - 1];
      CountInGroup(init, m);
      assert ms == init + [last];
      CountSnoc(init, last, m);
      CountSnoc(Group(init, m.toolCallID), last, m);
    }
  }

  lemma {:induction false} CountInOthers(ms: seq<Message>, m: Message)
    requires !IsResult(m)
    ensures multiset(ms)[m] == multiset(NonTool(ms))[m]
  {
    hide IsResult;
    if ms != [] {
      var init, last := ms[..|ms| - 1], ms[|ms| - 1];
      CountInOthers(init, m);
      assert ms == init + [last];
      CountSnoc(init, last, m);
      CountSnoc(NonTool(init), last, m);
    }
  }

  /** Every message is in exactly one selection. */
  lemma CountBySelection(ms: seq<Message>, m: Message)
    ensures multiset(ms)[m] == if IsResult(m) then multiset(Group(ms, m.toolCallID))[m] else multiset(NonTool(ms))[m]
  {
    hide Group, NonTool;
    if IsResult(m) {
      CountInGroup(ms, m);
    } else {
      CountInOthers(ms, m);
    }
  }

  /** Nothing is lost, added or changed. */
  lemma ReorderIsPermutation(ms: seq<Message>)
    ensures multiset(Reorder(ms)) == multiset(ms)
  {
    hide Reorder, Group, NonTool;
    forall m ensures multiset(Reorder(ms))[m] == multiset(ms)[m] {
      CountBySelection(ms, m);
      CountBySelection(Reorder(ms), m);
      ReorderKeepsOrder(ms, m.toolCallID);
    }
  }

  // ---- Where the results go ----

  /** The place of the first call with this id. */
  function Rank(calls: seq<ToolCall>, id: string): (k: nat)
    ensures Lists(calls, id) ==> k < |calls| && calls[k].id == id
    ensures !Lists(calls, id) ==> k == |calls|
  {
    if calls == [] then 0
    else
      var init := calls[..|calls| - 1];
      if Lists(init, id) then Rank(init, id)
      else if calls[|calls| - 1].id == id then |init| else |calls|
  }

  /**
   * Message i of r is a result that sits behind the first message listing its id, with nothing in
   * between but results that this message lists no later than it.
   */
  ghost predicate BehindRequest(r: seq<Message>, i: nat)
    requires i < |r|
  {
    exists j :: 0 <= j < i && FirstRequest(r, j, r[i].toolCallID) &&
      forall k :: j < k < i ==> IsResult(r[k]) && NoLater(r[j].toolCalls, r[k].toolCallID, r[i].toolCallID)
  }

  predicate NoLater(calls: seq<ToolCall>, a: string, b: string) {
    Rank(calls, a) <= Rank(calls, b)
  }

  predicate FirstRequest(r: seq<Message>, j: nat, id: string)
    requires j < |r|
  {
    !IsResult(r[j]) && Lists(r[j].toolCalls, id) && !Requested(NonTool(r[..j]), id)
  }

  /** Results that `calls` lists and nobody before requested, in the order of the calls. */
  ghost predicate InCallOrder(a: seq<Message>, before: seq<Message>, calls: seq<ToolCall>) {
    && (forall i :: 0 <= i < |a| ==>
          IsResult(a[i]) && Lists(calls, a[i].toolCallID) && !Requested(before, a[i].toolCallID))
    && (forall k, i :: 0 <= k < i < |a| ==> NoLater(calls, a[k].toolCallID, a[i].toolCallID))
  }

  lemma OneMoreGroup(b: seq<Message>, g: seq<Message>, before: seq<Message>, calls: seq<ToolCall>)
    requires calls != [] && InCallOrder(b, before, calls[..|calls| - 1])
    requires AreResultsFor(g, calls[|calls| - 1].id)
    requires Requested(before, calls[|calls| - 1].id) || Lists(calls[..|calls| - 1], calls[|calls| - 1].id) ==> g == []
    ensures InCallOrder(b + g, before, calls)
  {
    hide Requested;
    var init, a := calls[..|calls| - 1], b + g;
    forall i | 0 <= i < |a|
      ensures IsResult(a[i]) && Lists(calls, a[i].toolCallID) && !Requested(before, a[i].toolCallID)
    {
      assert a[i] == if i < |b| then b[i] else g[i - |b|];
    }
    forall k, i | 0 <= k < i < |a| ensures NoLater(calls, a[k].toolCallID, a[i].toolCallID) {
      if i < |b| {
        assert NoLater(init, b[k].toolCallID, b[i].toolCallID);
      } else {
        assert a[i] == g[i - |b|];
      }
    }
  }

  lemma {:induction false} AttachedInCallOrder(before: seq<Message>, calls: seq<ToolCall>, ms: seq<Message>)
    ensures InCallOrder(Attached(before, calls, ms), before, calls)
  {
    hide Requested, Group, Lists;
    if calls != [] {
      var init, id := calls[..|calls| - 1], calls[|calls| - 1].id;
      AttachedInCallOrder(before, init, ms);
      GroupMembers(ms, id);
      hide InCallOrder;
      if Requested(before, id) || Lists(init, id) {
        OneMoreGroup(Attached(before, init, ms), [], before, calls);
        assert Attached(before, init, ms) + [] == Attached(before, init, ms);
      } else {
        OneMoreGroup(Attached(before, init, ms), Group(ms, id), before, calls);
      }
    }
  }

  lemma {:induction false} BodyPlaces(others: seq<Message>, ms: seq<Message>, i: nat)
    requires forall i :: 0 <= i < |others| ==> !IsResult(others[i])
    requires i < |Body(others, ms)| && IsResult(Body(others, ms)[i])
    ensures BehindRequest(Body(others, ms), i)
  {
    hide Requested, Group, Attached, Rank, NoLater, Lists, NonTool;
    var init, m := others[..|others| - 1], others[|others| - 1];
    var b, r := Body(init, ms), Body(others, ms);
    assert r == b + [m] + Attached(init, m.toolCalls, ms);
    if i < |b| {
      BodyPlaces(init, ms, i);
      PlacedInLonger(b, r, i);
    } else {
      var a := Attached(init, m.toolCalls, ms);
      AttachedInCallOrder(init, m.toolCalls, ms);
      BodyKeeps(init, ms, "");
      var j := |b|;
      assert r[..j] == b;
      assert r[i] == a[i - j - 1];
      assert FirstRequest(r, j, r[i].toolCallID);
      forall k | j < k < i ensures IsResult(r[k]) && NoLater(r[j].toolCalls, r[k].toolCallID, r[i].toolCallID) {
        assert r[k] == a[k - j - 1];
      }
    }
  }

  lemma PlacedInLonger(b: seq<Message>, r: seq<Message>, i: nat)
    requires b <= r && i < |b| && BehindRequest(b, i)
    ensures BehindRequest(r, i)
  {
    hide Requested, Rank, NoLater, Lists, NonTool;
    var j :| 0 <= j < i && FirstRequest(b, j, b[i].toolCallID) &&
      forall k :: j < k < i ==> IsResult(b[k]) && NoLater(b[j].toolCalls, b[k].toolCallID, b[i].toolCallID);
    assert r[..j] == b[..j];
    assert FirstRequest(r, j, r[i].toolCallID);
  }

  lemma {:induction false} OrphansAreUnrequested(ids: seq<string>, others: seq<Message>, ms: seq<Message>)
    ensures forall i :: 0 <= i < |Orphans(ids, others, ms)| ==>
      IsResult(Orphans(ids, others, ms)[i]) && !Requested(others, Orphans(ids, others, ms)[i].toolCallID)
  {
    hide Requested, Group;
    if ids != [] {
      OrphansAreUnrequested(ids[..|ids| - 1], others, ms);
      GroupMembers(ms, ids[|ids| - 1]);
    }
  }

  /**
   * Every result sits behind the first message that requests it, in call order; the results nobody
   * requests come after everything else.
   */
  lemma ResultsArePlaced(ms: seq<Message>, i: nat)
    requires i < |Reorder(ms)| && IsResult(Reorder(ms)[i])
    ensures var r := Reorder(ms);
      if Requested(NonTool(ms), r[i].toolCallID) then BehindRequest(r, i)
      else forall k :: i <= k < |r| ==> IsResult(r[k]) && !Requested(NonTool(ms), r[k].toolCallID)
  {
    hide Requested, Group, Attached, Body, Orphans, BehindRequest;
    var r, others := Reorder(ms), NonTool(ms);
    NonToolOthers(ms);
    OrphansAreUnrequested(FirstIds(ms), others, ms);
    var b := Body(others, ms);
    if i < |b| {
      BodyPlaces(others, ms, i);
      PlacedInLonger(b, r, i);
      PlacedIsRequested(b, i);
      BodyKeeps(others, ms, "");
    }
  }

  lemma PlacedIsRequested(b: seq<Message>, i: nat)
    requires i < |b| && BehindRequest(b, i)
    ensures Requested(NonTool(b), b[i].toolCallID)
  {
    hide Rank, NoLater;
    var j :| 0 <= j < i && FirstRequest(b, j, b[i].toolCallID);
    ListedIsRequested(b, j, b[i].toolCallID);
  }

  lemma {:induction false} ListedIsRequested(b: seq<Message>, j: nat, id: string)
    requires j < |b| && !IsResult(b[j]) && Lists(b[j].toolCalls, id)
    ensures Requested(NonTool(b), id)
    decreases |b|
  {
    var init := b[..|b| - 1];
    if j < |init| {
      ListedIsRequested(init, j, id);
    }
    assert NonTool(init) == NonTool(b) || NonTool(b)[..|NonTool(b)| - 1] == NonTool(init);
  }

  // ---- Only the selections matter ----

  /** The orphan ids, by first appearance. */
  function OrphanIds(ids: seq<string>, others: seq<Message>): seq<string> {
    if ids == [] then []
    else
      var init, id := ids[..|ids| - 1], ids[|ids| - 1];
      if Requested(others, id) then OrphanIds(init, others) else OrphanIds(init, others) + [id]
  }

  function Groups(ids: seq<string>, ms: seq<Message>): seq<Message> {
    if ids == [] then [] else Groups(ids[..|ids| - 1], ms) + Group(ms, ids[|ids| - 1])
  }

  lemma {:induction false} OrphansByIds(ids: seq<string>, others: seq<Message>, ms: seq<Message>)
    ensures Orphans(ids, others, ms) == Groups(OrphanIds(ids, others), ms)
  {
    hide Requested, Group;
    if ids != [] {
      OrphansByIds(ids[..|ids| - 1], others, ms);
    }
  }

  lemma {:induction false} AttachedSame(before: seq<Message>, calls: seq<ToolCall>, a: seq<Message>, b: seq<Message>)
    requires forall id :: Group(a, id) == Group(b, id)
    ensures Attached(before, calls, a) == Attached(before, calls, b)
  {
    hide Requested, Group, Lists;
    if calls != [] {
      AttachedSame(before, calls[..|calls| - 1], a, b);
    }
  }

  lemma {:induction false} BodySame(others: seq<Message>, a: seq<Message>, b: seq<Message>)
    requires forall id :: Group(a, id) == Group(b, id)
    ensures Body(others, a) == Body(others, b)
  {
    hide Attached, Group;
    if others != [] {
      BodySame(others[..|others| - 1], a, b);
      AttachedSame(others[..|others| - 1], others[|others| - 1].toolCalls, a, b);
    }
  }

  lemma {:induction false} GroupsSame(ids: seq<string>, a: seq<Message>, b: seq<Message>)
    requires forall id :: Group(a, id) == Group(b, id)
    ensures Groups(ids, a) == Groups(ids, b)
  {
    hide Group;
    if ids != [] {
      GroupsSame(ids[..|ids| - 1], a, b);
    }
  }

  /** Two lists with the same other messages, groups and orphan order are reordered alike. */
  lemma {:induction false} ReorderBySelections(a: seq<Message>, b: seq<Message>)
    requires NonTool(a) == NonTool(b)
    requires forall id :: Group(a, id) == Group(b, id)
    requires OrphanIds(FirstIds(a), NonTool(a)) == OrphanIds(FirstIds(b), NonTool(b))
    ensures Reorder(a) == Reorder(b)
  {
    hide Group, NonTool, FirstIds, OrphanIds, Groups, Body, Orphans;
    BodySame(NonTool(a), a, b);
    OrphansByIds(FirstIds(a), NonTool(a), a);
    OrphansByIds(FirstIds(b), NonTool(b), b);
    GroupsSame(OrphanIds(FirstIds(a), NonTool(a)), a, b);
  }

  /** The orphan ids of a list, read off it directly. */
  function OrphanOrder(ms: seq<Message>, others: seq<Message>): seq<string> {
    if ms == [] then []
    else
      var m, ids := ms[|ms| - 1], OrphanOrder(ms[..|ms| - 1], others);
      if IsResult(m) && !Requested(others, m.toolCallID) && m.toolCallID !in ids then ids + [m.toolCallID] else ids
  }

  lemma {:induction false} InOrphanOrder(ms: seq<Message>, others: seq<Message>, id: string)
    ensures id in OrphanOrder(ms, others) <==> id in FirstIds(ms) && !Requested(others, id)
  {
    hide Requested;
    if ms != [] {
      InOrphanOrder(ms[..|ms| - 1], others, id);
    }
  }

  lemma {:induction false} OrphanOrderIs(ms: seq<Message>, others: seq<Message>)
    ensures OrphanOrder(ms, others) == OrphanIds(FirstIds(ms), others)
  {
    hide Requested;
    if ms != [] {
      var init, id := ms[..|ms| - 1], ms[|ms| - 1].toolCallID;
      OrphanOrderIs(init, others);
      InOrphanOrder(init, others, id);
      assert (FirstIds(init) + [id])[..|FirstIds(init)|] == FirstIds(init);
    }
  }

  /** Requested results in front do not matter. */
  lemma {:induction false} OrphanOrderOfConcat(a: seq<Message>, b: seq<Message>, others: seq<Message>)
    requires forall i :: 0 <= i < |a| && IsResult(a[i]) ==> Requested(others, a[i].toolCallID)
    ensures OrphanOrder(a + b, others) == OrphanOrder(b, others)
    decreases |a| + |b|
  {
    hide Requested;
    if b != [] {
      OrphanOrderOfConcat(a, b[..|b| - 1], others);
      assert (a + b)[..|a + b| - 1] == a + b[..|b| - 1];
    } else if a != [] {
      OrphanOrderOfConcat(a[..|a| - 1], [], others);
      assert a[..|a| - 1] + [] == a[..|a| - 1] && a + b == a;
    }
  }

  /** The groups of distinct ids, laid out in order, show those ids in that order. */
  lemma {:induction false} OrphanOrderOfGroups(ids: seq<string>, ms: seq<Message>, others: seq<Message>)
    requires Distinct(ids)
    requires forall i :: 0 <= i < |ids| ==> Group(ms, ids[i]) != [] && !Requested(others, ids[i])
    ensures OrphanOrder(Groups(ids, ms), others) == ids
  {
    hide Group, Requested;
    if ids != [] {
      var init, id := ids[..|ids| - 1], ids[|ids| - 1];
      OrphanOrderOfGroups(init, ms, others);
      GroupMembers(ms, id);
      OrphanOrderOfRun(Groups(init, ms), Group(ms, id), others, id);
    }
  }

  lemma {:induction false} OrphanOrderOfRun(a: seq<Message>, g: seq<Message>, others: seq<Message>, id: string)
    requires g != [] && AreResultsFor(g, id)
    requires id !in OrphanOrder(a, others) && !Requested(others, id)
    ensures OrphanOrder(a + g, others) == OrphanOrder(a, others) + [id]
    decreases |g|
  {
    hide Requested;
    var init := g[..|g| - 1];
    assert (a + g)[..|a + g| - 1] == a + init;
    if init == [] {
      assert a + init == a;
    } else {
      OrphanOrderOfRun(a, init, others, id);
    }
  }

  lemma {:induction false} InOrphanIds(ids: seq<string>, others: seq<Message>, id: string)
    ensures id in OrphanIds(ids, others) <==> id in ids && !Requested(others, id)
  {
    hide Requested;
    if ids != [] {
      InOrphanIds(ids[..|ids| - 1], others, id);
      assert ids == ids[..|ids| - 1] + [ids[|ids| - 1]];
    }
  }

  lemma {:induction false} OrphanIdsDistinct(ids: seq<string>, others: seq<Message>)
    requires Distinct(ids)
    ensures Distinct(OrphanIds(ids, others))
  {
    hide Requested;
    if ids != [] {
      OrphanIdsDistinct(ids[..|ids| - 1], others);
      InOrphanIds(ids[..|ids| - 1], others, ids[|ids| - 1]);
    }
  }

  lemma OrphanOrderKept(ms: seq<Message>)
    ensures OrphanIds(FirstIds(Reorder(ms)), NonTool(ms)) == OrphanIds(FirstIds(ms), NonTool(ms))
  {
    hide Group, NonTool, Requested, Body, Orphans, OrphanIds, FirstIds, Groups, BehindRequest, OrphanOrder;
    var others, ids := NonTool(ms), FirstIds(ms);
    var b, o := Body(others, ms), OrphanIds(ids, others);
    NonToolOthers(ms);
    BodyKeeps(others, ms, "");
    forall i | 0 <= i < |b| && IsResult(b[i]) ensures Requested(others, b[i].toolCallID) {
      BodyPlaces(others, ms, i);
      PlacedIsRequested(b, i);
    }
    OrphansByIds(ids, others, ms);
    OrphanOrderOfConcat(b, Orphans(ids, others, ms), others);
    FirstIdsAre(ms, "");
    OrphanIdsDistinct(ids, others);
    forall i | 0 <= i < |o| ensures Group(ms, o[i]) != [] && !Requested(others, o[i]) {
      InOrphanIds(ids, others, o[i]);
      FirstIdsAre(ms, o[i]);
    }
    OrphanOrderOfGroups(o, ms, others);
    OrphanOrderIs(Reorder(ms), others);
  }

  /** Reordering a second time changes nothing. */
  lemma ReorderIsIdempotent(ms: seq<Message>)
    ensures Reorder(Reorder(ms)) == Reorder(ms)
  {
    hide Reorder, Group, NonTool, FirstIds, OrphanIds;
    forall id ensures Group(Reorder(ms), id) == Group(ms, id) && NonTool(Reorder(ms)) == NonTool(ms) {
      ReorderKeepsOrder(ms, id);
    }
    ReorderKeepsOrder(ms, "");
    OrphanOrderKept(ms);
    ReorderBySelections(Reorder(ms), ms);
  }

  // ---- The code ----

  lemma {:induction false} NothingAttached(before: seq<Message>, calls: seq<ToolCall>, ms: seq<Message>)
    requires forall id :: Group(ms, id) == []
    ensures Attached(before, calls, ms) == []
  {
    hide Requested, Group;
    if calls != [] {
      NothingAttached(before, calls[..|calls| - 1], ms);
    }
  }

  lemma {:induction false} BodyWithoutResults(others: seq<Message>, ms: seq<Message>)
    requires forall id :: Group(ms, id) == []
    ensures Body(others, ms) == others
  {
    hide Attached, Group;
    if others != [] {
      BodyWithoutResults(others[..|others| - 1], ms);
      NothingAttached(others[..|others| - 1], others[|others| - 1].toolCalls, ms);
    }
  }

  /** The map holds the groups that no earlier message, and none of the calls so far, has taken. */
  ghost predicate Left(byID: map<string, seq<Message>>, before: seq<Message>, calls: seq<ToolCall>, ms: seq<Message>) {
    && (forall id :: id in byID <==> Group(ms, id) != [] && !Requested(before, id) && !Lists(calls, id))
    && (forall id :: id in byID ==> byID[id] == Group(ms, id))
  }

  lemma NoResults(ms: seq<Message>, byID: map<string, seq<Message>>)
    requires Left(byID, [], [], ms) && |byID| == 0
    ensures Reorder(ms) == ms
  {
    hide Group, NonTool, Body;
    assert byID.Keys == {};
    forall id ensures Group(ms, id) == [] {
      assert id !in byID;
    }
    BodyWithoutResults(NonTool(ms), ms);
    if FirstIds(ms) != [] {
      FirstIdsAre(ms, FirstIds(ms)[0]);
    }
    WithoutIds(ms);
  }

  method PlaceBehind(m: Message, before: seq<Message>, byID: map<string, seq<Message>>, ghost ms: seq<Message>)
    returns (placed: seq<Message>, left: map<string, seq<Message>>)
    requires Left(byID, before, [], ms)
    ensures placed == [m] + Attached(before, m.toolCalls, ms)
    ensures Left(left, before + [m], [], ms)
  {
    hide Group, Requested;
    placed, left := [m], byID;
    for i := 0 to |m.toolCalls|
      invariant placed == [m] + Attached(before, m.toolCalls[..i], ms)
      invariant Left(left, before, m.toolCalls[..i], ms)
    {
      assert m.toolCalls[..i + 1][..i] == m.toolCalls[..i];
      var id := m.toolCalls[i].id;
      if id == "" {
        EmptyIdHasNone(ms);
        continue;
      }
      if id in left {
        placed := placed + left[id];
        left := left - {id};
      }
    }
    assert m.toolCalls[..|m.toolCalls|] == m.toolCalls;
    RequestedSnoc(before, m);
  }

  lemma RequestedSnoc(before: seq<Message>, m: Message)
    ensures forall id :: Requested(before + [m], id) <==> Requested(before, id) || Lists(m.toolCalls, id)
  {
    assert (before + [m])[..|before|] == before;
  }

  lemma EmptyIdHasNone(ms: seq<Message>)
    ensures Group(ms, "") == []
  {
    FirstIdsAre(ms, "");
    GroupMembers(ms, "");
  }

  /** The map holds the groups of all messages so far. */
  ghost predicate Grouped(byID: map<string, seq<Message>>, ms: seq<Message>) {
    && (forall id :: id in byID <==> Group(ms, id) != [])
    && (forall id :: id in byID ==> byID[id] == Group(ms, id))
  }

  lemma OneMore(ms: seq<Message>, m: Message)
    ensures NonTool(ms + [m]) == if IsResult(m) then NonTool(ms) else NonTool(ms) + [m]
    ensures FirstIds(ms + [m]) ==
      if IsResult(m) && m.toolCallID !in FirstIds(ms) then FirstIds(ms) + [m.toolCallID] else FirstIds(ms)
    ensures forall id ::
      Group(ms + [m], id) == (if IsResult(m) && m.toolCallID == id then Group(ms, id) + [m] else Group(ms, id))
  {
    assert (ms + [m])[..|ms|] == ms;
  }

  /** A result joins its group, or begins one; any other message leaves the groups alone. */
  lemma GroupedMore(byID: map<string, seq<Message>>, ms: seq<Message>, m: Message)
    requires Grouped(byID, ms)
    ensures m.toolCallID in byID <==> m.toolCallID in FirstIds(ms)
    ensures !IsResult(m) ==> Grouped(byID, ms + [m])
    ensures IsResult(m) ==>
      var group := if m.toolCallID in byID then byID[m.toolCallID] else [];
      Grouped(byID[m.toolCallID := group + [m]], ms + [m])
  {
    hide Group, FirstIds, NonTool;
    OneMore(ms, m);
    FirstIdsAre(ms, m.toolCallID);
  }

  lemma AllLeft(byID: map<string, seq<Message>>, ms: seq<Message>)
    requires Grouped(byID, ms)
    ensures Left(byID, [], [], ms)
  {
    hide Group;
  }

  /** Sorts the messages into the results, by id, and the others. */
  method Split(ms: seq<Message>)
    returns (nonTool: seq<Message>, byID: map<string, seq<Message>>, order: seq<string>)
    ensures nonTool == NonTool(ms) && order == FirstIds(ms) && Left(byID, [], [], ms)
  {
    hide Group, Grouped, NonTool, FirstIds, Left;
    nonTool, byID, order := [], map[], [];
    NothingYet();
    for i := 0 to |ms|
      invariant nonTool == NonTool(ms[..i]) && order == FirstIds(ms[..i])
      invariant Grouped(byID, ms[..i])
    {
      assert ms[..i + 1] == ms[..i] + [ms[i]];
      var m := ms[i];
      OneMore(ms[..i], m);
      GroupedMore(byID, ms[..i], m);
      if m.role != "tool" || m.toolCallID == "" {
        nonTool := nonTool + [m];
        continue;
      }
      if m.toolCallID !in byID {
        order := order + [m.toolCallID];
        assert [] + [m] == [m];
        byID := byID[m.toolCallID := [m]];
      } else {
        byID := byID[m.toolCallID := byID[m.toolCallID] + [m]];
      }
    }
    assert ms[..|ms|] == ms;
    AllLeft(byID, ms);
  }

  lemma NothingYet()
    ensures NonTool([]) == [] && FirstIds([]) == [] && Grouped(map[], [])
  {
  }

  method ReorderToolResultMessages(ms: seq<Message>) returns (ordered: seq<Message>)
    ensures ordered == Reorder(ms)
  {
    hide Group, Requested, NonTool, FirstIds, Lists;
    var nonTool, byID, order := Split(ms);
    if |byID| == 0 {
      NoResults(ms, byID);
      return ms;
    }
    ordered := [];
    for i := 0 to |nonTool|
      invariant ordered == Body(nonTool[..i], ms) && Left(byID, nonTool[..i], [], ms)
    {
      assert nonTool[..i + 1][..i] == nonTool[..i] && nonTool[..i] + [nonTool[i]] == nonTool[..i + 1];
      var placed: seq<Message>;
      placed, byID := PlaceBehind(nonTool[i], nonTool[..i], byID, ms);
      ordered := ordered + placed;
    }
    assert nonTool[..|nonTool|] == nonTool;
    var orphans := PlaceOrphans(order, nonTool, byID, ms);
    ordered := ordered + orphans;
  }

  method PlaceOrphans(order: seq<string>, ghost others: seq<Message>, byID: map<string, seq<Message>>,
                      ghost ms: seq<Message>) returns (placed: seq<Message>)
    requires Left(byID, others, [], ms)
    ensures placed == Orphans(order, others, ms)
  {
    hide Group, Requested;
    placed := [];
    for i := 0 to |order|
      invariant placed == Orphans(order[..i], others, ms)
    {
      assert order[..i + 1][..i] == order[..i];
      if order[i] in byID {
        placed := placed + byID[order[i]];
      } else if !Requested(others, order[i]) {
        assert placed + Group(ms, order[i]) == placed;
      }
    }
    assert order[..|order|] == order;
  }
}
