/** What an Anthropic client has after streaming a cut-up message, against the whole
    message that the non-streaming path returns. */
module ClientContent {
  import opened Wrappers
  import opened Canonical
  import opened ChatStream
  import opened Blocks
  import opened Assembly
  import opened Agreement
  import opened Arrival
  import AC = AnthropicClient
  import AF = AnthropicFacts
  import Anthropic
  import BL = BlockLifecycle
  import BR = BlockReading
  import DT = DoneText
  import F = ChatStreamFacts
  import Ordered

  // ----- orderly chunks never go back to an earlier channel -----

  /** Reasoning comes in stage 0, text in stage 0 or 1, calls in any. */
  predicate Allowed(stage: nat, ev: Event) {
    (ev.ReasoningDelta? ==> stage == 0) && (ev.TextDelta? ==> stage <= 1)
  }

  function StageAfter(stage: nat, ev: Event): nat {
    if ev.ToolCallStart? || ev.Completed? then 2 else if ev.TextDelta? && stage == 0 then 1 else stage
  }

  function StageAfterAll(stage: nat, evs: seq<Event>): nat
    decreases evs
  {
    if evs == [] then stage else StageAfterAll(StageAfter(stage, evs[0]), evs[1..])
  }

  predicate Staged(stage: nat, evs: seq<Event>)
    decreases evs
  {
    evs == [] || (Allowed(stage, evs[0]) && Staged(StageAfter(stage, evs[0]), evs[1..]))
  }

  lemma {:induction false} StagedAppend(stage: nat, a: seq<Event>, b: seq<Event>)
    requires Staged(stage, a) && Staged(StageAfterAll(stage, a), b)
    ensures Staged(stage, a + b) && StageAfterAll(stage, a + b) == StageAfterAll(StageAfterAll(stage, a), b)
    decreases a
  {
    if a == [] {
      assert a + b == b;
    } else {
      assert (a + b)[0] == a[0] && (a + b)[1..] == a[1..] + b;
      StagedAppend(StageAfter(stage, a[0]), a[1..], b);
    }
  }

  lemma {:induction false} StagedLower(low: nat, high: nat, evs: seq<Event>)
    requires low <= high <= 2 && Staged(high, evs)
    ensures Staged(low, evs)
    decreases evs
  {
    if evs != [] { StagedLower(StageAfter(low, evs[0]), StageAfter(high, evs[0]), evs[1..]); }
  }

  /** Nothing of an earlier stage is said later. */
  lemma {:induction false} StagedLater(stage: nat, evs: seq<Event>, k: nat)
    requires stage <= 2 && Staged(stage, evs) && k < |evs|
    ensures (DT.Speaks(evs[k], Thought) ==> stage == 0) && (DT.Speaks(evs[k], Speech) ==> stage <= 1)
    decreases evs
  {
    if k > 0 {
      assert evs[1..][k - 1] == evs[k];
      StagedLater(StageAfter(stage, evs[0]), evs[1..], k - 1);
    }
  }

  lemma {:induction false} NoReturn(stage: nat, evs: seq<Event>, j: nat, k: nat, ch: Channel)
    requires stage <= 2 && Staged(stage, evs) && j < k < |evs| && DT.EndsTurn(evs[j], ch)
    ensures !DT.Speaks(evs[k], ch)
    decreases evs
  {
    var stage', rest := StageAfter(stage, evs[0]), evs[1..];
    assert rest[k - 1] == evs[k];
    if j == 0 {
      StagedLater(stage', rest, k - 1);
    } else {
      assert rest[j - 1] == evs[j];
      NoReturn(stage', rest, j - 1, k - 1, ch);
    }
  }

  lemma StagedNeverReturns(evs: seq<Event>, ch: Channel)
    requires Staged(0, evs)
    ensures !DT.Returns(evs, ch)
  {
    forall i: nat, j: nat, k: nat ensures !DT.ReturnsAt(evs, i, j, k, ch) {
      if DT.ReturnsAt(evs, i, j, k, ch) { NoReturn(0, evs, j, k, ch); }
    }
  }

  predicate Mute(evs: seq<Event>) {
    forall k :: 0 <= k < |evs| ==> !evs[k].ReasoningDelta? && !evs[k].TextDelta?
  }

  lemma {:induction false} MuteStaged(stage: nat, evs: seq<Event>)
    requires stage <= 2 && Mute(evs)
    ensures Staged(stage, evs) && StageAfterAll(stage, evs) <= 2
    ensures (forall k :: 0 <= k < |evs| ==> !evs[k].ToolCallStart? && !evs[k].Completed?)
      ==> StageAfterAll(stage, evs) == stage
    decreases evs
  {
    if evs != [] {
      assert forall k :: 0 <= k < |evs[1..]| ==> evs[1..][k] == evs[k + 1];
      MuteStaged(StageAfter(stage, evs[0]), evs[1..]);
    }
  }

  function StageOf(spoken: bool, called: bool): nat {
    if called then 2 else if spoken then 1 else 0
  }

  lemma HeadStaged(p: Parser, d: Digest, stage: nat)
    requires d.Content? && stage <= 2 && (d.reasoning != "" ==> stage == 0) && (d.content != "" ==> stage <= 1)
    ensures Staged(stage, HeadEvents(p, d))
    ensures StageAfterAll(stage, HeadEvents(p, d)) == if d.content != "" && stage == 0 then 1 else stage
  {
    var a := CreatedEvents(p, d.model);
    var b := if d.reasoning == "" then [] else [ReasoningDelta(d.reasoning)];
    var c := if d.content == "" then [] else [TextDelta(d.content)];
    OneStaged(stage, Created(p.responseId, d.model));
    OneStaged(stage, ReasoningDelta(d.reasoning));
    OneStaged(stage, TextDelta(d.content));
    StagedAppend(stage, b, c);
    StagedAppend(stage, a, b + c);
  }

  lemma OneStaged(stage: nat, ev: Event)
    ensures Staged(stage, []) && StageAfterAll(stage, []) == stage
    ensures Staged(stage, [ev]) <==> Allowed(stage, ev)
    ensures StageAfterAll(stage, [ev]) == StageAfter(stage, ev)
  {
    assert [ev][1..] == [];
    assert StageAfterAll(StageAfter(stage, ev), []) == StageAfter(stage, ev);
  }

  lemma EmitStaged(p: Parser, d: Digest, spoken: bool, called: bool)
    requires d.Content? && (spoken ==> d.reasoning == "") && (called ==> d.reasoning == "" && d.content == "")
    ensures var stage := StageOf(spoken, called);
      && Staged(stage, Emit(p, d))
      && StageAfterAll(stage, Emit(p, d)) <= StageOf(spoken || d.content != "", called || d.entries != [])
  {
    var stage, started := StageOf(spoken, called), p.started + Indices(d.entries);
    var head, mid, tail := HeadEvents(p, d), EntriesEvents(p.started, d.entries), TailEvents(started, d);
    EmitParts(p, d);
    HeadStaged(p, d, stage);
    var stage1 := StageAfterAll(stage, head);
    F.EntriesAreToolEvents(p.started, d.entries);
    MuteStaged(stage1, mid);
    F.TailStartsNothing(started, d);
    MuteStaged(StageAfterAll(stage1, mid), tail);
    StagedAppend(stage1, mid, tail);
    StagedAppend(stage, head, mid + tail);
  }

  lemma {:induction false} FeedStaged(p: Parser, ds: seq<Digest>, spoken: bool, called: bool, finished: bool)
    requires Orderly(spoken, called, finished, ds)
    ensures Staged(StageOf(spoken, called), F.Feed(p, ds))
    decreases ds
  {
    if ds != [] {
      var d, p' := ds[0], Advance(p, ds[0]);
      var spoken', called' := spoken || d.content != "", called || d.entries != [];
      EmitStaged(p, d, spoken, called);
      FeedStaged(p', ds[1..], spoken', called', finished || d.finishes);
      StagedLower(StageAfterAll(StageOf(spoken, called), Emit(p, d)), StageOf(spoken', called'), F.Feed(p', ds[1..]));
      StagedAppend(StageOf(spoken, called), Emit(p, d), F.Feed(p', ds[1..]));
    }
  }

  // ----- what the client has -----

  function Rendered(read: Anthropic.JsonReader, parts: seq<Part>): seq<Anthropic.Block> {
    seq(|parts|, k requires 0 <= k < |parts| => Anthropic.DoneBlock(read, parts[k]))
  }

  /** The client's content after a stream that carries `ds` and completes. */
  ghost function ClientHas(read: Anthropic.JsonReader, p: Parser, ds: seq<Digest>): seq<Anthropic.Block> {
    AC.ContentRead(read, AF.RunFrames(INIT, false, F.Feed(p, ds) + [Completed]))
  }

  lemma FeedNeverReopens(p: Parser, ds: seq<Digest>)
    requires p.started == {}
    ensures BL.NoReopen({}, F.Feed(p, ds))
  {
    F.FeedStartsOnce(p, ds);
    F.StartsOnceNeverReopens({}, {}, F.Feed(p, ds));
  }

  lemma FeedLists(read: Anthropic.JsonReader, p: Parser, ds: seq<Digest>, m: Digest)
    requires Cuts(ds, m) && p.started == {}
    ensures var state := Run(INIT, F.Feed(p, ds) + [Completed]).state;
      && |ClientHas(read, p, ds)| == state.next && AC.Lists(read, state.done, ClientHas(read, p, ds))
      && multiset(ClientHas(read, p, ds)) == multiset(Anthropic.Content(read, state.done))
  {
    FeedNeverReopens(p, ds);
    FeedStaged(p, ds, false, false, false);
    StagedNeverReturns(F.Feed(p, ds), Thought);
    StagedNeverReturns(F.Feed(p, ds), Speech);
    AC.ClientLists(read, F.Feed(p, ds));
  }

  /** The client reads the reasoning, the text, and the calls in order of arrival. */
  lemma ClientReadsPlaces(read: Anthropic.JsonReader, p: Parser, ds: seq<Digest>, m: Digest)
    requires Cuts(ds, m) && p.started == {}
    ensures ClientHas(read, p, ds) == Rendered(read, Places(m.reasoning, m.content, AllEntries(ds)))
  {
    FeedLists(read, p, ds, m);
    StreamedPlaces(p, ds, m);
    ListsPlaces(read, Run(INIT, F.Feed(p, ds) + [Completed]).state.done, ClientHas(read, p, ds),
      Places(m.reasoning, m.content, AllEntries(ds)));
  }

  lemma ListsPlaces(read: Anthropic.JsonReader, done: seq<Sealed>, got: seq<Anthropic.Block>, places: seq<Part>)
    requires AC.Lists(read, done, got) && |got| == |places| && forall d :: d in done ==> InPlace(d, places)
    ensures got == Rendered(read, places)
  {
    forall i: nat | i < |got| ensures got[i] == Anthropic.DoneBlock(read, places[i]) {
      assert i in BR.Numbers(done);
      var k :| 0 <= k < |done| && BR.Numbers(done)[k] == i;
      assert done[k] in done;
    }
  }

  /** The client's blocks are those of the whole message, perhaps in another order. */
  lemma ClientHasAll(read: Anthropic.JsonReader, p: Parser, ds: seq<Digest>, m: Digest)
    requires Cuts(ds, m) && p.started == {}
    ensures multiset(ClientHas(read, p, ds))
      == multiset(Rendered(read, Spoken(m.reasoning, m.content) + WholeCalls(m.entries)))
  {
    var done := Run(INIT, F.Feed(p, ds) + [Completed]).state.done;
    FeedLists(read, p, ds, m);
    StreamedParts(p, ds, m);
    ContentOfParts(read, done);
  }

  lemma ContentOfParts(read: Anthropic.JsonReader, done: seq<Sealed>)
    ensures Anthropic.Content(read, done) == Rendered(read, Parts(done))
  {
  }

  // ----- in which order -----

  predicate DistinctIds(calls: seq<ToolEntry>) {
    forall i, j :: 0 <= i < j < |calls| ==> calls[i].callId != calls[j].callId
  }

  /** First fragments arrive in ascending index order. */
  predicate ArrivesInOrder(es: seq<ToolEntry>) {
    Ordered.Increasing(FirstSeen(es))
  }

  lemma InOrderAlready(es: seq<ToolEntry>)
    ensures ArrivesInOrder(es) <==> FirstSeen(es) == InOrder(es)
  {
    FirstSeenOnce(es);
    if ArrivesInOrder(es) { Ordered.IncreasingUnique(FirstSeen(es), InOrder(es)); }
  }

  lemma SameIdSameCall(es: seq<ToolEntry>, calls: seq<ToolEntry>, x: nat, k: nat)
    requires CutsCalls(es, calls) && DistinctIds(calls) && x in Indices(es) && k < |calls|
    requires CallOf(es, x).callId == calls[k].callId
    ensures x == InOrder(es)[k]
  {
    var order := InOrder(es);
    assert x in Ordered.Elements(order);
    var q :| 0 <= q < |order| && order[q] == x;
    assert CallOf(es, x) == WholeCall(calls[q]);
    assert q == k;
  }

  /** The two orders render alike exactly if calls with distinct ids arrive in order. */
  lemma OrderExactly(read: Anthropic.JsonReader, r: string, t: string, es: seq<ToolEntry>, calls: seq<ToolEntry>)
    requires CutsCalls(es, calls)
    ensures var got, whole := Rendered(read, Places(r, t, es)), Rendered(read, Spoken(r, t) + WholeCalls(calls));
      && (ArrivesInOrder(es) ==> got == whole)
      && (DistinctIds(calls) && got == whole ==> ArrivesInOrder(es))
  {
    var got, whole := Rendered(read, Places(r, t, es)), Rendered(read, Spoken(r, t) + WholeCalls(calls));
    InOrderAlready(es);
    AssembledWhole(es, calls);
    if DistinctIds(calls) && got == whole {
      assert |FirstSeen(es)| == |calls|;
      forall k: nat | k < |calls| ensures FirstSeen(es)[k] == InOrder(es)[k] {
        SamePlaceSameCall(read, r, t, es, calls, k);
      }
      assert FirstSeen(es) == InOrder(es);
    }
  }

  lemma SamePlaceSameCall(read: Anthropic.JsonReader, r: string, t: string, es: seq<ToolEntry>,
                          calls: seq<ToolEntry>, k: nat)
    requires CutsCalls(es, calls) && DistinctIds(calls) && k < |calls| == |FirstSeen(es)|
    requires Rendered(read, Places(r, t, es)) == Rendered(read, Spoken(r, t) + WholeCalls(calls))
    ensures FirstSeen(es)[k] == InOrder(es)[k]
  {
    var base, x := |Spoken(r, t)|, FirstSeen(es)[k];
    var mine, theirs := Rendered(read, Places(r, t, es))[base + k],
      Rendered(read, Spoken(r, t) + WholeCalls(calls))[base + k];
    assert mine == Anthropic.DoneBlock(read, CallOf(es, x));
    assert theirs == Anthropic.DoneBlock(read, WholeCall(calls[k]));
    SameIdSameCall(es, calls, x, k);
  }

  /** A message whose second call's fragment comes first: the client lists that call
      first, the whole message last. */
  lemma SwappedFragments(read: Anthropic.JsonReader, p: Parser, a: ToolEntry, b: ToolEntry)
    requires p.started == {} && a.callId != b.callId
    ensures var ds, m := [SwappedChunk(a, b)], PairMessage(a, b);
      && Cuts(ds, m) && !ArrivesInOrder(AllEntries(ds))
      && ClientHas(read, p, ds) == Rendered(read, [WholeCall(b), WholeCall(a)])
      && Anthropic.Final(read, Run(INIT, F.Feed(p, ds) + [Completed]).state).content
           == Rendered(read, [WholeCall(a), WholeCall(b)])
      && ClientHas(read, p, ds) != Rendered(read, [WholeCall(a), WholeCall(b)])
  {
    var ds, m := [SwappedChunk(a, b)], PairMessage(a, b);
    SwappedCuts(a, b);
    ClientReadsPlaces(read, p, ds, m);
    FinalContent(read, p, ds, m);
    assert WholeCalls(m.entries) == [WholeCall(a), WholeCall(b)];
    assert Rendered(read, [WholeCall(a), WholeCall(b)])[0] != Rendered(read, [WholeCall(b), WholeCall(a)])[0];
  }

  function SwappedChunk(a: ToolEntry, b: ToolEntry): Digest {
    Content("", "", "", [b.(index := 1), a.(index := 0)], true, None)
  }

  function PairMessage(a: ToolEntry, b: ToolEntry): Digest {
    Content("", "", "", [a, b], false, None)
  }

  /** The finished message lists the calls in index order. */
  lemma FinalContent(read: Anthropic.JsonReader, p: Parser, ds: seq<Digest>, m: Digest)
    requires Cuts(ds, m) && p.started == {}
    ensures Anthropic.Final(read, Run(INIT, F.Feed(p, ds) + [Completed]).state).content
      == Rendered(read, Spoken(m.reasoning, m.content) + WholeCalls(m.entries))
  {
    var state := Run(INIT, F.Feed(p, ds) + [Completed]).state;
    StreamedParts(p, ds, m);
    ContentOfParts(read, state.done);
  }

  lemma SwappedCuts(a: ToolEntry, b: ToolEntry)
    ensures var d := SwappedChunk(a, b);
      && Cuts([d], PairMessage(a, b)) && AllEntries([d]) == d.entries && !ArrivesInOrder(d.entries)
      && Places("", "", d.entries) == [WholeCall(b), WholeCall(a)]
  {
    var d := SwappedChunk(a, b);
    assert [d][1..] == [];
    assert AllEntries([d]) == d.entries + [] == d.entries;
    assert F.Fragments([d], Thought) == "" + F.Fragments([], Thought) == "";
    assert F.Fragments([d], Speech) == "" + F.Fragments([], Speech) == "";
    SwappedEntries(a, b);
    assert FirstSeen(d.entries)[0] > FirstSeen(d.entries)[1];
  }

  lemma OneIndex(x: ToolEntry)
    ensures Indices([x]) == {x.index} && FirstSeen([x]) == [x.index]
  {
    NoEntries({});
    assert [] + [x] == [x];
    IndicesSnoc([], x);
    FirstSeenSnoc([], x);
  }

  lemma TwoElements(x: nat, y: nat)
    requires y < x
    ensures Ordered.Elements([y, x]) == {x, y} && Ordered.Increasing([y, x])
  {
  }

  lemma TwoIndices(x: ToolEntry, y: ToolEntry)
    requires y.index < x.index
    ensures Indices([x, y]) == {x.index, y.index}
    ensures FirstSeen([x, y]) == [x.index, y.index] && InOrder([x, y]) == [y.index, x.index]
  {
    assert [x, y] == [x] + [y];
    OneIndex(x);
    IndicesSnoc([x], y);
    FirstSeenSnoc([x], y);
    TwoElements(x.index, y.index);
    Ordered.IncreasingUnique([y.index, x.index], InOrder([x, y]));
  }

  lemma TwoArgs(x: ToolEntry, y: ToolEntry)
    requires y.index < x.index
    ensures F.EntryArgs([x, y], x.index) == x.args && F.EntryArgs([x, y], y.index) == y.args
  {
    assert [x, y][1..] == [y] && [y][1..] == [];
    assert F.EntryArgs([y], y.index) == y.args + "" == y.args && F.EntryArgs([y], x.index) == "" + "";
    assert x.args + "" == x.args;
  }

  lemma TwoFirst(x: ToolEntry, y: ToolEntry)
    requires y.index < x.index && Indices([x, y]) == {x.index, y.index}
    ensures FirstEntry([x, y], x.index) == x && FirstEntry([x, y], y.index) == y
  {
    assert [x, y][1..] == [y];
    IndicesStep([x, y]);
    IndicesStep([y]);
  }

  lemma SwappedEntries(a: ToolEntry, b: ToolEntry)
    ensures var es := [b.(index := 1), a.(index := 0)];
      && Indices(es) == {0, 1} && InOrder(es) == [0, 1] && FirstSeen(es) == [1, 0]
      && CallOf(es, 0) == WholeCall(a) && CallOf(es, 1) == WholeCall(b)
  {
    TwoIndices(b.(index := 1), a.(index := 0));
    TwoArgs(b.(index := 1), a.(index := 0));
    TwoFirst(b.(index := 1), a.(index := 0));
  }
}
