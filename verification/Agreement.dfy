/** The streaming and the non-streaming path deliver the same message: however an
    assistant message is cut into stream chunks, the machine ends with the content
    it ends with on the whole message. */
module Agreement {
  import opened Wrappers
  import opened Json
  import opened Canonical
  import opened ChatStream
  import opened Blocks
  import opened Arrival
  import opened Assembly
  import opened MessageMeta
  import F = ChatStreamFacts
  import Ordered

  function AllEntries(ds: seq<Digest>): seq<ToolEntry> {
    if ds == [] then [] else (if ds[0].Content? then ds[0].entries else []) + AllEntries(ds[1..])
  }

  /** Reasoning precedes text, text precedes tool calls, and no tool fragment
      follows a finish chunk. */
  predicate Orderly(spoken: bool, called: bool, finished: bool, ds: seq<Digest>)
    decreases ds
  {
    ds == [] ||
    (&& ds[0].Content?
     && (spoken ==> ds[0].reasoning == "")
     && (called ==> ds[0].reasoning == "" && ds[0].content == "")
     && (finished ==> ds[0].entries == [])
     && Orderly(spoken || ds[0].content != "", called || ds[0].entries != [], finished || ds[0].finishes, ds[1..]))
  }

  /** The chunks `ds` are some way of cutting up the message `m`. */
  ghost predicate Cuts(ds: seq<Digest>, m: Digest) {
    && m.Content? && ds != [] && Orderly(false, false, false, ds)
    && ds[0].model == m.model
    && F.Fragments(ds, Thought) == m.reasoning
    && F.Fragments(ds, Speech) == m.content
    && LastUsage(None, ds) == m.usage
    && CutsCalls(AllEntries(ds), m.entries)
  }

  /** Tool fragments arrive in any interleaving, under any indices, with gaps or not
      from zero; the k-th smallest index stands for the k-th call. Its first fragment
      carries the call's id and name, and its fragments join to the arguments. */
  ghost predicate CutsCalls(es: seq<ToolEntry>, calls: seq<ToolEntry>) {
    && |InOrder(es)| == |calls|
    && forall k :: 0 <= k < |calls| ==> CallOf(es, InOrder(es)[k]) == WholeCall(calls[k])
  }

  function WholeCall(e: ToolEntry): Part {
    Call(e.callId, e.name, e.args)
  }

  function WholeCalls(calls: seq<ToolEntry>): seq<Part> {
    seq(|calls|, k requires 0 <= k < |calls| => WholeCall(calls[k]))
  }

  // ----- a whole run -----

  /** What has been said so far, and whether a finish chunk was seen. */
  datatype Seen = Seen(r: string, t: string, es: seq<ToolEntry>, finished: bool)

  function Extend(seen: Seen, d: Digest): Seen {
    if d.Failure? then seen
    else Seen(seen.r + d.reasoning, seen.t + d.content, seen.es + d.entries, seen.finished || d.finishes)
  }

  function ExtendAll(seen: Seen, ds: seq<Digest>): Seen
    decreases ds
  {
    if ds == [] then seen else ExtendAll(Extend(seen, ds[0]), ds[1..])
  }

  ghost predicate Reaches(s: State, seen: Seen) {
    OnCourse(s, seen.r, seen.t, seen.es, seen.finished)
  }

  predicate Follows(seen: Seen, ds: seq<Digest>) {
    Orderly(seen.t != "", seen.es != [], seen.finished, ds)
  }

  lemma {:induction false} FollowsContent(seen: Seen, ds: seq<Digest>)
    requires Follows(seen, ds)
    ensures forall k :: 0 <= k < |ds| ==> ds[k].Content?
    decreases ds
  {
    if ds != [] {
      FollowsContent(Extend(seen, ds[0]), ds[1..]);
      assert ds == [ds[0]] + ds[1..];
    }
  }

  lemma {:induction false} ExtendAllSays(seen: Seen, ds: seq<Digest>)
    requires forall k :: 0 <= k < |ds| ==> ds[k].Content?
    ensures var all := ExtendAll(seen, ds);
      && all.r == seen.r + F.Fragments(ds, Thought)
      && all.t == seen.t + F.Fragments(ds, Speech)
      && all.es == seen.es + AllEntries(ds)
    decreases ds
  {
    if ds != [] {
      var d := ds[0];
      ExtendAllSays(Extend(seen, d), ds[1..]);
      assert (seen.r + d.reasoning) + F.Fragments(ds[1..], Thought)
        == seen.r + (d.reasoning + F.Fragments(ds[1..], Thought));
      assert (seen.t + d.content) + F.Fragments(ds[1..], Speech) == seen.t + (d.content + F.Fragments(ds[1..], Speech));
      assert (seen.es + d.entries) + AllEntries(ds[1..]) == seen.es + (d.entries + AllEntries(ds[1..]));
    }
  }

  lemma {:induction false} FeedOnCourse(p: Parser, ds: seq<Digest>, s: State, seen: Seen)
    requires p.started == Indices(seen.es) && Reaches(s, seen) && Follows(seen, ds)
    ensures Reaches(Run(s, F.Feed(p, ds)).state, ExtendAll(seen, ds))
    decreases ds
  {
    if ds != [] {
      ChunkOnCourse(p, ds, s, seen);
      FeedFirst(p, ds, s);
      FeedOnCourse(Advance(p, ds[0]), ds[1..], Run(s, Emit(p, ds[0])).state, Extend(seen, ds[0]));
    }
  }

  lemma FeedFirst(p: Parser, ds: seq<Digest>, s: State)
    requires ds != []
    ensures Run(s, F.Feed(p, ds)).state == Run(Run(s, Emit(p, ds[0])).state, F.Feed(Advance(p, ds[0]), ds[1..])).state
  {
    RunAppend(s, Emit(p, ds[0]), F.Feed(Advance(p, ds[0]), ds[1..]));
  }

  lemma ChunkOnCourse(p: Parser, ds: seq<Digest>, s: State, seen: Seen)
    requires ds != [] && p.started == Indices(seen.es) && Reaches(s, seen) && Follows(seen, ds)
    ensures ds[0].Content? && Follows(Extend(seen, ds[0]), ds[1..])
    ensures Reaches(Run(s, Emit(p, ds[0])).state, Extend(seen, ds[0]))
    ensures Advance(p, ds[0]).started == Indices(Extend(seen, ds[0]).es)
  {
    EmitPlaced(p, ds[0], s, seen.r, seen.t, seen.es, seen.finished);
  }

  lemma CompletedShape(s: State, r: string, t: string, es: seq<ToolEntry>, finished: bool)
    requires Shape(s, r, t, es, finished)
    ensures Parts(Finish(s).state.done) == Spoken(r, t) + Assembled(es, InOrder(es))
    ensures Finish(s).state.called <==> es != []
  {
    var a := CloseSpoken(s).state;
    if es == [] {
      CloseSpokenShape(s, r, t);
      CloseNothing(a, Ordered.Ascending(a.calls.Keys));
      Ordered.NonEmptyElements(InOrder(es));
      assert Assembled(es, InOrder(es)) == [] by { assert Indices(es) == {}; }
    } else if finished {
      CloseNothing(a, Ordered.Ascending(a.calls.Keys));
    } else {
      assert a == s;
      CloseCallsParts(s, es, InOrder(es));
    }
  }

  lemma AssembledWhole(es: seq<ToolEntry>, calls: seq<ToolEntry>)
    requires CutsCalls(es, calls)
    ensures Assembled(es, InOrder(es)) == WholeCalls(calls)
    ensures es == [] <==> calls == []
  {
    Ordered.NonEmptyElements(InOrder(es));
    if es != [] { assert es[0].index in Indices(es); }
  }

  lemma StartsOnCourse()
    ensures OnCourse(INIT, "", "", [], false)
  {
    NoEntries({});
  }

  lemma CutReaches(p: Parser, ds: seq<Digest>, m: Digest) returns (finished: bool)
    requires Cuts(ds, m) && p.started == {}
    ensures OnCourse(Run(INIT, F.Feed(p, ds)).state, m.reasoning, m.content, AllEntries(ds), finished)
  {
    var start := Seen("", "", [], false);
    NoEntries({});
    StartsOnCourse();
    FollowsContent(start, ds);
    FeedOnCourse(p, ds, INIT, start);
    ExtendAllSays(start, ds);
    finished := ExtendAll(start, ds).finished;
    assert "" + m.reasoning == m.reasoning && "" + m.content == m.content && [] + AllEntries(ds) == AllEntries(ds);
  }

  lemma FinishedParts(s: State, evs: seq<Event>)
    ensures Run(s, evs + [Completed]).state == Finish(Run(s, evs).state).state
  {
    RunSnoc(s, evs, Completed);
  }

  /** The content after streaming any cutting of `m`. */
  lemma StreamedParts(p: Parser, ds: seq<Digest>, m: Digest)
    requires Cuts(ds, m) && p.started == {}
    ensures Parts(Run(INIT, F.Feed(p, ds) + [Completed]).state.done)
      == Spoken(m.reasoning, m.content) + WholeCalls(m.entries)
    ensures Run(INIT, F.Feed(p, ds) + [Completed]).state.called <==> m.entries != []
  {
    var finished := CutReaches(p, ds, m);
    CompletedShape(Run(INIT, F.Feed(p, ds)).state, m.reasoning, m.content, AllEntries(ds), finished);
    AssembledWhole(AllEntries(ds), m.entries);
    FinishedParts(INIT, F.Feed(p, ds));
  }

  /** After streaming any cutting of `m`, block k holds the k-th of: the reasoning, the
      text, and the calls in the order their first fragments arrived. */
  lemma StreamedPlaces(p: Parser, ds: seq<Digest>, m: Digest)
    requires Cuts(ds, m) && p.started == {}
    ensures var s := Run(INIT, F.Feed(p, ds) + [Completed]).state;
      var places := Places(m.reasoning, m.content, AllEntries(ds));
      s.next == |places| && forall d :: d in s.done ==> InPlace(d, places)
  {
    var finished := CutReaches(p, ds, m);
    FinishPlaced(Run(INIT, F.Feed(p, ds)).state, m.reasoning, m.content, AllEntries(ds), finished);
    FinishedParts(INIT, F.Feed(p, ds));
  }

  // ----- the whole message -----

  lemma CallEventsParts(s: State, index: nat, e: ToolEntry)
    requires s.calls == map[]
    ensures var s' := Run(s, CallEvents(index, e)).state;
      && s'.calls == map[] && s'.thinking.None? && s'.prose.None? && s'.called
      && Parts(s'.done) == Parts(CloseSpoken(s).state.done) + [WholeCall(e)]
  {
    var start, feed := ToolCallStart(index, e.callId, e.name), ToolCallArgsDelta(index, e.args);
    var s1 := StartCall(s, index, e.callId, e.name).state;
    var s2 := if e.args == "" then s1 else FeedCall(s1, index, e.args).state;
    RunShort(s, start, feed);
    assert CallEvents(index, e) == (if e.args == "" then [start] else [start] + [feed]) + [ToolCallDone(index)];
    RunSnoc(s, if e.args == "" then [start] else [start] + [feed], ToolCallDone(index));
    assert s2.calls[index].Finished() == WholeCall(e) && s2.done == CloseSpoken(s).state.done;
    CloseCallPart(s2, index);
    assert CloseCall(s2, index).state.calls == map[];
  }

  lemma {:induction false} CallsEventsParts(s: State, from: nat, es: seq<ToolEntry>)
    requires s.calls == map[] && es != []
    ensures var s' := Run(s, CallsEvents(from, es)).state;
      && s'.calls == map[] && s'.thinking.None? && s'.prose.None? && s'.called
      && Parts(s'.done) == Parts(CloseSpoken(s).state.done) + WholeCalls(es)
    decreases es
  {
    var head := CallEvents(from % U32_RANGE, es[0]);
    var s1 := Run(s, head).state;
    CallEventsParts(s, from % U32_RANGE, es[0]);
    RunAppend(s, head, CallsEvents(from + 1, es[1..]));
    assert WholeCalls(es) == [WholeCall(es[0])] + WholeCalls(es[1..]);
    var base := Parts(CloseSpoken(s).state.done);
    if es[1..] == [] {
      assert CallsEvents(from + 1, es[1..]) == [] && Run(s1, []).state == s1;
      assert WholeCalls(es) == [WholeCall(es[0])];
    } else {
      CallsEventsParts(s1, from + 1, es[1..]);
      assert (base + [WholeCall(es[0])]) + WholeCalls(es[1..]) == base + ([WholeCall(es[0])] + WholeCalls(es[1..]));
    }
  }

  /** The whole message's events, up to the final one. */
  function WholeEvents(p: Parser, m: Digest): seq<Event>
    requires m.Content?
  {
    HeadEvents(p, m) + (CallsEvents(0, m.entries) + UsageEvents(m.usage))
  }

  lemma WholeParts(p: Parser, m: Digest)
    requires m.Content?
    ensures Parts(Run(INIT, WholeEvents(p, m) + [Completed]).state.done)
      == Spoken(m.reasoning, m.content) + WholeCalls(m.entries)
    ensures Run(INIT, WholeEvents(p, m) + [Completed]).state.called <==> m.entries != []
  {
    var s1 := Run(INIT, HeadEvents(p, m)).state;
    var s2 := Run(s1, CallsEvents(0, m.entries)).state;
    WholeHead(p, m);
    WholeCallsParts(s1, m.entries);
    WholeTail(s2, m.usage);
    WholeRun(p, m);
    FinishedParts(INIT, WholeEvents(p, m));
    QuietFinish(Run(s2, UsageEvents(m.usage)).state);
  }

  /** After reasoning and text nothing but them is open or done. */
  lemma WholeHead(p: Parser, m: Digest)
    requires m.Content?
    ensures var s := Run(INIT, HeadEvents(p, m)).state;
      && s.calls == map[] && !s.called && Parts(CloseSpoken(s).state.done) == Spoken(m.reasoning, m.content)
  {
    StartsOnCourse();
    HeadPlaced(p, m, INIT, "", "", [], false);
    assert "" + m.reasoning == m.reasoning && "" + m.content == m.content;
    CloseSpokenShape(Run(INIT, HeadEvents(p, m)).state, m.reasoning, m.content);
  }

  lemma WholeCallsParts(s: State, es: seq<ToolEntry>)
    requires s.calls == map[] && !s.called
    ensures var s' := Run(s, CallsEvents(0, es)).state;
      && s'.calls == map[] && (s'.called <==> es != [])
      && Parts(CloseSpoken(s').state.done) == Parts(CloseSpoken(s).state.done) + WholeCalls(es)
  {
    if es == [] {
      assert Run(s, CallsEvents(0, es)).state == s && WholeCalls(es) == [];
    } else {
      CallsEventsParts(s, 0, es);
    }
  }

  lemma WholeRun(p: Parser, m: Digest)
    requires m.Content?
    ensures var s := Run(INIT, HeadEvents(p, m)).state;
      Run(INIT, WholeEvents(p, m)).state == Run(Run(s, CallsEvents(0, m.entries)).state, UsageEvents(m.usage)).state
  {
    var s := Run(INIT, HeadEvents(p, m)).state;
    RunAppend(s, CallsEvents(0, m.entries), UsageEvents(m.usage));
    RunAppend(INIT, HeadEvents(p, m), CallsEvents(0, m.entries) + UsageEvents(m.usage));
  }

  lemma WholeTail(s: State, usage: Option<Usage>)
    ensures var s' := Run(s, UsageEvents(usage)).state; s' == s.(usage := s'.usage)
  {
    if usage.Some? { RunShort(s, UsageReport(usage.value), Completed); }
  }

  lemma QuietFinish(s: State)
    requires s.calls == map[]
    ensures Parts(Finish(s).state.done) == Parts(CloseSpoken(s).state.done)
    ensures Finish(s).state.called == s.called
  {
    var a := CloseSpoken(s).state;
    CloseNothing(a, Ordered.Ascending(a.calls.Keys));
  }

  // ----- both paths -----

  lemma WholeMeta(p: Parser, m: Digest)
    requires m.Content? && !p.created
    ensures MetaAfter(MetaOf(INIT), WholeEvents(p, m)) == Meta(p.responseId, m.model, m.usage)
  {
    var m0 := MetaOf(INIT);
    HeadMeta(p, m, m0);
    var m1 := MetaAfter(m0, HeadEvents(p, m));
    CallsPlain(0, m.entries);
    PlainMeta(m1, CallsEvents(0, m.entries));
    UsageMeta(m.usage, m1);
    MetaAppend(m1, CallsEvents(0, m.entries), UsageEvents(m.usage));
    MetaAppend(m0, HeadEvents(p, m), CallsEvents(0, m.entries) + UsageEvents(m.usage));
  }

  lemma MetaCompleted(evs: seq<Event>)
    ensures MetaOf(Run(INIT, evs + [Completed]).state) == MetaAfter(MetaOf(INIT), evs)
  {
    RunMeta(INIT, evs + [Completed]);
    MetaAppend(MetaOf(INIT), evs, [Completed]);
    OneMeta(MetaAfter(MetaOf(INIT), evs), Completed);
  }

  function ReadWhole(resp: Value): Digest {
    var msg := MessageOf(resp);
    Content(ModelOf(resp), ReasoningOf(msg), ContentOf(msg), EntriesOf(msg), false, UsageOf(resp))
  }

  function ReadAll(chunks: seq<Value>): seq<Digest> {
    seq(|chunks|, k requires 0 <= k < |chunks| => Read(chunks[k]))
  }

  ghost predicate SameMessage(a: State, b: State) {
    MetaOf(a) == MetaOf(b) && Parts(a.done) == Parts(b.done) && a.called == b.called
  }

  lemma CutAgrees(p: Parser, ds: seq<Digest>, m: Digest)
    requires Cuts(ds, m) && p.started == {} && !p.created
    ensures SameMessage(Run(INIT, F.Feed(p, ds) + [Completed]).state, Run(INIT, WholeEvents(p, m) + [Completed]).state)
  {
    StreamedParts(p, ds, m);
    WholeParts(p, m);
    MetaCompleted(F.Feed(p, ds));
    MetaCompleted(WholeEvents(p, m));
    FollowsContent(Seen("", "", [], false), ds);
    FeedMeta(p, ds, MetaOf(INIT));
    WholeMeta(p, m);
  }

  lemma CompletionIsWhole(resp: Value, responseId: string)
    ensures CompletionSpec(resp, responseId) == WholeEvents(NewParser(responseId), ReadWhole(resp)) + [Completed]
  {
    var m := ReadWhole(resp);
    ChatStream.Regroup([Created(responseId, m.model)], TextEvents(m.reasoning, m.content), [],
      CallsEvents(0, m.entries), UsageEvents(m.usage));
  }

  /** Streaming and non-streaming agree: if the upstream chunks are any cutting of
      the message in `resp`, the machine finishes with the same identity, model,
      usage and content either way. */
  lemma StreamingAgrees(responseId: string, chunks: seq<Value>, resp: Value)
    requires Cuts(ReadAll(chunks), ReadWhole(resp))
    ensures SameMessage(
      Run(INIT, F.Feed(NewParser(responseId), ReadAll(chunks)) + [Completed]).state,
      Run(INIT, CompletionSpec(resp, responseId)).state)
  {
    CompletionIsWhole(resp, responseId);
    CutAgrees(NewParser(responseId), ReadAll(chunks), ReadWhole(resp));
  }

  // ----- there are cuttings of every message -----

  /** The calls as fragments, numbered upwards. */
  function Numbered(from: nat, calls: seq<ToolEntry>): seq<ToolEntry> {
    seq(|calls|, k requires 0 <= k < |calls| => calls[k].(index := from + k))
  }

  lemma NumberedStep(from: nat, calls: seq<ToolEntry>)
    requires calls != []
    ensures Numbered(from, calls) == [calls[0].(index := from)] + Numbered(from + 1, calls[1..])
  {
  }

  lemma {:induction false} NumberedArgs(from: nat, calls: seq<ToolEntry>, x: nat)
    ensures F.EntryArgs(Numbered(from, calls), x) == if from <= x < from + |calls| then calls[x - from].args else ""
    ensures x in Indices(Numbered(from, calls)) <==> from <= x < from + |calls|
    ensures from <= x < from + |calls| ==>
      FirstEntry(Numbered(from, calls), x) == calls[x - from].(index := x)
    decreases calls
  {
    if calls == [] {
      NoEntries({});
    } else {
      var es, rest := Numbered(from, calls), Numbered(from + 1, calls[1..]);
      NumberedStep(from, calls);
      assert es[1..] == rest;
      NumberedArgs(from + 1, calls[1..], x);
      IndicesStep(es);
      assert calls[0].args + "" == calls[0].args && "" + F.EntryArgs(rest, x) == F.EntryArgs(rest, x);
    }
  }

  lemma Counting(n: nat) returns (r: seq<nat>)
    ensures |r| == n && (forall k :: 0 <= k < n ==> r[k] == k)
  {
    r := seq(n, k => k);
  }

  /** Numbered upwards, the k-th smallest index is k. */
  lemma NumberedOrder(calls: seq<ToolEntry>)
    ensures var order := InOrder(Numbered(0, calls));
      |order| == |calls| && forall k :: 0 <= k < |order| ==> order[k] == k
  {
    var es := Numbered(0, calls);
    var count := Counting(|calls|);
    forall x: nat ensures x in Ordered.Elements(count) <==> x in Indices(es) {
      NumberedArgs(0, calls, x);
      if x < |calls| { assert count[x] == x; }
    }
    assert Ordered.Elements(count) == Indices(es);
    Ordered.IncreasingUnique(count, InOrder(es));
  }

  /** Sent whole in one chunk, with its calls numbered, a message is cut correctly; so
      the agreement says something of every message. */
  lemma OneChunkCuts(m: Digest)
    requires m.Content? && |m.entries| <= U32_RANGE
    ensures Cuts([m.(entries := Numbered(0, m.entries))], m)
  {
    var d := m.(entries := Numbered(0, m.entries));
    assert [d][1..] == [];
    assert AllEntries([d]) == d.entries + [] == d.entries;
    assert d.reasoning + "" == d.reasoning && d.content + "" == d.content;
    assert F.Fragments([d], Thought) == d.reasoning + F.Fragments([], Thought);
    assert F.Fragments([d], Speech) == d.content + F.Fragments([], Speech);
    NumberedOrder(m.entries);
    forall k: nat | k < |m.entries| ensures CallOf(d.entries, InOrder(d.entries)[k]) == WholeCall(m.entries[k]) {
      NumberedArgs(0, m.entries, k);
    }
  }
}
