/** What a client gets for an upstream's reply, written out in full: nothing here is read
    by the functions that are being judged. */
module Delivered {
  import opened Wrappers
  import opened Canonical
  import opened ChatStream
  import opened Blocks
  import opened Pipeline
  import opened EndToEnd
  import opened UpstreamJson
  import A = Anthropic
  import AC = AnthropicClient
  import AF = AnthropicFacts
  import Agreement
  import Assembly
  import CC = ClientContent
  import F = ChatStreamFacts
  import Json
  import MessageMeta
  import PF = PipelineFacts
  import R = Responses

  // ----- a Responses object -----

  function ItemsUnder(a: R.Id, b: R.Id, cs: seq<R.Id>, reply: Reply): seq<R.Item>
    requires |cs| == |reply.calls|
  {
    (if reply.reasoning == "" then [] else [R.ReasoningItem(a, [reply.reasoning])])
    + (if reply.content == "" then [] else [R.MessageItem(b, "completed", [reply.content])])
    + seq(|cs|, k requires 0 <= k < |cs| =>
        R.CallItem(cs[k], reply.calls[k].callId, reply.calls[k].name, reply.calls[k].arguments, "completed"))
  }

  /** The reply's reasoning, text and calls, in order, under generated ids. */
  ghost predicate HasItems(items: seq<R.Item>, reply: Reply) {
    exists a: R.Id, b: R.Id, cs: seq<R.Id> :: |cs| == |reply.calls| && items == ItemsUnder(a, b, cs, reply)
  }

  ghost predicate IsResponse(response: R.Response, responseId: string, reply: Reply) {
    && response.id == responseId && response.status == "completed" && response.model == reply.model
    && response.usage == (if reply.usage.Some? then Narrow(reply.usage.value) else Usage(0, 0, 0, 0, 0))
    && HasItems(response.output, reply)
  }

  // ----- an Anthropic message -----

  function InputFor(read: A.JsonReader, call: ToolCall): A.Block {
    A.ToolUse(call.callId, call.name, match read(call.arguments) case Some(v) => v case None => Json.Obj(map[]))
  }

  function BlocksFor(read: A.JsonReader, reply: Reply): seq<A.Block> {
    (if reply.reasoning == "" then [] else [A.ThinkingBlock(reply.reasoning, Some("bridge-unsigned"))])
    + (if reply.content == "" then [] else [A.TextBlock(reply.content)])
    + seq(|reply.calls|, k requires 0 <= k < |reply.calls| => InputFor(read, reply.calls[k]))
  }

  function StopFor(reply: Reply): string {
    if reply.calls == [] then "end_turn" else "tool_use"
  }

  /** Cached input tokens are counted apart from the others. */
  predicate AreCounts(c: A.Counts, usage: Option<Usage>) {
    match usage
    case None => c == A.Counts(0, 0, 0)
    case Some(u) =>
      var n := Narrow(u);
      c.output == n.output && c.cacheRead == n.cached
      && (n.cached <= n.input ==> c.input + n.cached == n.input) && (n.input < n.cached ==> c.input == 0)
  }

  predicate IsMessage(message: A.Message, read: A.JsonReader, responseId: string, reply: Reply) {
    && message.id == responseId && message.model == reply.model && message.content == BlocksFor(read, reply)
    && message.stopReason == StopFor(reply) && AreCounts(message.usage, reply.usage)
  }

  // ----- from the machine's final state -----

  /** The machine has finished with exactly this reply. */
  ghost predicate Holds(s: State, responseId: string, reply: Reply) {
    && MessageMeta.MetaOf(s) == MessageMeta.Meta(responseId, reply.model, NarrowUsage(reply.usage))
    && Assembly.Parts(s.done)
      == Assembly.Spoken(reply.reasoning, reply.content) + Agreement.WholeCalls(WholeEntries(reply.calls))
    && (s.called <==> reply.calls != [])
  }

  lemma PartsSplit(done: seq<Sealed>, x: seq<Part>, y: seq<Part>)
    requires Assembly.Parts(done) == x + y
    ensures |done| == |x| + |y|
    ensures Assembly.Parts(done[..|x|]) == x && Assembly.Parts(done[|x|..]) == y
    ensures R.Items(done) == R.Items(done[..|x|]) + R.Items(done[|x|..])
  {
    assert |done| == |x + y|;
    assert Assembly.Parts(done[..|x|]) == (x + y)[..|x|] && Assembly.Parts(done[|x|..]) == (x + y)[|x|..];
  }

  /** A part that is there or not. */
  function Maybe(there: bool, part: Part): seq<Part> {
    if there then [part] else []
  }

  lemma MaybeListed(done: seq<Sealed>, there: bool, part: Part) returns (id: R.Id)
    requires Assembly.Parts(done) == Maybe(there, part)
    ensures R.Items(done) == if there then [R.DoneItem(id.serial, part)] else []
    ensures there ==> id == R.DoneItem(id.serial, part).id
  {
    assert |done| == |Maybe(there, part)|;
    if there {
      assert done[0].part == Assembly.Parts(done)[0] == part;
      id := R.DoneItem(done[0].i, part).id;
    } else {
      id := R.Id("", 0);
    }
  }

  lemma CallsListed(done: seq<Sealed>, calls: seq<ToolCall>) returns (ids: seq<R.Id>)
    requires Assembly.Parts(done) == Agreement.WholeCalls(WholeEntries(calls))
    ensures |ids| == |calls|
    ensures R.Items(done) == seq(|ids|, k requires 0 <= k < |ids| =>
      R.CallItem(ids[k], calls[k].callId, calls[k].name, calls[k].arguments, "completed"))
  {
    assert |done| == |calls|;
    ids := seq(|done|, k requires 0 <= k < |done| => R.Id("fc", done[k].i));
    forall k | 0 <= k < |done|
      ensures R.Items(done)[k]
        == R.CallItem(ids[k], calls[k].callId, calls[k].name, calls[k].arguments, "completed")
    {
      assert done[k].part == Assembly.Parts(done)[k];
    }
  }

  lemma ItemsListed(done: seq<Sealed>, reply: Reply)
    requires Assembly.Parts(done)
      == Assembly.Spoken(reply.reasoning, reply.content) + Agreement.WholeCalls(WholeEntries(reply.calls))
    ensures HasItems(R.Items(done), reply)
  {
    var thought := Maybe(reply.reasoning != "", Reasoning(reply.reasoning));
    var said := Maybe(reply.content != "", Prose(reply.content));
    PartsSplit(done, thought + said, Agreement.WholeCalls(WholeEntries(reply.calls)));
    var spoken := done[..|thought + said|];
    PartsSplit(spoken, thought, said);
    var a := MaybeListed(spoken[..|thought|], reply.reasoning != "", Reasoning(reply.reasoning));
    var b := MaybeListed(spoken[|thought|..], reply.content != "", Prose(reply.content));
    var cs := CallsListed(done[|thought + said|..], reply.calls);
    assert R.Items(done) == ItemsUnder(a, b, cs, reply);
  }

  lemma HeldResponse(s: State, responseId: string, reply: Reply)
    requires Holds(s, responseId, reply)
    ensures IsResponse(R.Final(s), responseId, reply)
  {
    ItemsListed(s.done, reply);
  }

  lemma RenderedAppend(read: A.JsonReader, a: seq<Part>, b: seq<Part>)
    ensures CC.Rendered(read, a + b) == CC.Rendered(read, a) + CC.Rendered(read, b)
  {
  }

  lemma CallsRendered(read: A.JsonReader, calls: seq<ToolCall>)
    ensures CC.Rendered(read, Agreement.WholeCalls(WholeEntries(calls)))
      == seq(|calls|, k requires 0 <= k < |calls| => InputFor(read, calls[k]))
  {
    forall k | 0 <= k < |calls|
      ensures A.DoneBlock(read, Agreement.WholeCalls(WholeEntries(calls))[k]) == InputFor(read, calls[k])
    {
    }
  }

  lemma BlocksListed(read: A.JsonReader, reply: Reply)
    ensures CC.Rendered(read,
      Assembly.Spoken(reply.reasoning, reply.content) + Agreement.WholeCalls(WholeEntries(reply.calls)))
      == BlocksFor(read, reply)
  {
    var thought := Maybe(reply.reasoning != "", Reasoning(reply.reasoning));
    var said := Maybe(reply.content != "", Prose(reply.content));
    RenderedAppend(read, thought + said, Agreement.WholeCalls(WholeEntries(reply.calls)));
    RenderedAppend(read, thought, said);
    CallsRendered(read, reply.calls);
  }

  lemma HeldMessage(read: A.JsonReader, s: State, responseId: string, reply: Reply)
    requires Holds(s, responseId, reply)
    ensures IsMessage(A.Final(read, s), read, responseId, reply)
  {
    assert A.Content(read, s.done) == CC.Rendered(read, Assembly.Parts(s.done));
    BlocksListed(read, reply);
  }

  // ----- the whole reply -----

  predicate Countable(reply: Reply) {
    reply.usage.Some? ==> WordCounts(reply.usage.value)
  }

  lemma WholeHolds(style: Style, reply: Reply, responseId: string)
    requires Countable(reply)
    ensures Holds(Run(INIT, CompletionSpec(CompletionJson(style, reply), responseId)).state, responseId, reply)
  {
    var p, m := NewParser(responseId), Whole(reply);
    CompletionBack(style, reply);
    Agreement.CompletionIsWhole(CompletionJson(style, reply), responseId);
    Agreement.WholeParts(p, m);
    Agreement.MetaCompleted(Agreement.WholeEvents(p, m));
    Agreement.WholeMeta(p, m);
  }

  /** The non-streaming Responses handler returns the reply: its id, model, status, usage,
      and its reasoning, text and calls in order. */
  method AnswerResponse(style: Style, reply: Reply, responseId: string) returns (response: R.Response)
    requires Countable(reply)
    ensures IsResponse(response, responseId, reply)
  {
    response := WholeResponse(CompletionJson(style, reply), responseId);
    WholeHolds(style, reply, responseId);
    HeldResponse(Run(INIT, CompletionSpec(CompletionJson(style, reply), responseId)).state, responseId, reply);
  }

  /** And so does the Anthropic one. */
  method AnswerMessage(read: A.JsonReader, style: Style, reply: Reply, responseId: string) returns (message: A.Message)
    requires Countable(reply)
    ensures IsMessage(message, read, responseId, reply)
  {
    message := WholeMessage(read, CompletionJson(style, reply), responseId);
    WholeHolds(style, reply, responseId);
    HeldMessage(read, Run(INIT, CompletionSpec(CompletionJson(style, reply), responseId)).state, responseId, reply);
  }

  // ----- the streamed reply -----

  /** What is heard, up to the end, is some cutting of the reply. */
  ghost predicate Brings(hs: seq<Heard>, ending: Ending, reply: Reply) {
    PF.Terminal(hs, ending).Completed? && Agreement.Cuts(PF.Ordinary(hs), Whole(reply))
  }

  lemma StreamedHolds(responseId: string, track: bool, hs: seq<Heard>, ending: Ending, reply: Reply)
    requires Brings(hs, ending, reply)
    ensures Holds(Run(INIT, Drive(track, Begin(responseId), hs, ending)).state, responseId, reply)
  {
    var p, ds, m := NewParser(responseId), PF.Ordinary(hs), Whole(reply);
    PF.SameBlocks(responseId, track, hs, ending);
    Agreement.CutAgrees(p, ds, m);
    Agreement.WholeParts(p, m);
    Agreement.MetaCompleted(Agreement.WholeEvents(p, m));
    Agreement.WholeMeta(p, m);
  }

  /** The first event announces the message under its id and model. */
  lemma FirstEvent(responseId: string, track: bool, hs: seq<Heard>, ending: Ending, reply: Reply)
    requires Brings(hs, ending, reply)
    ensures var evs := Drive(track, Begin(responseId), hs, ending);
      evs != [] && evs[0] == Created(responseId, reply.model)
  {
    var p, ds := NewParser(responseId), PF.Ordinary(hs);
    PF.DriveParts(responseId, track, hs, ending);
    Agreement.FollowsContent(Agreement.Seen("", "", [], false), ds);
    EmitParts(p, ds[0]);
    assert HeadEvents(p, ds[0])[0] == Created(responseId, reply.model);
    assert F.Feed(p, ds)[0] == Emit(p, ds[0])[0];
  }

  /** The stream opens with `response.created` and its last frame is `response.completed`
      with the reply. */
  ghost predicate DeliversReply(frames: seq<ClientFrame>, responseId: string, reply: Reply) {
    && |frames| >= 2
    && frames[0] == R(R.Frame(0, R.ResponseCreated(responseId, reply.model)))
    && frames[|frames| - 1].R? && frames[|frames| - 1].r.body.ResponseCompleted?
    && IsResponse(frames[|frames| - 1].r.body.response, responseId, reply)
  }

  lemma FirstFrame(es: EmitterState, evs: seq<Event>)
    requires evs != [] && FramesFor(es, evs[0]) != []
    ensures EmitAll(es, evs) != [] && EmitAll(es, evs)[0] == FramesFor(es, evs[0])[0]
    ensures |EmitAll(es, evs)| >= |FramesFor(es, evs[0])|
  {
  }

  lemma LastResponse(es: EmitterState, ev: Event)
    requires es.RState? && (ev.Completed? || ev.Error?)
    ensures var f := FramesFor(es, ev);
      && f != [] && f[|f| - 1].R?
      && f[|f| - 1].r.body == if ev.Completed? then R.ResponseCompleted(R.Final(Step(es.core, ev).state))
                              else R.ResponseFailed(es.core.responseId, ev.status, ev.message)
  {
    var bodies := R.Bodies(es.core, ev);
    if ev.Completed? { assert bodies[|bodies| - 1] == R.ResponseCompleted(R.Final(Finish(es.core).state)); }
  }

  /** A Responses client is sent the reply: announced first, whole and last, unless costs
      are tracked and a transport error follows the end marker. */
  lemma ResponseIsReply(responseId: string, track: bool, hs: seq<Heard>, ending: Ending, reply: Reply)
    requires Brings(hs, ending, reply)
    ensures DeliversReply(Frames(RState(INIT, 0), responseId, track, hs, ending), responseId, reply) <==>
      !LateError(track, ending)
  {
    var evs, ev := RunEnds(responseId, track, hs, ending);
    FirstEvent(responseId, track, hs, ending, reply);
    assert evs != [] && evs[0] == (evs + [ev])[0];
    StreamedHolds(responseId, track, hs, ending, reply);
    HeldResponse(Run(INIT, evs + [ev]).state, responseId, reply);
    OutermostFrames(responseId, reply.model, evs, ev);
  }

  /** The first and the last frame of a run. */
  lemma OutermostFrames(responseId: string, model: string, evs: seq<Event>, ev: Event)
    requires evs != [] && evs[0] == Created(responseId, model) && (ev.Completed? || ev.Error?)
    ensures var f := EmitAll(RState(INIT, 0), evs + [ev]);
      && |f| >= 2 && f[0] == R(R.Frame(0, R.ResponseCreated(responseId, model))) && f[|f| - 1].R?
      && (ev.Completed? ==> f[|f| - 1].r.body == R.ResponseCompleted(R.Final(Run(INIT, evs + [ev]).state)))
      && (ev.Error? ==> f[|f| - 1].r.body.ResponseFailed?)
  {
    var before, last := LastFrames(RState(INIT, 0), evs, ev);
    FirstFrame(RState(INIT, 0), evs);
    LastResponse(last, ev);
    EndsLikeLast(before, FramesFor(last, ev));
  }

  lemma EndsLikeLast(before: seq<ClientFrame>, frames: seq<ClientFrame>)
    requires before != [] && frames != []
    ensures var all := before + frames;
      |all| >= 2 && all[0] == before[0] && all[|all| - 1] == frames[|frames| - 1]
  {
  }

  /** The Anthropic stream ends with the reply's stop reason and usage. */
  ghost predicate StopsLike(sent: seq<A.Frame>, reply: Reply) {
    && |sent| >= 2 && sent[|sent| - 1] == A.MessageStop
    && sent[|sent| - 2].MessageDelta? && sent[|sent| - 2].stopReason == StopFor(reply)
    && AreCounts(sent[|sent| - 2].usage, reply.usage)
  }

  const PLAIN := Style(false, false, false, false, "stop")

  /** An Anthropic client is sent the message's id and model first; the blocks it puts
      together are the reply's, all stopped, in the same order if the calls' first
      fragments arrive in ascending index order and, with distinct call ids, only then; and
      the stop reason and usage come last, unless a late error does. */
  lemma MessageIsReply(read: A.JsonReader, responseId: string, track: bool, hs: seq<Heard>, ending: Ending,
                       reply: Reply)
    requires Brings(hs, ending, reply) && Countable(reply)
    ensures var sent := Sent(responseId, track, hs, ending);
      var got, es := AC.ContentRead(read, sent), Agreement.AllEntries(PF.Ordinary(hs));
      && sent != [] && sent[0] == A.MessageStart(responseId, reply.model)
      && AC.AllStopped(sent) && multiset(got) == multiset(BlocksFor(read, reply))
      && (CC.ArrivesInOrder(es) ==> got == BlocksFor(read, reply))
      && (DistinctCalls(reply.calls) ==> (got == BlocksFor(read, reply) <==> CC.ArrivesInOrder(es)))
      && (StopsLike(sent, reply) <==> !LateError(track, ending))
  {
    ContentIsReply(read, responseId, track, hs, ending, reply);
    MessageStarts(responseId, track, hs, ending, reply);
    MessageStops(responseId, track, hs, ending, reply);
  }

  predicate DistinctCalls(calls: seq<ToolCall>) {
    forall i, j :: 0 <= i < j < |calls| ==> calls[i].callId != calls[j].callId
  }

  lemma DistinctEntries(calls: seq<ToolCall>)
    ensures CC.DistinctIds(WholeEntries(calls)) <==> DistinctCalls(calls)
  {
    var es := WholeEntries(calls);
    assert forall k :: 0 <= k < |calls| ==> es[k].callId == calls[k].callId;
    if DistinctCalls(calls) {
      forall i, j | 0 <= i < j < |es| ensures es[i].callId != es[j].callId {
        assert calls[i].callId != calls[j].callId;
      }
    } else {
      var i, j :| 0 <= i < j < |calls| && calls[i].callId == calls[j].callId;
      assert es[i].callId == es[j].callId;
    }
  }

  lemma ContentIsReply(read: A.JsonReader, responseId: string, track: bool, hs: seq<Heard>, ending: Ending,
                       reply: Reply)
    requires Brings(hs, ending, reply) && Countable(reply)
    ensures var sent := Sent(responseId, track, hs, ending);
      var got, es := AC.ContentRead(read, sent), Agreement.AllEntries(PF.Ordinary(hs));
      && AC.AllStopped(sent) && multiset(got) == multiset(BlocksFor(read, reply))
      && (CC.ArrivesInOrder(es) ==> got == BlocksFor(read, reply))
      && (DistinctCalls(reply.calls) ==> (got == BlocksFor(read, reply) <==> CC.ArrivesInOrder(es)))
  {
    var resp := CompletionJson(PLAIN, reply);
    CompletionBack(PLAIN, reply);
    StreamDeliversContent(read, responseId, track, hs, ending, resp);
    WholeHolds(PLAIN, reply, responseId);
    HeldMessage(read, Run(INIT, CompletionSpec(resp, responseId)).state, responseId, reply);
    DistinctEntries(reply.calls);
  }

  lemma MessageStarts(responseId: string, track: bool, hs: seq<Heard>, ending: Ending, reply: Reply)
    requires Brings(hs, ending, reply)
    ensures var sent := Sent(responseId, track, hs, ending);
      sent != [] && sent[0] == A.MessageStart(responseId, reply.model)
  {
    var evs := Drive(track, Begin(responseId), hs, ending);
    FirstEvent(responseId, track, hs, ending, reply);
    A.FramesByEvent(INIT, false, evs[0]);
    assert AF.RunFrames(INIT, false, evs)[0] == A.Frames(INIT, false, evs[0])[0];
  }

  /** How the Anthropic frames of a run with this final event end. */
  lemma MessageStops(responseId: string, track: bool, hs: seq<Heard>, ending: Ending, reply: Reply)
    requires Brings(hs, ending, reply)
    ensures StopsLike(Sent(responseId, track, hs, ending), reply) <==> !LateError(track, ending)
  {
    var evs, ev := RunEnds(responseId, track, hs, ending);
    StreamedHolds(responseId, track, hs, ending, reply);
    RunStops(evs, ev, responseId, reply);
  }

  lemma RunStops(evs: seq<Event>, ev: Event, responseId: string, reply: Reply)
    requires (ev.Completed? || ev.Error?) && Holds(Run(INIT, evs + [ev]).state, responseId, reply)
    ensures StopsLike(AF.RunFrames(INIT, false, evs + [ev]), reply) <==> ev.Completed?
  {
    HeldStop(Run(INIT, evs + [ev]).state, responseId, reply);
    LastMessageFrames(evs, ev);
  }

  lemma HeldStop(s: State, responseId: string, reply: Reply)
    requires Holds(s, responseId, reply)
    ensures A.StopReason(s.called) == StopFor(reply) && AreCounts(A.CountsOf(s.usage), reply.usage)
  {
    assert s.usage == NarrowUsage(reply.usage);
  }

  lemma AfterFrames(before: seq<A.Frame>, frames: seq<A.Frame>)
    requires frames != []
    ensures var all := before + frames;
      && all[|all| - 1] == frames[|frames| - 1] && (|frames| >= 2 ==> all[|all| - 2] == frames[|frames| - 2])
  {
  }

  lemma LastEventFrames(s: State, started: bool, ev: Event)
    requires ev.Completed? || ev.Error?
    ensures var f, s' := A.Frames(s, started, ev), Step(s, ev).state;
      && (ev.Completed? ==>
           |f| >= 2 && f[|f| - 1] == A.MessageStop
           && f[|f| - 2] == A.MessageDelta(A.StopReason(s'.called), A.CountsOf(s'.usage)))
      && (ev.Error? ==> f != [] && f[|f| - 1] == A.ErrorFrame(ev.message, ev.status))
  {
    var f := A.Frames(s, started, ev);
    if ev.Completed? {
      A.FramesByEvent(s, started, ev);
      assert f == A.RenderAll(Finish(s).marks) + A.EndFrames(s, ev);
    }
  }

  /** The last frames of a run, made from the state it ends in. */
  lemma LastMessageFrames(evs: seq<Event>, ev: Event)
    requires ev.Completed? || ev.Error?
    ensures var f, s' := AF.RunFrames(INIT, false, evs + [ev]), Run(INIT, evs + [ev]).state;
      && (ev.Completed? ==>
           |f| >= 2 && f[|f| - 1] == A.MessageStop
           && f[|f| - 2] == A.MessageDelta(A.StopReason(s'.called), A.CountsOf(s'.usage)))
      && (ev.Error? ==> f != [] && f[|f| - 1] == A.ErrorFrame(ev.message, ev.status))
  {
    var started := FramesOfLast(evs, ev);
    StateOfLast(evs, ev);
    LastEventFrames(Run(INIT, evs).state, started, ev);
    AfterFrames(AF.RunFrames(INIT, false, evs), A.Frames(Run(INIT, evs).state, started, ev));
  }

  lemma StateOfLast(evs: seq<Event>, ev: Event)
    ensures Run(INIT, evs + [ev]).state == Step(Run(INIT, evs).state, ev).state
  {
    RunSnoc(INIT, evs, ev);
  }

  lemma FramesOfLast(evs: seq<Event>, ev: Event) returns (started: bool)
    ensures AF.RunFrames(INIT, false, evs + [ev])
      == AF.RunFrames(INIT, false, evs) + A.Frames(Run(INIT, evs).state, started, ev)
  {
    started := AF.RunAppends(INIT, false, evs, [ev]);
    PF.OneEventFrames(Run(INIT, evs).state, started, ev);
  }

  // ----- errors -----

  lemma FailedRun(responseId: string, track: bool, hs: seq<Heard>, ending: Ending)
    requires PF.Terminal(hs, ending).Error?
    ensures Drive(track, Begin(responseId), hs, ending)
      == F.Feed(NewParser(responseId), PF.Ordinary(hs)) + [PF.Terminal(hs, ending)]
  {
    PF.DriveParts(responseId, track, hs, ending);
    NothingExtra(hs, ending);
    var off := PF.Untracked(responseId, hs, ending);
    assert off + [] == off;
  }

  lemma {:induction false} NothingExtra(hs: seq<Heard>, ending: Ending)
    requires PF.Terminal(hs, ending).Error?
    ensures PF.Extra(hs, ending) == []
  {
    if hs != [] && (hs[0].Noise? || (hs[0].Said? && !hs[0].digest.Failure?)) { NothingExtra(hs[1..], ending); }
  }

  /** An error chunk or a broken transport before the end marker: both clients are sent its
      message and status as their last frame. */
  lemma ErrorsAreDelivered(responseId: string, track: bool, hs: seq<Heard>, ending: Ending)
    requires PF.Terminal(hs, ending).Error?
    ensures var error := PF.Terminal(hs, ending);
      var frames, sent := Frames(RState(INIT, 0), responseId, track, hs, ending), Sent(responseId, track, hs, ending);
      && frames != [] && frames[|frames| - 1].R? && frames[|frames| - 1].r.body.ResponseFailed?
      && frames[|frames| - 1].r.body.code == error.status && frames[|frames| - 1].r.body.message == error.message
      && sent != [] && sent[|sent| - 1] == A.ErrorFrame(error.message, error.status)
  {
    var fed, ev := F.Feed(NewParser(responseId), PF.Ordinary(hs)), PF.Terminal(hs, ending);
    FailedRun(responseId, track, hs, ending);
    var before, last := LastFrames(RState(INIT, 0), fed, ev);
    LastResponse(last, ev);
    LastMessageFrames(fed, ev);
  }
}
