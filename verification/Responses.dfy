/** Canonical events to OpenAI Responses API frames. */
module Responses {
  import opened Wrappers
  import opened Canonical
  import opened Blocks
  import Ordered

  /** A generated identifier: a prefix and the number of the draw. */
  datatype Id = Id(prefix: string, serial: nat)

  datatype Item =
    | ReasoningItem(id: Id, summary: seq<string>)
    | MessageItem(id: Id, status: string, content: seq<string>)
    | CallItem(id: Id, callId: string, name: string, arguments: string, status: string)

  datatype Response = Response(id: string, status: string, model: string, output: seq<Item>, usage: Usage)

  /** Payload of a frame; the constructor stands for the frame's event name. */
  datatype Body =
    | ResponseCreated(id: string, model: string)
    | ItemAdded(outputIndex: nat, item: Item)
    | PartAdded(itemId: Id, outputIndex: nat)
    | SummaryDelta(itemId: Id, outputIndex: nat, delta: string)
    | OutputTextDelta(itemId: Id, outputIndex: nat, delta: string)
    | ArgumentsDelta(itemId: Id, outputIndex: nat, delta: string)
    | OutputTextDone(itemId: Id, outputIndex: nat, text: string)
    | PartDone(itemId: Id, outputIndex: nat, text: string)
    | ArgumentsDone(itemId: Id, outputIndex: nat, arguments: string)
    | ItemDone(outputIndex: nat, item: Item)
    | ResponseCompleted(response: Response)
    | ResponseFailed(id: string, code: nat, message: string)

  datatype Frame = Frame(sequenceNumber: nat, body: Body)

  // ----- rendering of the content machine -----

  function DoneItem(i: nat, part: Part): Item {
    match part
    case Reasoning(text) => ReasoningItem(Id("rs", i), [text])
    case Prose(text) => MessageItem(Id("msg", i), "completed", [text])
    case Call(callId, name, args) => CallItem(Id("fc", i), callId, name, args, "completed")
  }

  function Render(m: Mark): seq<Body> {
    match m
    case Open(i, ReasoningKind) => [ItemAdded(i, ReasoningItem(Id("rs", i), []))]
    case Open(i, ProseKind) => [ItemAdded(i, MessageItem(Id("msg", i), "in_progress", [])), PartAdded(Id("msg", i), i)]
    case Open(i, CallKind(callId, name)) => [ItemAdded(i, CallItem(Id("fc", i), callId, name, "", "in_progress"))]
    case Delta(i, Thought, text) => [SummaryDelta(Id("rs", i), i, text)]
    case Delta(i, Speech, text) => [OutputTextDelta(Id("msg", i), i, text)]
    case Delta(i, Arguments, text) => [ArgumentsDelta(Id("fc", i), i, text)]
    case Close(i, Reasoning(text)) => [ItemDone(i, DoneItem(i, m.part))]
    case Close(i, Prose(text)) =>
      [OutputTextDone(Id("msg", i), i, text), PartDone(Id("msg", i), i, text), ItemDone(i, DoneItem(i, m.part))]
    case Close(i, Call(_, _, args)) => [ArgumentsDone(Id("fc", i), i, args), ItemDone(i, DoneItem(i, m.part))]
  }

  function RenderAll(marks: seq<Mark>): seq<Body> {
    if marks == [] then [] else Render(marks[0]) + RenderAll(marks[1..])
  }

  lemma {:induction false} RenderAllAppend(a: seq<Mark>, b: seq<Mark>)
    ensures RenderAll(a + b) == RenderAll(a) + RenderAll(b)
  {
    if a == [] {
      assert a + b == b;
    } else {
      assert (a + b)[0] == a[0] && (a + b)[1..] == a[1..] + b;
      RenderAllAppend(a[1..], b);
    }
  }

  lemma RenderOne(m: Mark)
    ensures RenderAll([]) == [] && RenderAll([m]) == Render(m)
  {
    assert [m][1..] == [];
    assert Render(m) + [] == Render(m);
  }

  function Items(done: seq<Sealed>): seq<Item> {
    seq(|done|, k requires 0 <= k < |done| => DoneItem(done[k].i, done[k].part))
  }

  function Final(s: State): Response {
    Response(s.responseId, "completed", s.model, Items(s.done), UnwrapOr(s.usage, Usage(0, 0, 0, 0, 0)))
  }

  /** The frame payloads that one event causes. */
  ghost function Bodies(s: State, ev: Event): seq<Body> {
    match ev
    case Created(responseId, model) => [ResponseCreated(responseId, model)]
    case Completed => RenderAll(Finish(s).marks) + [ResponseCompleted(Final(Finish(s).state))]
    case Error(message, status) => [ResponseFailed(s.responseId, status, message)]
    case _ => RenderAll(Step(s, ev).marks)
  }

  function Number(from: nat, bodies: seq<Body>): seq<Frame> {
    seq(|bodies|, k requires 0 <= k < |bodies| => Frame(from + k, bodies[k]))
  }

  // ----- the source's emitter object -----

  datatype OpenItem = OpenItem(id: Id, outputIndex: nat)

  datatype ToolItem = ToolItem(id: Id, outputIndex: nat, callId: string, name: string, args: string)

  class ResponsesEmitter {
    var responseId: string
    var model: string
    var nextOutputIndex: nat
    var reasoningItem: Option<OpenItem>
    var reasoningText: string
    var messageItem: Option<OpenItem>
    var messageText: string
    var tools: map<nat, ToolItem>
    var usage: Option<Usage>
    var finalItems: seq<Item>
    var seqNo: nat
    /** How many identifiers were drawn; stands for the UUID source. */
    var drawn: nat
    ghost var core: State

    ghost predicate Valid()
      reads this
    {
      && responseId == core.responseId && model == core.model && usage == core.usage
      && nextOutputIndex == core.next == drawn
      && reasoningItem == Holding("rs", core.thinking)
      && reasoningText == core.thinkingText
      && messageItem == Holding("msg", core.prose)
      && messageText == core.proseText
      && tools.Keys == core.calls.Keys
      && (forall x :: x in tools ==> tools[x] == Opened(core.calls[x]))
      && finalItems == Items(core.done)
    }

    static function Holding(prefix: string, block: Option<nat>): Option<OpenItem> {
      if block.Some? then Some(OpenItem(Id(prefix, block.value), block.value)) else None
    }

    static function Opened(c: OpenCall): ToolItem {
      ToolItem(Id("fc", c.i), c.i, c.callId, c.name, c.args)
    }

    constructor ()
      ensures Valid() && core == INIT && seqNo == 0
    {
      responseId, model, nextOutputIndex := "", "", 0;
      reasoningItem, reasoningText, messageItem, messageText := None, "", None, "";
      tools, usage, finalItems, seqNo, drawn := map[], None, [], 0, 0;
      core := INIT;
    }

    method OnEvent(ev: Event) returns (frames: seq<Frame>)
      requires Valid()
      modifies this
      ensures Valid()
      ensures core == Step(old(core), ev).state
      ensures frames == Number(old(seqNo), Bodies(old(core), ev))
      ensures seqNo == old(seqNo) + |frames|
    {
      var f := Payloads(ev);
      frames := Stamp(f);
    }

    /** The payloads of an event, not numbered yet. */
    method Payloads(ev: Event) returns (f: seq<Body>)
      requires Valid()
      modifies this
      ensures Valid() && core == Step(old(core), ev).state && seqNo == old(seqNo)
      ensures f == Bodies(old(core), ev)
    {
      f := [];
      match ev {
        case Created(id, m) =>
          responseId, model := id, m;
          core := core.(responseId := id, model := m);
          f := f + [ResponseCreated(responseId, model)];
        case ReasoningDelta(text) => f := OnReasoning(text);
        case TextDelta(text) => f := OnText(text);
        case ToolCallStart(index, callId, name) => f := OnToolStart(index, callId, name);
        case ToolCallArgsDelta(index, delta) => f := OnToolArgs(index, delta);
        case ToolCallDone(index) => f := OnToolDone(index);
        case UsageReport(u) =>
          usage := Some(u);
          core := core.(usage := Some(u));
        case Completed => f := OnCompleted();
        case Error(message, status) => f := f + [ResponseFailed(responseId, status, message)];
      }
    }

    /** The closing loop of the source's `on_event`: number the frames. */
    method Stamp(f: seq<Body>) returns (frames: seq<Frame>)
      modifies this`seqNo
      ensures frames == Number(old(seqNo), f) && seqNo == old(seqNo) + |f|
    {
      frames := [];
      for k := 0 to |f|
        invariant frames == Number(old(seqNo), f[..k]) && seqNo == old(seqNo) + k
      {
        frames := frames + [Frame(seqNo, f[k])];
        seqNo := seqNo + 1;
      }
      assert f[..|f|] == f;
    }

    method OnReasoning(text: string) returns (f: seq<Body>)
      requires Valid()
      modifies this
      ensures Valid() && core == Think(old(core), text).state && seqNo == old(seqNo)
      ensures f == RenderAll(Think(old(core), text).marks)
    {
      f := EnsureReasoningOpen([]);
      reasoningText := reasoningText + text;
      var item := reasoningItem.value;
      f := f + [SummaryDelta(item.id, item.outputIndex, text)];
      ghost var m := Delta(item.outputIndex, Thought, text);
      RenderOne(m);
      RenderAllAppend(OpenThinking(old(core)).marks, [m]);
      core := Think(old(core), text).state;
    }

    method OnText(text: string) returns (f: seq<Body>)
      requires Valid()
      modifies this
      ensures Valid() && core == Speak(old(core), text).state && seqNo == old(seqNo)
      ensures f == RenderAll(Speak(old(core), text).marks)
    {
      f := SwitchToMessage();
      ghost var a := CloseThinking(old(core));
      ghost var before := a.marks + OpenProse(a.state).marks;
      messageText := messageText + text;
      var item := messageItem.value;
      f := f + [OutputTextDelta(item.id, item.outputIndex, text)];
      ghost var m := Delta(item.outputIndex, Speech, text);
      RenderOne(m);
      RenderAllAppend(before, [m]);
      core := Speak(old(core), text).state;
    }

    method SwitchToMessage() returns (f: seq<Body>)
      requires Valid()
      modifies this
      ensures var a := CloseThinking(old(core)); var b := OpenProse(a.state);
        core == b.state && f == RenderAll(a.marks + b.marks)
      ensures Valid() && seqNo == old(seqNo)
    {
      f := CloseReasoning([]);
      ghost var mid := core;
      f := EnsureMessageOpen(f);
      RenderAllAppend(CloseThinking(old(core)).marks, OpenProse(mid).marks);
    }

    method CloseBoth() returns (f: seq<Body>)
      requires Valid()
      modifies this
      ensures Valid() && core == CloseSpoken(old(core)).state && seqNo == old(seqNo)
      ensures f == RenderAll(CloseSpoken(old(core)).marks)
    {
      f := CloseReasoning([]);
      f := CloseMessage(f);
      ghost var a := CloseThinking(old(core));
      RenderAllAppend(a.marks, CloseProse(a.state).marks);
    }

    method OnToolStart(index: nat, callId: string, name: string) returns (f: seq<Body>)
      requires Valid()
      modifies this
      ensures Valid() && core == StartCall(old(core), index, callId, name).state && seqNo == old(seqNo)
      ensures f == RenderAll(StartCall(old(core), index, callId, name).marks)
    {
      f := CloseBoth();
      ghost var mid := core;
      f := OpenTool(f, index, callId, name);
      RenderAllAppend(CloseSpoken(old(core)).marks, OpenNewCall(mid, index, callId, name).marks);
    }

    method OpenTool(f: seq<Body>, index: nat, callId: string, name: string) returns (f': seq<Body>)
      requires Valid()
      modifies this
      ensures Valid() && core == OpenNewCall(old(core), index, callId, name).state && seqNo == old(seqNo)
      ensures f' == f + RenderAll(OpenNewCall(old(core), index, callId, name).marks)
    {
      var outputIndex := AllocIndex();
      var id := NewId("fc");
      f' := f + [ItemAdded(outputIndex, CallItem(id, callId, name, "", "in_progress"))];
      tools := tools[index := ToolItem(id, outputIndex, callId, name, "")];
      RenderOne(Open(outputIndex, CallKind(callId, name)));
      core := OpenNewCall(core, index, callId, name).state;
    }

    method OnToolArgs(index: nat, delta: string) returns (f: seq<Body>)
      requires Valid()
      modifies this
      ensures Valid() && core == FeedCall(old(core), index, delta).state && seqNo == old(seqNo)
      ensures f == RenderAll(FeedCall(old(core), index, delta).marks)
    {
      f := [];
      if index in tools {
        var t := tools[index];
        tools := tools[index := t.(args := t.args + delta)];
        f := f + [ArgumentsDelta(t.id, t.outputIndex, delta)];
        RenderOne(Delta(t.outputIndex, Arguments, delta));
      }
      core := FeedCall(old(core), index, delta).state;
    }

    method OnToolDone(index: nat) returns (f: seq<Body>)
      requires Valid()
      modifies this
      ensures Valid() && core == CloseCall(old(core), index).state && seqNo == old(seqNo)
      ensures f == RenderAll(CloseCall(old(core), index).marks)
    {
      f := [];
      if index in tools {
        var t := tools[index];
        tools := tools - {index};
        f := FinishTool(f, t);
        RenderOne(Close(t.outputIndex, core.calls[index].Finished()));
      }
      core := CloseCall(old(core), index).state;
    }

    method OnCompleted() returns (f: seq<Body>)
      requires Valid()
      modifies this
      ensures Valid() && core == Finish(old(core)).state && seqNo == old(seqNo)
      ensures f == RenderAll(Finish(old(core)).marks) + [ResponseCompleted(Final(core))]
    {
      f := CloseBoth();
      ghost var mid := core;
      f := CloseOpenTools(f);
      RenderAllAppend(CloseSpoken(old(core)).marks, CloseAllCalls(mid).marks);
      var response := CompletedResponse();
      f := f + [ResponseCompleted(response)];
    }

    /** The full response object. */
    method CompletedResponse() returns (response: Response)
      requires Valid()
      ensures response == Final(core)
    {
      var u := UnwrapOr(usage, Usage(0, 0, 0, 0, 0));
      response := Response(responseId, "completed", model, finalItems, u);
    }

    method AllocIndex() returns (i: nat)
      modifies this`nextOutputIndex
      ensures i == old(nextOutputIndex) && nextOutputIndex == i + 1
    {
      i := nextOutputIndex;
      nextOutputIndex := nextOutputIndex + 1;
    }

    method NewId(prefix: string) returns (id: Id)
      modifies this`drawn
      ensures id == Id(prefix, old(drawn)) && drawn == old(drawn) + 1
    {
      id := Id(prefix, drawn);
      drawn := drawn + 1;
    }

    method EnsureReasoningOpen(f: seq<Body>) returns (f': seq<Body>)
      requires Valid()
      modifies this
      ensures Valid() && core == OpenThinking(old(core)).state && seqNo == old(seqNo)
      ensures f' == f + RenderAll(OpenThinking(old(core)).marks)
    {
      if reasoningItem.Some? { return f; }
      var outputIndex := AllocIndex();
      var id := NewId("rs");
      f' := f + [ItemAdded(outputIndex, ReasoningItem(id, []))];
      reasoningItem := Some(OpenItem(id, outputIndex));
      RenderOne(Open(outputIndex, ReasoningKind));
      core := OpenThinking(core).state;
    }

    method CloseReasoning(f: seq<Body>) returns (f': seq<Body>)
      requires Valid()
      modifies this
      ensures Valid() && core == CloseThinking(old(core)).state && seqNo == old(seqNo)
      ensures f' == f + RenderAll(CloseThinking(old(core)).marks)
    {
      f' := f;
      if reasoningItem.Some? {
        var item := reasoningItem.value;
        reasoningItem := None;
        var json := ReasoningItem(item.id, [reasoningText]);
        f' := f' + [ItemDone(item.outputIndex, json)];
        finalItems := finalItems + [json];
        RenderOne(Close(item.outputIndex, Reasoning(reasoningText)));
      }
      core := CloseThinking(core).state;
    }

    method EnsureMessageOpen(f: seq<Body>) returns (f': seq<Body>)
      requires Valid()
      modifies this
      ensures Valid() && core == OpenProse(old(core)).state && seqNo == old(seqNo)
      ensures f' == f + RenderAll(OpenProse(old(core)).marks)
    {
      if messageItem.Some? { return f; }
      var outputIndex := AllocIndex();
      var id := NewId("msg");
      f' := f + [ItemAdded(outputIndex, MessageItem(id, "in_progress", []))];
      f' := f' + [PartAdded(id, outputIndex)];
      messageItem := Some(OpenItem(id, outputIndex));
      RenderOne(Open(outputIndex, ProseKind));
      core := OpenProse(core).state;
    }

    method CloseMessage(f: seq<Body>) returns (f': seq<Body>)
      requires Valid()
      modifies this
      ensures Valid() && core == CloseProse(old(core)).state && seqNo == old(seqNo)
      ensures f' == f + RenderAll(CloseProse(old(core)).marks)
    {
      f' := f;
      if messageItem.Some? {
        var item := messageItem.value;
        messageItem := None;
        f' := f' + [OutputTextDone(item.id, item.outputIndex, messageText)];
        f' := f' + [PartDone(item.id, item.outputIndex, messageText)];
        var json := MessageItem(item.id, "completed", [messageText]);
        f' := f' + [ItemDone(item.outputIndex, json)];
        finalItems := finalItems + [json];
        RenderOne(Close(item.outputIndex, Prose(messageText)));
      }
      core := CloseProse(core).state;
    }

    method FinishTool(f: seq<Body>, t: ToolItem) returns (f': seq<Body>)
      modifies this`finalItems
      ensures var item := CallItem(t.id, t.callId, t.name, t.args, "completed");
        && finalItems == old(finalItems) + [item]
        && f' == f + [ArgumentsDone(t.id, t.outputIndex, t.args), ItemDone(t.outputIndex, item)]
    {
      var item := CallItem(t.id, t.callId, t.name, t.args, "completed");
      f' := f + [ArgumentsDone(t.id, t.outputIndex, t.args)];
      f' := f' + [ItemDone(t.outputIndex, item)];
      finalItems := finalItems + [item];
    }

    method CloseOpenTools(f: seq<Body>) returns (f': seq<Body>)
      requires Valid()
      modifies this`tools, this`finalItems, this`core
      ensures Valid()
      ensures core == CloseAllCalls(old(core)).state
      ensures f' == f + RenderAll(CloseAllCalls(old(core)).marks)
    {
      ghost var after;
      f', after := FinishAllTools(f);
      core := after;
    }

    method FinishAllTools(f: seq<Body>) returns (f': seq<Body>, ghost after: State)
      requires Valid()
      modifies this`tools, this`finalItems
      ensures tools == map[] && finalItems == Items(after.done)
      ensures after == CloseAllCalls(core).state && after == core.(calls := map[], done := after.done)
      ensures f' == f + RenderAll(CloseAllCalls(core).marks)
    {
      var taken := tools;
      tools := map[];
      f' := FinishTools(f, taken, core);
      after := CloseAllCalls(core).state;
      CloseAllShape(core);
    }

    /** The calls come out of the source's tree map in index order. */
    method FinishTools(f: seq<Body>, taken: map<nat, ToolItem>, ghost s: State) returns (f': seq<Body>)
      requires taken.Keys == s.calls.Keys && forall x :: x in taken ==> taken[x] == Opened(s.calls[x])
      requires finalItems == Items(s.done)
      modifies this`finalItems
      ensures finalItems == Items(CloseAllCalls(s).state.done)
      ensures f' == f + RenderAll(CloseAllCalls(s).marks)
    {
      var order := Ordered.SortAscending(taken.Keys);
      f' := f;
      for k := 0 to |order|
        invariant finalItems == Items(CloseCalls(s, order[..k]).state.done)
        invariant f' == f + RenderAll(CloseCalls(s, order[..k]).marks)
      {
        assert order[k] in Ordered.Elements(order);
        CloseNext(s, order, k);
        f' := FinishTool(f', taken[order[k]]);
      }
      assert order[..|order|] == order;
    }
  }

  /** What closing one more call adds to the finished items and to the frames. */
  lemma CloseNext(s: State, order: seq<nat>, k: nat)
    requires k < |order| && Ordered.Increasing(order) && order[k] in s.calls
    ensures var a, b, c := CloseCalls(s, order[..k]), CloseCalls(s, order[..k + 1]), s.calls[order[k]];
      && Items(b.state.done) == Items(a.state.done) + [DoneItem(c.i, c.Finished())]
      && RenderAll(b.marks) == RenderAll(a.marks) + Render(Close(c.i, c.Finished()))
  {
    var c := s.calls[order[k]];
    CloseOneMore(s, order, k);
    RenderOne(Close(c.i, c.Finished()));
    RenderAllAppend(CloseCalls(s, order[..k]).marks, [Close(c.i, c.Finished())]);
  }
}
