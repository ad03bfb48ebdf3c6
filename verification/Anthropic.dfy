/** Canonical events to Anthropic Messages frames. */
module Anthropic {
  import opened Wrappers
  import opened Canonical
  import opened Blocks
  import Json
  import Ordered

  const THINKING_SIGNATURE := "bridge-unsigned"

  /** A content block, as announced at its start and as listed in the final message. */
  datatype Block =
    | ThinkingBlock(thinking: string, signature: Option<string>)
    | TextBlock(text: string)
    | ToolUse(id: string, name: string, input: Json.Value)

  datatype BlockDelta =
    | ThinkingDelta(thinking: string)
    | SignatureDelta(signature: string)
    | TextPiece(text: string)
    | InputJsonDelta(partialJson: string)

  datatype Counts = Counts(input: nat, output: nat, cacheRead: nat)

  datatype Message = Message(id: string, model: string, content: seq<Block>, stopReason: string, usage: Counts)

  /** A frame; the constructor stands for the frame's event name. */
  datatype Frame =
    | MessageStart(id: string, model: string)
    | ContentBlockStart(index: nat, block: Block)
    | ContentBlockDelta(index: nat, delta: BlockDelta)
    | ContentBlockStop(index: nat)
    | MessageDelta(stopReason: string, usage: Counts)
    | MessageStop
    | ErrorFrame(message: string, code: nat)

  // ----- rendering of the content machine -----

  /** Parser of argument strings; None where the source's parser reports an error. */
  type JsonReader = string -> Option<Json.Value>

  /** Tool input: the parsed arguments, or an empty object. */
  function InputOf(read: JsonReader, args: string): Json.Value {
    UnwrapOr(read(args), Json.Obj(map[]))
  }

  function DoneBlock(read: JsonReader, part: Part): Block {
    match part
    case Reasoning(text) => ThinkingBlock(text, Some(THINKING_SIGNATURE))
    case Prose(text) => TextBlock(text)
    case Call(callId, name, args) => ToolUse(callId, name, InputOf(read, args))
  }

  function Render(m: Mark): seq<Frame> {
    match m
    case Open(i, ReasoningKind) => [ContentBlockStart(i, ThinkingBlock("", None))]
    case Open(i, ProseKind) => [ContentBlockStart(i, TextBlock(""))]
    case Open(i, CallKind(callId, name)) => [ContentBlockStart(i, ToolUse(callId, name, Json.Obj(map[])))]
    case Delta(i, Thought, text) => [ContentBlockDelta(i, ThinkingDelta(text))]
    case Delta(i, Speech, text) => [ContentBlockDelta(i, TextPiece(text))]
    case Delta(i, Arguments, text) => [ContentBlockDelta(i, InputJsonDelta(text))]
    case Close(i, Reasoning(_)) => [ContentBlockDelta(i, SignatureDelta(THINKING_SIGNATURE)), ContentBlockStop(i)]
    case Close(i, _) => [ContentBlockStop(i)]
  }

  function RenderAll(marks: seq<Mark>): seq<Frame> {
    if marks == [] then [] else Render(marks[0]) + RenderAll(marks[1..])
  }

  lemma {:induction false} RenderAllAppend(a: seq<Mark>, b: seq<Mark>)
    ensures RenderAll(a + b) == RenderAll(a) + RenderAll(b)
  {
    if a == [] {
      assert a + b == b;
    } else {
      assert (a + b)[0] == a[0] && (a + b)[1..] == a[1..] + b;
      RenderAllAppend(a[1..], b);
    }
  }

  lemma RenderJoined(lead: seq<Frame>, a: seq<Mark>, b: seq<Mark>)
    ensures lead + RenderAll(a) + RenderAll(b) == lead + RenderAll(a + b)
  {
    RenderAllAppend(a, b);
    Regroup(lead, RenderAll(a), RenderAll(b));
  }

  lemma Regroup(a: seq<Frame>, b: seq<Frame>, c: seq<Frame>)
    ensures a + b + c == a + (b + c)
  {
  }

  lemma RenderOne(m: Mark)
    ensures RenderAll([]) == [] && RenderAll([m]) == Render(m)
  {
    assert [m][1..] == [];
    assert Render(m) + [] == Render(m);
  }

  function Content(read: JsonReader, done: seq<Sealed>): seq<Block> {
    seq(|done|, k requires 0 <= k < |done| => DoneBlock(read, done[k].part))
  }

  function StopReason(anyTool: bool): string {
    if anyTool then "tool_use" else "end_turn"
  }

  function Larger(a: nat, b: nat): nat {
    if a <= b then b else a
  }

  /** Input tokens are those not served from the cache, never below zero. */
  function CountsOf(usage: Option<Usage>): (c: Counts)
    ensures usage.Some? ==> c.output == usage.value.output && c.cacheRead == usage.value.cached
    ensures usage.Some? ==> c.input + c.cacheRead == Larger(usage.value.input, usage.value.cached)
    ensures usage.None? ==> c.input == c.output == c.cacheRead == 0
  {
    match usage
    case None => Counts(0, 0, 0)
    case Some(u) => Counts(if u.input <= u.cached then 0 else u.input - u.cached, u.output, u.cached)
  }

  function Final(read: JsonReader, s: State): Message {
    Message(s.responseId, s.model, Content(read, s.done), StopReason(s.called), CountsOf(s.usage))
  }

  /** The events that make the emitter announce the message first. */
  predicate Announces(ev: Event) {
    ev.Created? || ev.ReasoningDelta? || ev.TextDelta? || ev.ToolCallStart?
  }

  ghost function StartFrames(s: State, started: bool, ev: Event): seq<Frame> {
    if started || !Announces(ev) then [] else
      var s' := if ev.Created? then Step(s, ev).state else s;
      [MessageStart(s'.responseId, s'.model)]
  }

  ghost function EndFrames(s: State, ev: Event): seq<Frame> {
    match ev
    case Completed => var s' := Finish(s).state; [MessageDelta(StopReason(s'.called), CountsOf(s'.usage)), MessageStop]
    case Error(message, status) => [ErrorFrame(message, status)]
    case _ => []
  }

  /** The frames that one event causes. */
  ghost function Frames(s: State, started: bool, ev: Event): seq<Frame> {
    StartFrames(s, started, ev) + RenderAll(Step(s, ev).marks) + EndFrames(s, ev)
  }

  /** Which of the three parts an event's frames have. */
  lemma FramesByEvent(s: State, started: bool, ev: Event)
    ensures var a, b, c := StartFrames(s, started, ev), RenderAll(Step(s, ev).marks), EndFrames(s, ev);
      Frames(s, started, ev) == match ev
        case Created(_, _) => a
        case ReasoningDelta(_) => a + b
        case TextDelta(_) => a + b
        case ToolCallStart(_, _, _) => a + b
        case ToolCallArgsDelta(_, _) => b
        case ToolCallDone(_) => b
        case UsageReport(_) => []
        case Completed => b + c
        case Error(_, _) => c
  {
    var a, b, c := StartFrames(s, started, ev), RenderAll(Step(s, ev).marks), EndFrames(s, ev);
    assert a + [] == a && [] + b == b && [] + c == c && (a + b) + [] == a + b;
  }

  // ----- the source's emitter object -----

  datatype ToolBlock = ToolBlock(index: nat, id: string, name: string, args: string)

  class AnthropicEmitter {
    const read: JsonReader
    var messageId: string
    var model: string
    var started: bool
    var nextIndex: nat
    var thinkingIndex: Option<nat>
    var thinkingText: string
    var textIndex: Option<nat>
    var textText: string
    var tools: map<nat, ToolBlock>
    var anyTool: bool
    var usage: Option<Usage>
    var finalBlocks: seq<Block>
    ghost var core: State

    ghost predicate Valid()
      reads this
    {
      && messageId == core.responseId && model == core.model && usage == core.usage
      && nextIndex == core.next && anyTool == core.called
      && thinkingIndex == core.thinking && thinkingText == core.thinkingText
      && textIndex == core.prose && textText == core.proseText
      && tools.Keys == core.calls.Keys
      && (forall x :: x in tools ==> tools[x] == Opened(core.calls[x]))
      && finalBlocks == Content(read, core.done)
    }

    static function Opened(c: OpenCall): ToolBlock {
      ToolBlock(c.i, c.callId, c.name, c.args)
    }

    constructor (read: JsonReader)
      ensures Valid() && core == INIT && !started && this.read == read
    {
      this.read := read;
      messageId, model, started, nextIndex := "", "", false, 0;
      thinkingIndex, thinkingText, textIndex, textText := None, "", None, "";
      tools, anyTool, usage, finalBlocks := map[], false, None, [];
      core := INIT;
    }

    method OnEvent(ev: Event) returns (f: seq<Frame>)
      requires Valid()
      modifies this
      ensures Valid() && core == Step(old(core), ev).state
      ensures started == (old(started) || Announces(ev))
      ensures f == Frames(old(core), old(started), ev)
    {
      f := [];
      FramesByEvent(core, started, ev);
      match ev {
        case Created(id, m) => f := OnCreated(id, m);
        case ReasoningDelta(text) => f := OnReasoning(text);
        case TextDelta(text) => f := OnText(text);
        case ToolCallStart(index, callId, name) => f := OnToolStart(index, callId, name);
        case ToolCallArgsDelta(index, delta) => f := OnToolArgs(index, delta);
        case ToolCallDone(index) => f := OnToolDone(index);
        case UsageReport(u) =>
          usage := Some(u);
          core := core.(usage := Some(u));
        case Completed => f := OnCompleted();
        case Error(message, status) => f := f + [ErrorFrame(message, status)];
      }
    }

    /** `message_start` once, before anything else that is announced. */
    method Start(f: seq<Frame>) returns (f': seq<Frame>)
      modifies this`started
      ensures started
      ensures f' == f + if old(started) then [] else [MessageStart(messageId, model)]
    {
      if started { return f; }
      started := true;
      f' := f + [MessageStart(messageId, model)];
    }

    method OnCreated(id: string, m: string) returns (f: seq<Frame>)
      requires Valid()
      modifies this
      ensures Valid() && core == Step(old(core), Created(id, m)).state && started
      ensures f == StartFrames(old(core), old(started), Created(id, m))
    {
      messageId, model := id, m;
      core := core.(responseId := id, model := m);
      f := Start([]);
    }

    method OnReasoning(text: string) returns (f: seq<Frame>)
      requires Valid()
      modifies this
      ensures Valid() && core == Think(old(core), text).state && started
      ensures f == StartFrames(old(core), old(started), ReasoningDelta(text)) + RenderAll(Think(old(core), text).marks)
    {
      f := Start([]);
      ghost var lead := f;
      f := EnsureThinkingOpen(f);
      thinkingText := thinkingText + text;
      var index := thinkingIndex.value;
      f := f + [ContentBlockDelta(index, ThinkingDelta(text))];
      ghost var m := Delta(index, Thought, text);
      RenderOne(m);
      RenderJoined(lead, OpenThinking(old(core)).marks, [m]);
      core := Think(old(core), text).state;
    }

    method OnText(text: string) returns (f: seq<Frame>)
      requires Valid()
      modifies this
      ensures Valid() && core == Speak(old(core), text).state && started
      ensures f == StartFrames(old(core), old(started), TextDelta(text)) + RenderAll(Speak(old(core), text).marks)
    {
      f := Start([]);
      f := Say(f, text);
    }

    method Say(f: seq<Frame>, text: string) returns (f': seq<Frame>)
      requires Valid()
      modifies this
      ensures Valid() && core == Speak(old(core), text).state && started == old(started)
      ensures f' == f + RenderAll(Speak(old(core), text).marks)
    {
      f' := SwitchToText(f);
      ghost var a := CloseThinking(old(core));
      ghost var before := a.marks + OpenProse(a.state).marks;
      f' := PushText(f', text);
      RenderJoined(f, before, [Delta(core.prose.value, Speech, text)]);
    }

    method PushText(f: seq<Frame>, text: string) returns (f': seq<Frame>)
      requires Valid() && core.prose.Some?
      modifies this`textText, this`core
      ensures Valid() && core == old(core).(proseText := old(core).proseText + text)
      ensures f' == f + RenderAll([Delta(core.prose.value, Speech, text)])
    {
      textText := textText + text;
      var index := textIndex.value;
      f' := f + [ContentBlockDelta(index, TextPiece(text))];
      RenderOne(Delta(index, Speech, text));
      core := core.(proseText := textText);
    }

    method SwitchToText(f: seq<Frame>) returns (f': seq<Frame>)
      requires Valid()
      modifies this
      ensures var a := CloseThinking(old(core)); var b := OpenProse(a.state);
        core == b.state && f' == f + RenderAll(a.marks + b.marks)
      ensures Valid() && started == old(started)
    {
      f' := CloseThinkingBlock(f);
      ghost var mid := core;
      f' := EnsureTextOpen(f');
      RenderJoined(f, CloseThinking(old(core)).marks, OpenProse(mid).marks);
    }

    method CloseBoth(f: seq<Frame>) returns (f': seq<Frame>)
      requires Valid()
      modifies this
      ensures Valid() && core == CloseSpoken(old(core)).state && started == old(started)
      ensures f' == f + RenderAll(CloseSpoken(old(core)).marks)
    {
      f' := CloseThinkingBlock(f);
      f' := CloseText(f');
      ghost var a := CloseThinking(old(core));
      RenderJoined(f, a.marks, CloseProse(a.state).marks);
    }

    method OnToolStart(index: nat, callId: string, name: string) returns (f: seq<Frame>)
      requires Valid()
      modifies this
      ensures Valid() && core == StartCall(old(core), index, callId, name).state && started
      ensures f == StartFrames(old(core), old(started), ToolCallStart(index, callId, name))
        + RenderAll(StartCall(old(core), index, callId, name).marks)
    {
      f := Start([]);
      ghost var lead := f;
      f := CloseBoth(f);
      ghost var mid := core;
      f := OpenTool(f, index, callId, name);
      RenderJoined(lead, CloseSpoken(old(core)).marks, OpenNewCall(mid, index, callId, name).marks);
    }

    method OpenTool(f: seq<Frame>, index: nat, callId: string, name: string) returns (f': seq<Frame>)
      requires Valid()
      modifies this
      ensures Valid() && core == OpenNewCall(old(core), index, callId, name).state && started == old(started)
      ensures f' == f + RenderAll(OpenNewCall(old(core), index, callId, name).marks)
    {
      var blockIndex := AllocIndex();
      anyTool := true;
      f' := f + [ContentBlockStart(blockIndex, ToolUse(callId, name, Json.Obj(map[])))];
      tools := tools[index := ToolBlock(blockIndex, callId, name, "")];
      RenderOne(Open(blockIndex, CallKind(callId, name)));
      core := OpenNewCall(core, index, callId, name).state;
    }

    method OnToolArgs(index: nat, delta: string) returns (f: seq<Frame>)
      requires Valid()
      modifies this
      ensures Valid() && core == FeedCall(old(core), index, delta).state && started == old(started)
      ensures f == RenderAll(FeedCall(old(core), index, delta).marks)
    {
      f := [];
      if index in tools {
        var tb := tools[index];
        tools := tools[index := tb.(args := tb.args + delta)];
        f := f + [ContentBlockDelta(tb.index, InputJsonDelta(delta))];
        RenderOne(Delta(tb.index, Arguments, delta));
      }
      core := FeedCall(old(core), index, delta).state;
    }

    method OnToolDone(index: nat) returns (f: seq<Frame>)
      requires Valid()
      modifies this
      ensures Valid() && core == CloseCall(old(core), index).state && started == old(started)
      ensures f == RenderAll(CloseCall(old(core), index).marks)
    {
      f := [];
      if index in tools {
        var tb := tools[index];
        tools := tools - {index};
        f := FinishTool(f, tb);
        RenderOne(Close(tb.index, core.calls[index].Finished()));
      }
      core := CloseCall(old(core), index).state;
    }

    method CloseEverything() returns (f: seq<Frame>)
      requires Valid()
      modifies this
      ensures Valid() && core == Finish(old(core)).state && started == old(started)
      ensures f == RenderAll(Finish(old(core)).marks)
    {
      f := CloseBoth([]);
      ghost var spoken, calls := CloseSpoken(old(core)), CloseAllCalls(core);
      assert f == RenderAll(spoken.marks);
      f := CloseOpenTools(f);
      RenderAllAppend(spoken.marks, calls.marks);
      assert Finish(old(core)).marks == spoken.marks + calls.marks;
    }

    method OnCompleted() returns (f: seq<Frame>)
      requires Valid()
      modifies this
      ensures Valid() && core == Finish(old(core)).state && started == old(started)
      ensures f == RenderAll(Finish(old(core)).marks)
        + [MessageDelta(StopReason(core.called), CountsOf(core.usage)), MessageStop]
    {
      f := CloseEverything();
      f := f + [MessageDelta(StopReason(anyTool), CountsOf(usage))];
      f := f + [MessageStop];
    }

    /** The full non-streaming message. */
    method FinalMessage() returns (message: Message)
      requires Valid()
      ensures message == Final(read, core)
    {
      message := Message(messageId, model, finalBlocks, StopReason(anyTool), CountsOf(usage));
    }

    method AllocIndex() returns (i: nat)
      modifies this`nextIndex
      ensures i == old(nextIndex) && nextIndex == i + 1
    {
      i := nextIndex;
      nextIndex := nextIndex + 1;
    }

    method EnsureThinkingOpen(f: seq<Frame>) returns (f': seq<Frame>)
      requires Valid()
      modifies this
      ensures Valid() && core == OpenThinking(old(core)).state && started == old(started)
      ensures f' == f + RenderAll(OpenThinking(old(core)).marks)
    {
      if thinkingIndex.Some? { return f; }
      var index := AllocIndex();
      f' := f + [ContentBlockStart(index, ThinkingBlock("", None))];
      thinkingIndex := Some(index);
      RenderOne(Open(index, ReasoningKind));
      core := OpenThinking(core).state;
    }

    method CloseThinkingBlock(f: seq<Frame>) returns (f': seq<Frame>)
      requires Valid()
      modifies this
      ensures Valid() && core == CloseThinking(old(core)).state && started == old(started)
      ensures f' == f + RenderAll(CloseThinking(old(core)).marks)
    {
      f' := f;
      if thinkingIndex.Some? {
        var index := thinkingIndex.value;
        thinkingIndex := None;
        f' := f' + [ContentBlockDelta(index, SignatureDelta(THINKING_SIGNATURE))];
        f' := f' + [ContentBlockStop(index)];
        finalBlocks := finalBlocks + [ThinkingBlock(thinkingText, Some(THINKING_SIGNATURE))];
        RenderOne(Close(index, Reasoning(thinkingText)));
      }
      core := CloseThinking(core).state;
    }

    method EnsureTextOpen(f: seq<Frame>) returns (f': seq<Frame>)
      requires Valid()
      modifies this
      ensures Valid() && core == OpenProse(old(core)).state && started == old(started)
      ensures f' == f + RenderAll(OpenProse(old(core)).marks)
    {
      if textIndex.Some? { return f; }
      var index := AllocIndex();
      f' := f + [ContentBlockStart(index, TextBlock(""))];
      textIndex := Some(index);
      RenderOne(Open(index, ProseKind));
      core := OpenProse(core).state;
    }

    method CloseText(f: seq<Frame>) returns (f': seq<Frame>)
      requires Valid()
      modifies this
      ensures Valid() && core == CloseProse(old(core)).state && started == old(started)
      ensures f' == f + RenderAll(CloseProse(old(core)).marks)
    {
      f' := f;
      if textIndex.Some? {
        var index := textIndex.value;
        textIndex := None;
        f' := f' + [ContentBlockStop(index)];
        finalBlocks := finalBlocks + [TextBlock(textText)];
        RenderOne(Close(index, Prose(textText)));
      }
      core := CloseProse(core).state;
    }

    method FinishTool(f: seq<Frame>, tb: ToolBlock) returns (f': seq<Frame>)
      modifies this`finalBlocks
      ensures finalBlocks == old(finalBlocks) + [ToolUse(tb.id, tb.name, InputOf(read, tb.args))]
      ensures f' == f + [ContentBlockStop(tb.index)]
    {
      var input := UnwrapOr(read(tb.args), Json.Obj(map[]));
      f' := f + [ContentBlockStop(tb.index)];
      finalBlocks := finalBlocks + [ToolUse(tb.id, tb.name, input)];
    }

    method CloseOpenTools(f: seq<Frame>) returns (f': seq<Frame>)
      requires Valid()
      modifies this`tools, this`finalBlocks, this`core
      ensures Valid() && core == CloseAllCalls(old(core)).state
      ensures f' == f + RenderAll(CloseAllCalls(old(core)).marks)
    {
      ghost var was := core;
      f' := FinishAllTools(f);
      CloseAllShape(was);
      core := CloseAllCalls(was).state;
    }

    method FinishAllTools(f: seq<Frame>) returns (f': seq<Frame>)
      requires Valid()
      modifies this`tools, this`finalBlocks
      ensures tools == map[] && finalBlocks == Content(read, CloseAllCalls(core).state.done)
      ensures f' == f + RenderAll(CloseAllCalls(core).marks)
    {
      var taken := tools;
      tools := map[];
      f' := FinishTools(f, taken, core);
    }

    /** The calls come out of the source's tree map in index order. */
    method FinishTools(f: seq<Frame>, taken: map<nat, ToolBlock>, ghost s: State) returns (f': seq<Frame>)
      requires taken.Keys == s.calls.Keys && forall x :: x in taken ==> taken[x] == Opened(s.calls[x])
      requires finalBlocks == Content(read, s.done)
      modifies this`finalBlocks
      ensures finalBlocks == Content(read, CloseAllCalls(s).state.done)
      ensures f' == f + RenderAll(CloseAllCalls(s).marks)
    {
      var order := Ordered.SortAscending(taken.Keys);
      f' := f;
      for k := 0 to |order|
        invariant finalBlocks == Content(read, CloseCalls(s, order[..k]).state.done)
        invariant f' == f + RenderAll(CloseCalls(s, order[..k]).marks)
      {
        assert order[k] in Ordered.Elements(order);
        CloseNext(read, s, order, k);
        f' := FinishTool(f', taken[order[k]]);
      }
      assert order[..|order|] == order;
    }
  }

  /** What closing one more call adds to the finished blocks and to the frames. */
  lemma CloseNext(read: JsonReader, s: State, order: seq<nat>, k: nat)
    requires k < |order| && Ordered.Increasing(order) && order[k] in s.calls
    ensures var a, b, c := CloseCalls(s, order[..k]), CloseCalls(s, order[..k + 1]), s.calls[order[k]];
      && Content(read, b.state.done) == Content(read, a.state.done) + [DoneBlock(read, c.Finished())]
      && RenderAll(b.marks) == RenderAll(a.marks) + Render(Close(c.i, c.Finished()))
  {
    var c := s.calls[order[k]];
    CloseOneMore(s, order, k);
    RenderOne(Close(c.i, c.Finished()));
    RenderAllAppend(CloseCalls(s, order[..k]).marks, [Close(c.i, c.Finished())]);
  }
}
