/** Upstream Chat Completions JSON, whole or in stream chunks, to canonical events. */
module ChatStream {
  import opened Wrappers
  import opened Json
  import opened Canonical
  import Ordered

  // ----- what a chunk (or a whole message) carries -----

  datatype ToolEntry = ToolEntry(index: nat, callId: string, name: string, args: string)

  /** The first element of `choices`. */
  function FirstChoice(v: Value): Option<Value> {
    match AsArr(v.Get("choices"))
    case Some(items) => if items == [] then None else Some(items[0])
    case None => None
  }

  function DeltaOf(chunk: Value): Option<Value> {
    Field(FirstChoice(chunk), "delta")
  }

  /** `reasoning_content`, or `reasoning` when the former key is absent. */
  function ReasoningOf(part: Option<Value>): string {
    StrOr(OrElse(Field(part, "reasoning_content"), Field(part, "reasoning")))
  }

  function ContentOf(part: Option<Value>): string {
    StrOr(Field(part, "content"))
  }

  function EntryOf(tc: Value): ToolEntry {
    ToolEntry(
      U32Or0(tc.Get("index")),
      StrOr(tc.Get("id")),
      StrOr(Field(tc.Get("function"), "name")),
      StrOr(Field(tc.Get("function"), "arguments")))
  }

  function EntriesOf(part: Option<Value>): seq<ToolEntry> {
    match AsArr(Field(part, "tool_calls"))
    case Some(items) => ReadEntries(items)
    case None => []
  }

  function ReadEntries(items: seq<Value>): seq<ToolEntry> {
    seq(|items|, k requires 0 <= k < |items| => EntryOf(items[k]))
  }

  function Finishes(chunk: Value): bool {
    AsStr(Field(FirstChoice(chunk), "finish_reason")).Some?
  }

  function NonNull(v: Option<Value>): Option<Value> {
    if v.Some? && v.value.Null? then None else v
  }

  function UsageOf(v: Value): Option<Usage> {
    match NonNull(v.Get("usage"))
    case Some(u) => Some(ReadUsage(u))
    case None => None
  }

  function ReadUsage(u: Value): Usage {
    Usage(
      U32Or0(u.Get("prompt_tokens")),
      U32Or0(u.Get("completion_tokens")),
      U32Or0(u.Get("total_tokens")),
      UnwrapOr(OrElse(AsU64(Field(u.Get("prompt_tokens_details"), "cached_tokens")),
                      AsU64(u.Get("prompt_cache_hit_tokens"))), 0) % U32_RANGE,
      U32Or0(Field(u.Get("completion_tokens_details"), "reasoning_tokens")))
  }

  /** All that a chunk says: an error, with the default message and status and the
      status cut to 16 bits, or content. */
  datatype Digest =
    | Failure(message: string, status: nat)
    | Content(model: string, reasoning: string, content: string, entries: seq<ToolEntry>, finishes: bool,
      usage: Option<Usage>)

  function Read(chunk: Value): Digest {
    match NonNull(chunk.Get("error"))
    case Some(err) => Failure(
      UnwrapOr(AsStr(err.Get("message")), "upstream error"),
      if AsU64(err.Get("code")).Some? then AsU64(err.Get("code")).value % 0x1_0000 else 502)
    case None =>
      var delta := DeltaOf(chunk);
      Content(ModelOf(chunk), ReasoningOf(delta), ContentOf(delta), EntriesOf(delta), Finishes(chunk), UsageOf(chunk))
  }

  function ModelOf(v: Value): string {
    StrOr(v.Get("model"))
  }

  // ----- events of one chunk -----

  datatype Parser = Parser(responseId: string, model: string, created: bool, started: set<nat>)

  function NewParser(responseId: string): Parser {
    Parser(responseId, "", false, {})
  }

  function TextEvents(reasoning: string, content: string): seq<Event> {
    (if reasoning == "" then [] else [ReasoningDelta(reasoning)])
    + (if content == "" then [] else [TextDelta(content)])
  }

  function EntryEvents(started: set<nat>, e: ToolEntry): seq<Event> {
    (if e.index in started then [] else [ToolCallStart(e.index, e.callId, e.name)])
    + (if e.args == "" then [] else [ToolCallArgsDelta(e.index, e.args)])
  }

  function EntriesEvents(started: set<nat>, es: seq<ToolEntry>): seq<Event>
    decreases es
  {
    if es == [] then [] else EntryEvents(started, es[0]) + EntriesEvents(started + {es[0].index}, es[1..])
  }

  function Indices(es: seq<ToolEntry>): set<nat> {
    set k | 0 <= k < |es| :: es[k].index
  }

  function DoneEvents(order: seq<nat>): seq<Event> {
    seq(|order|, k requires 0 <= k < |order| => ToolCallDone(order[k]))
  }

  function CreatedEvents(p: Parser, model: string): seq<Event> {
    if p.created then [] else [Created(p.responseId, model)]
  }

  ghost function FinishEvents(started: set<nat>, finishes: bool): seq<Event> {
    if finishes then DoneEvents(Ordered.Ascending(started)) else []
  }

  function UsageEvents(usage: Option<Usage>): seq<Event> {
    if usage.Some? then [UsageReport(usage.value)] else []
  }

  ghost function ChoiceEvents(started: set<nat>, d: Digest): seq<Event>
    requires d.Content?
  {
    TextEvents(d.reasoning, d.content)
    + EntriesEvents(started, d.entries)
    + FinishEvents(started + Indices(d.entries), d.finishes)
  }

  /** The events a parser makes of one digested chunk. */
  ghost function Emit(p: Parser, d: Digest): seq<Event> {
    if d.Failure? then [Error(d.message, d.status)] else
      CreatedEvents(p, d.model) + ChoiceEvents(p.started, d) + UsageEvents(d.usage)
  }

  function HeadEvents(p: Parser, d: Digest): seq<Event>
    requires d.Content?
  {
    CreatedEvents(p, d.model) + TextEvents(d.reasoning, d.content)
  }

  ghost function TailEvents(started: set<nat>, d: Digest): seq<Event>
    requires d.Content?
  {
    FinishEvents(started, d.finishes) + UsageEvents(d.usage)
  }

  lemma EmitParts(p: Parser, d: Digest)
    requires d.Content?
    ensures Emit(p, d) == HeadEvents(p, d)
      + (EntriesEvents(p.started, d.entries) + TailEvents(p.started + Indices(d.entries), d))
  {
    Regroup(CreatedEvents(p, d.model), TextEvents(d.reasoning, d.content), EntriesEvents(p.started, d.entries),
      FinishEvents(p.started + Indices(d.entries), d.finishes), UsageEvents(d.usage));
  }

  lemma Regroup(a: seq<Event>, b: seq<Event>, c: seq<Event>, d: seq<Event>, e: seq<Event>)
    ensures a + (b + c + d) + e == (a + b) + (c + (d + e))
  {
  }

  function Advance(p: Parser, d: Digest): Parser {
    if d.Failure? then p else
      Parser(p.responseId, if p.created then p.model else d.model, true, p.started + Indices(d.entries))
  }

  /** The source's translator object. */
  class ChatStreamParser {
    var responseId: string
    var model: string
    var created: bool
    var startedTools: set<nat>

    ghost function State(): Parser
      reads this
    {
      Parser(responseId, model, created, startedTools)
    }

    constructor (responseId: string)
      ensures State() == NewParser(responseId)
    {
      this.responseId := responseId;
      model := "";
      created := false;
      startedTools := {};
    }

    method OnChunk(chunk: Value) returns (events: seq<Event>)
      modifies this
      ensures events == Emit(old(State()), Read(chunk))
      ensures State() == Advance(old(State()), Read(chunk))
    {
      var err := TakeError(chunk);
      if err.Some? {
        return [err.value];
      }
      events := [];
      if !created {
        model := ModelOf(chunk);
        events := events + [Created(responseId, model)];
        created := true;
      }
      ghost var p, d := old(State()), Read(chunk);
      assert events == CreatedEvents(p, d.model);
      var said := TakeChoice(chunk, d);
      events := events + said;
      var counted := TakeUsage(chunk);
      events := events + counted;
      assert events == CreatedEvents(p, d.model) + said + counted;
    }

    method TakeChoice(chunk: Value, ghost d: Digest) returns (events: seq<Event>)
      modifies this`startedTools
      requires d == Read(chunk) && d.Content?
      ensures events == ChoiceEvents(old(startedTools), d)
      ensures startedTools == old(startedTools) + Indices(d.entries)
    {
      events := [];
      var choice := FirstChoice(chunk);
      if choice.Some? {
        events := TakeDelta(choice.value.Get("delta"));
        if AsStr(choice.value.Get("finish_reason")).Some? {
          var order := Ordered.SortAscending(startedTools);
          var dones := FinishTools(order);
          events := events + dones;
        }
      } else {
        NoEntries(startedTools);
      }
    }

    method TakeDelta(delta: Option<Value>) returns (events: seq<Event>)
      modifies this`startedTools
      ensures events == TextEvents(ReasoningOf(delta), ContentOf(delta))
        + EntriesEvents(old(startedTools), EntriesOf(delta))
      ensures startedTools == old(startedTools) + Indices(EntriesOf(delta))
    {
      events := [];
      NoEntries(startedTools);
      if delta.Some? {
        events := TakeText(delta.value);
        var tcs := AsArr(delta.value.Get("tool_calls"));
        if tcs.Some? {
          var toolEvents := TakeEntries(tcs.value);
          events := events + toolEvents;
        }
      }
    }

    method TakeEntry(tc: Value) returns (events: seq<Event>)
      modifies this`startedTools
      ensures events == EntryEvents(old(startedTools), EntryOf(tc))
      ensures startedTools == old(startedTools) + {EntryOf(tc).index}
    {
      events := [];
      var index := U32Or0(tc.Get("index"));
      if index !in startedTools {
        var callId := StrOr(tc.Get("id"));
        var name := StrOr(Field(tc.Get("function"), "name"));
        startedTools := startedTools + {index};
        events := events + [ToolCallStart(index, callId, name)];
      }
      var args := AsStr(Field(tc.Get("function"), "arguments"));
      if args.Some? && args.value != "" {
        events := events + [ToolCallArgsDelta(index, args.value)];
      }
    }

    /** The loop over `tool_calls`. */
    method TakeEntries(tcs: seq<Value>) returns (events: seq<Event>)
      modifies this`startedTools
      ensures events == EntriesEvents(old(startedTools), ReadEntries(tcs))
      ensures startedTools == old(startedTools) + Indices(ReadEntries(tcs))
    {
      events := [];
      ghost var es, before := ReadEntries(tcs), startedTools;
      NoEntries(before);
      for k := 0 to |tcs|
        invariant events == EntriesEvents(before, es[..k])
        invariant startedTools == before + Indices(es[..k])
      {
        NextEntry(before, es, k);
        var more := TakeEntry(tcs[k]);
        events := events + more;
      }
      assert es[..|tcs|] == es;
    }
  }

  method TakeError(chunk: Value) returns (ev: Option<Event>)
    ensures if Read(chunk).Failure? then ev == Some(Error(Read(chunk).message, Read(chunk).status)) else ev == None
  {
    var err := chunk.Get("error");
    if err.Some? && !err.value.Null? {
      var message := UnwrapOr(AsStr(err.value.Get("message")), "upstream error");
      var code := AsU64(err.value.Get("code"));
      return Some(Error(message, if code.Some? then code.value % 0x1_0000 else 502));
    }
    return None;
  }

  method TakeUsage(v: Value) returns (events: seq<Event>)
    ensures events == UsageEvents(UsageOf(v))
  {
    events := [];
    var u := v.Get("usage");
    if u.Some? && !u.value.Null? {
      events := events + [UsageReport(ReadUsage(u.value))];
    }
  }

  method TakeText(part: Value) returns (events: seq<Event>)
    ensures events == TextEvents(ReasoningOf(Some(part)), ContentOf(Some(part)))
  {
    events := [];
    var rc := AsStr(OrElse(part.Get("reasoning_content"), part.Get("reasoning")));
    if rc.Some? && rc.value != "" {
      events := events + [ReasoningDelta(rc.value)];
    }
    var c := AsStr(part.Get("content"));
    if c.Some? && c.value != "" {
      events := events + [TextDelta(c.value)];
    }
  }

  method FinishTools(order: seq<nat>) returns (events: seq<Event>)
    ensures events == DoneEvents(order)
  {
    events := [];
    for k := 0 to |order|
      invariant events == DoneEvents(order[..k])
    {
      events := events + [ToolCallDone(order[k])];
    }
    assert order[..|order|] == order;
  }

  lemma NoEntries(started: set<nat>)
    ensures EntriesEvents(started, []) == [] && Indices([]) == {}
  {
  }

  lemma NextEntry(started: set<nat>, es: seq<ToolEntry>, k: nat)
    requires k < |es|
    ensures EntriesEvents(started, es[..k + 1])
      == EntriesEvents(started, es[..k]) + EntryEvents(started + Indices(es[..k]), es[k])
    ensures started + Indices(es[..k + 1]) == (started + Indices(es[..k])) + {es[k].index}
  {
    EntriesEventsSnoc(started, es[..k], es[k]);
    assert es[..k + 1] == es[..k] + [es[k]];
  }

  lemma {:induction false} EntriesEventsSnoc(started: set<nat>, es: seq<ToolEntry>, e: ToolEntry)
    ensures EntriesEvents(started, es + [e]) == EntriesEvents(started, es) + EntryEvents(started + Indices(es), e)
    ensures Indices(es + [e]) == Indices(es) + {e.index}
    decreases es
  {
    IndicesSnoc(es, e);
    if es == [] {
      NoEntries(started);
      NoEntries(started + {e.index});
      assert (es + [e])[1..] == [];
      assert started + Indices(es) == started;
    } else {
      var started' := started + {es[0].index};
      assert (es + [e])[0] == es[0] && (es + [e])[1..] == es[1..] + [e];
      EntriesEventsSnoc(started', es[1..], e);
      IndicesStep(es);
      assert started' + Indices(es[1..]) == started + Indices(es);
      Joined(EntryEvents(started, es[0]), EntriesEvents(started', es[1..]), EntryEvents(started + Indices(es), e));
    }
  }

  lemma Joined(a: seq<Event>, b: seq<Event>, c: seq<Event>)
    ensures a + (b + c) == (a + b) + c
  {
  }

  lemma IndicesSnoc(es: seq<ToolEntry>, e: ToolEntry)
    ensures Indices(es + [e]) == Indices(es) + {e.index}
  {
    var all := es + [e];
    assert forall k :: 0 <= k < |es| ==> all[k] == es[k];
    assert all[|es|] == e;
  }

  lemma IndicesStep(es: seq<ToolEntry>)
    requires es != []
    ensures Indices(es) == {es[0].index} + Indices(es[1..])
  {
    forall x ensures x in Indices(es) <==> x in {es[0].index} + Indices(es[1..]) {
      if x in Indices(es) {
        var k :| 0 <= k < |es| && es[k].index == x;
        if k > 0 { assert es[1..][k - 1].index == x; }
      }
      if x in Indices(es[1..]) {
        var k :| 0 <= k < |es[1..]| && es[1..][k].index == x;
        assert es[k + 1].index == x;
      }
    }
  }

  // ----- whole (non-streaming) completions -----

  function MessageOf(resp: Value): Option<Value> {
    Field(FirstChoice(resp), "message")
  }

  function CallEvents(index: nat, e: ToolEntry): seq<Event> {
    [ToolCallStart(index, e.callId, e.name)]
    + (if e.args == "" then [] else [ToolCallArgsDelta(index, e.args)])
    + [ToolCallDone(index)]
  }

  /** Events of the listed calls, the k-th of all calls having index k as a 32-bit word. */
  function CallsEvents(from: nat, es: seq<ToolEntry>): seq<Event>
    decreases es
  {
    if es == [] then [] else CallEvents(from % U32_RANGE, es[0]) + CallsEvents(from + 1, es[1..])
  }

  function CompletionSpec(resp: Value, responseId: string): seq<Event> {
    var msg := MessageOf(resp);
    [Created(responseId, ModelOf(resp))]
    + TextEvents(ReasoningOf(msg), ContentOf(msg))
    + CallsEvents(0, EntriesOf(msg))
    + UsageEvents(UsageOf(resp))
    + [Completed]
  }

  method CompletionToEvents(resp: Value, responseId: string) returns (events: seq<Event>)
    ensures events == CompletionSpec(resp, responseId)
  {
    events := [Created(responseId, ModelOf(resp))];
    var said := TakeMessage(MessageOf(resp));
    events := events + said;
    var counted := TakeUsage(resp);
    events := events + counted;
    events := events + [Completed];
    assert events == [Created(responseId, ModelOf(resp))] + said + counted + [Completed];
  }

  method TakeMessage(msg: Option<Value>) returns (events: seq<Event>)
    ensures events == TextEvents(ReasoningOf(msg), ContentOf(msg)) + CallsEvents(0, EntriesOf(msg))
  {
    events := [];
    if msg.Some? {
      events := TakeText(msg.value);
      var tcs := AsArr(msg.value.Get("tool_calls"));
      if tcs.Some? {
        var calls := TakeCalls(tcs.value);
        events := events + calls;
      }
    }
  }

  method TakeCalls(tcs: seq<Value>) returns (events: seq<Event>)
    ensures events == CallsEvents(0, ReadEntries(tcs))
  {
    events := [];
    ghost var es := ReadEntries(tcs);
    for k := 0 to |tcs|
      invariant events == CallsEvents(0, es[..k])
    {
      var tc := tcs[k];
      var index := k % U32_RANGE;
      var callId := StrOr(tc.Get("id"));
      var name := StrOr(Field(tc.Get("function"), "name"));
      var args := StrOr(Field(tc.Get("function"), "arguments"));
      NextCall(es, k);
      events := events + [ToolCallStart(index, callId, name)];
      if args != "" {
        events := events + [ToolCallArgsDelta(index, args)];
      }
      events := events + [ToolCallDone(index)];
    }
    assert es[..|tcs|] == es;
  }

  lemma NextCall(es: seq<ToolEntry>, k: nat)
    requires k < |es|
    ensures var before, index, e := CallsEvents(0, es[..k]), k % U32_RANGE, es[k];
      CallsEvents(0, es[..k + 1]) == before + [ToolCallStart(index, e.callId, e.name)]
        + (if e.args == "" then [] else [ToolCallArgsDelta(index, e.args)]) + [ToolCallDone(index)]
  {
    var index, e := k % U32_RANGE, es[k];
    CallsEventsSnoc(0, es[..k], e);
    assert es[..k + 1] == es[..k] + [e];
    ThreeMore(CallsEvents(0, es[..k]), [ToolCallStart(index, e.callId, e.name)],
      if e.args == "" then [] else [ToolCallArgsDelta(index, e.args)], [ToolCallDone(index)]);
  }

  lemma ThreeMore(a: seq<Event>, b: seq<Event>, c: seq<Event>, d: seq<Event>)
    ensures a + (b + c + d) == a + b + c + d
  {
  }

  lemma {:induction false} CallsEventsSnoc(from: nat, es: seq<ToolEntry>, e: ToolEntry)
    ensures CallsEvents(from, es + [e]) == CallsEvents(from, es) + CallEvents((from + |es|) % U32_RANGE, e)
    decreases es
  {
    if es == [] {
      assert (es + [e])[1..] == [];
    } else {
      assert (es + [e])[0] == es[0] && (es + [e])[1..] == es[1..] + [e];
      CallsEventsSnoc(from + 1, es[1..], e);
    }
  }
}
