/** Chat Completions JSON as upstreams write it, and that the readers get back exactly
    what was written. */
module UpstreamJson {
  import opened Wrappers
  import opened Json
  import opened Canonical
  import opened ChatStream
  import opened ChatRequest
  import Agreement

  /** Ways of writing the same thing: empty texts left out, reasoning under its short key,
      nulls where there is nothing, cached tokens as DeepSeek reports them. */
  datatype Style = Style(sparse: bool, shortReasoning: bool, nulls: bool, cacheHits: bool, finishReason: string)

  function TextOr(sparse: bool, text: string): Option<Value> {
    if sparse && text == "" then None else Some(Str(text))
  }

  function NullIf(b: bool): Option<Value> {
    if b then Some(Null) else None
  }

  function UsageJson(style: Style, u: Usage): Value {
    var counts := map["prompt_tokens" := Int(u.input), "completion_tokens" := Int(u.output),
                      "total_tokens" := Int(u.total),
                      "completion_tokens_details" := Obj(map["reasoning_tokens" := Int(u.reasoning)])];
    Obj(if style.cacheHits then counts["prompt_cache_hit_tokens" := Int(u.cached)]
        else counts["prompt_tokens_details" := Obj(map["cached_tokens" := Int(u.cached)])])
  }

  function FragmentJson(style: Style, e: ToolEntry): Value {
    var name := Put(map[], "name", TextOr(style.sparse, e.name));
    var called := Put(name, "arguments", TextOr(style.sparse, e.args));
    Obj(Put(map["index" := Int(e.index), "function" := Obj(called)], "id", TextOr(style.sparse, e.callId)))
  }

  function FragmentsJson(style: Style, es: seq<ToolEntry>): seq<Value> {
    seq(|es|, k requires 0 <= k < |es| => FragmentJson(style, es[k]))
  }

  /** What the assistant says, in a `delta` or in a `message`. */
  function PartJson(style: Style, reasoning: string, content: string, calls: seq<Value>): Value {
    var base := map["role" := Str("assistant")];
    var thought := Put(base, if style.shortReasoning then "reasoning" else "reasoning_content",
      TextOr(style.sparse, reasoning));
    var said := Put(thought, "content",
      if style.nulls && content == "" then Some(Null) else TextOr(style.sparse, content));
    Obj(Put(said, "tool_calls", if style.sparse && calls == [] then None else Some(Arr(calls))))
  }

  function FinishJson(style: Style, finishes: bool): Option<Value> {
    if finishes then Some(Str(style.finishReason)) else NullIf(style.nulls)
  }

  function TopJson(style: Style, model: string, choices: seq<Value>, usage: Option<Usage>): Value {
    var base := map["object" := Str("chat.completion"), "choices" := Arr(choices)];
    var named := Put(base, "model", TextOr(style.sparse, model));
    var counted := Put(named, "usage",
      if usage.Some? then Some(UsageJson(style, usage.value)) else NullIf(style.nulls));
    Obj(Put(counted, "error", NullIf(style.nulls)))
  }

  function ChoiceJson(style: Style, delta: Value, finishes: bool): Value {
    Obj(Put(map["delta" := delta], "finish_reason", FinishJson(style, finishes)))
  }

  /** Nothing but the model and perhaps the usage. */
  predicate Silent(d: Digest)
    requires d.Content?
  {
    d.reasoning == "" && d.content == "" && d.entries == [] && !d.finishes
  }

  /** A stream chunk that says `d`. */
  function ChunkJson(style: Style, d: Digest): Value
    requires d.Content?
  {
    var delta := PartJson(style, d.reasoning, d.content, FragmentsJson(style, d.entries));
    var choice := ChoiceJson(style, delta, d.finishes);
    TopJson(style, d.model, if style.sparse && Silent(d) then [] else [choice], d.usage)
  }

  /** An assistant's whole answer. */
  datatype Reply = Reply(model: string, reasoning: string, content: string, calls: seq<ToolCall>, usage: Option<Usage>)

  function CompletionJson(style: Style, reply: Reply): Value {
    var message := PartJson(style, reply.reasoning, reply.content, CallsJson(reply.calls));
    var choice := Obj(Put(map["message" := message], "finish_reason", FinishJson(style, true)));
    TopJson(style, reply.model, [choice], reply.usage)
  }

  function ErrorJson(message: Option<string>, code: Option<int>): Value {
    var text := Put(map["type" := Str("upstream")], "message",
      if message.Some? then Some(Str(message.value)) else None);
    Obj(map["error" := Obj(Put(text, "code", if code.Some? then Some(Int(code.value)) else None))])
  }

  // ----- what is read back -----

  predicate WordCounts(u: Usage) {
    u.input < U64_RANGE && u.output < U64_RANGE && u.total < U64_RANGE && u.cached < U64_RANGE
    && u.reasoning < U64_RANGE
  }

  /** The counts cut to 32 bits. */
  function Narrow(u: Usage): Usage {
    Usage(u.input % 0x1_0000_0000, u.output % 0x1_0000_0000, u.total % 0x1_0000_0000, u.cached % 0x1_0000_0000,
      u.reasoning % 0x1_0000_0000)
  }

  function NarrowUsage(u: Option<Usage>): Option<Usage> {
    if u.Some? then Some(Narrow(u.value)) else None
  }

  function NarrowEntries(es: seq<ToolEntry>): seq<ToolEntry> {
    seq(|es|, k requires 0 <= k < |es| => es[k].(index := es[k].index % 0x1_0000_0000))
  }

  /** What a chunk of numbers beyond 32 bits is read as. */
  function NarrowDigest(d: Digest): Digest
    requires d.Content?
  {
    d.(entries := NarrowEntries(d.entries), usage := NarrowUsage(d.usage))
  }

  /** Counts and indices are unsigned 64-bit numbers. */
  predicate Words(d: Digest)
    requires d.Content?
  {
    (d.usage.Some? ==> WordCounts(d.usage.value)) && forall k :: 0 <= k < |d.entries| ==> d.entries[k].index < U64_RANGE
  }

  predicate SmallCounts(u: Usage) {
    u.input < 0x1_0000_0000 && u.output < 0x1_0000_0000 && u.total < 0x1_0000_0000 && u.cached < 0x1_0000_0000
    && u.reasoning < 0x1_0000_0000
  }

  predicate Small(d: Digest)
    requires d.Content?
  {
    && (d.usage.Some? ==> SmallCounts(d.usage.value))
    && forall k :: 0 <= k < |d.entries| ==> d.entries[k].index < 0x1_0000_0000
  }

  lemma TextBack(sparse: bool, text: string)
    ensures StrOr(TextOr(sparse, text)) == text
  {
  }

  lemma UsageBack(style: Style, u: Usage)
    requires WordCounts(u)
    ensures ReadUsage(UsageJson(style, u)) == Narrow(u)
  {
    var v := UsageJson(style, u);
    assert v.Get("prompt_tokens") == Some(Int(u.input)) && v.Get("completion_tokens") == Some(Int(u.output));
    assert v.Get("total_tokens") == Some(Int(u.total));
    assert Field(v.Get("completion_tokens_details"), "reasoning_tokens") == Some(Int(u.reasoning));
    if style.cacheHits {
      assert v.Get("prompt_tokens_details") == None && v.Get("prompt_cache_hit_tokens") == Some(Int(u.cached));
    } else {
      assert Field(v.Get("prompt_tokens_details"), "cached_tokens") == Some(Int(u.cached));
    }
  }

  lemma FragmentBack(style: Style, e: ToolEntry)
    requires e.index < U64_RANGE
    ensures EntryOf(FragmentJson(style, e)) == e.(index := e.index % 0x1_0000_0000)
  {
    var v := FragmentJson(style, e);
    assert v.Get("index") == Some(Int(e.index)) && v.Get("id") == TextOr(style.sparse, e.callId);
    assert Field(v.Get("function"), "name") == TextOr(style.sparse, e.name);
    assert Field(v.Get("function"), "arguments") == TextOr(style.sparse, e.args);
  }

  lemma FragmentsBack(style: Style, es: seq<ToolEntry>)
    requires forall k :: 0 <= k < |es| ==> es[k].index < U64_RANGE
    ensures ReadEntries(FragmentsJson(style, es)) == NarrowEntries(es)
  {
    forall k | 0 <= k < |es| ensures EntryOf(FragmentsJson(style, es)[k]) == NarrowEntries(es)[k] {
      FragmentBack(style, es[k]);
    }
  }

  lemma PartBack(style: Style, reasoning: string, content: string, calls: seq<Value>)
    ensures var part := Some(PartJson(style, reasoning, content, calls));
      ReasoningOf(part) == reasoning && ContentOf(part) == content && EntriesOf(part) == ReadEntries(calls)
  {
    var part := Some(PartJson(style, reasoning, content, calls));
    assert OrElse(Field(part, "reasoning_content"), Field(part, "reasoning")) == TextOr(style.sparse, reasoning);
    assert Field(part, "content") == if style.nulls && content == "" then Some(Null) else TextOr(style.sparse, content);
    assert Field(part, "tool_calls") == if style.sparse && calls == [] then None else Some(Arr(calls));
    assert ReadEntries([]) == [];
  }

  lemma TopBack(style: Style, model: string, choices: seq<Value>, usage: Option<Usage>)
    requires usage.Some? ==> WordCounts(usage.value)
    ensures var v := TopJson(style, model, choices, usage);
      && NonNull(v.Get("error")) == None && ModelOf(v) == model && UsageOf(v) == NarrowUsage(usage)
      && v.Get("choices") == Some(Arr(choices))
  {
    var v := TopJson(style, model, choices, usage);
    assert "usage"[0] != "model"[0] && "error"[0] != "model"[0] && "usage"[0] != "error"[0];
    assert v.Get("error") == NullIf(style.nulls) && v.Get("model") == TextOr(style.sparse, model);
    assert v.Get("usage") == if usage.Some? then Some(UsageJson(style, usage.value)) else NullIf(style.nulls);
    if usage.Some? { UsageBack(style, usage.value); }
  }

  /** A chunk is read as what it says, its counts and indices cut to 32 bits. */
  lemma ChunkBack(style: Style, d: Digest)
    requires d.Content? && Words(d)
    ensures Read(ChunkJson(style, d)) == NarrowDigest(d)
  {
    var calls := FragmentsJson(style, d.entries);
    var delta := PartJson(style, d.reasoning, d.content, calls);
    var choice := ChoiceJson(style, delta, d.finishes);
    var choices := if style.sparse && Silent(d) then [] else [choice];
    TopBack(style, d.model, choices, d.usage);
    PartBack(style, d.reasoning, d.content, calls);
    FragmentsBack(style, d.entries);
    ChoiceBack(style, delta, d.finishes);
    var v := ChunkJson(style, d);
    if choices == [] { NoChoice(v); } else { OneChoice(v, choice); }
  }

  lemma NoChoice(v: Value)
    requires v.Get("choices") == Some(Arr([]))
    ensures DeltaOf(v) == None && !Finishes(v) && ReasoningOf(None) == ContentOf(None) == "" && EntriesOf(None) == []
  {
  }

  lemma OneChoice(v: Value, choice: Value)
    requires v.Get("choices") == Some(Arr([choice]))
    ensures FirstChoice(v) == Some(choice)
  {
  }

  lemma ChoiceBack(style: Style, delta: Value, finishes: bool)
    ensures var choice := ChoiceJson(style, delta, finishes);
      choice.Get("delta") == Some(delta) && (AsStr(choice.Get("finish_reason")).Some? <==> finishes)
  {
  }

  lemma SmallStays(d: Digest)
    requires d.Content? && Small(d)
    ensures Words(d) && NarrowDigest(d) == d
  {
  }

  /** The reply as the readers know it: its calls are numbered by their places. */
  function Whole(reply: Reply): Digest {
    Content(reply.model, reply.reasoning, reply.content, WholeEntries(reply.calls), false, NarrowUsage(reply.usage))
  }

  function WholeEntries(calls: seq<ToolCall>): seq<ToolEntry> {
    seq(|calls|, k requires 0 <= k < |calls| => ToolEntry(0, calls[k].callId, calls[k].name, calls[k].arguments))
  }

  lemma CallBack(call: ToolCall)
    ensures EntryOf(CallJson(call)) == ToolEntry(0, call.callId, call.name, call.arguments)
  {
    var v := CallJson(call);
    assert "type"[0] != "name"[0];
    assert v.Get("index") == None && v.Get("id") == Some(Str(call.callId));
    assert Field(v.Get("function"), "name") == Some(Str(call.name));
    assert Field(v.Get("function"), "arguments") == Some(Str(call.arguments));
  }

  lemma CallsBack(calls: seq<ToolCall>)
    ensures ReadEntries(CallsJson(calls)) == WholeEntries(calls)
  {
    forall k | 0 <= k < |calls| ensures EntryOf(CallsJson(calls)[k]) == WholeEntries(calls)[k] {
      CallBack(calls[k]);
    }
  }

  /** A completion is read as the reply that it says. */
  lemma CompletionBack(style: Style, reply: Reply)
    requires reply.usage.Some? ==> WordCounts(reply.usage.value)
    ensures Agreement.ReadWhole(CompletionJson(style, reply)) == Whole(reply)
  {
    var message := PartJson(style, reply.reasoning, reply.content, CallsJson(reply.calls));
    var choice := Obj(Put(map["message" := message], "finish_reason", FinishJson(style, true)));
    var v := CompletionJson(style, reply);
    TopBack(style, reply.model, [choice], reply.usage);
    PartBack(style, reply.reasoning, reply.content, CallsJson(reply.calls));
    CallsBack(reply.calls);
    assert choice.Get("message") == Some(message);
    OneChoice(v, choice);
    assert MessageOf(v) == Some(message);
  }

  /** An error object is read as its message and its code cut to 16 bits, with a default
      for each that is missing; a code outside the unsigned 64-bit numbers is missing. */
  lemma ErrorBack(message: Option<string>, code: Option<int>)
    ensures Read(ErrorJson(message, code)) == Failure(
      if message.Some? then message.value else "upstream error",
      if code.Some? && 0 <= code.value < 0x1_0000_0000_0000_0000 then code.value % 65536 else 502)
  {
    var err := ErrorJson(message, code).Get("error").value;
    assert "code"[0] != "type"[0];
    assert err.Get("message") == if message.Some? then Some(Str(message.value)) else None;
    assert err.Get("code") == if code.Some? then Some(Int(code.value)) else None;
  }

  /** A null under the long reasoning key hides a text under the short one. */
  lemma NullHidesReasoning(text: string)
    ensures ReasoningOf(Some(Obj(map["reasoning_content" := Null, "reasoning" := Str(text)]))) == ""
    ensures ReasoningOf(Some(Obj(map["reasoning" := Str(text)]))) == text
  {
  }
}
