/** A finished reply, sent back by the client as part of its next request, is read as the
    message it was. */
module EchoBack {
  import opened Wrappers
  import opened Json
  import opened Canonical
  import opened Blocks
  import AI = AnthropicInput
  import Agreement
  import Anthropic
  import Arrival
  import Assembly
  import CC = ClientContent
  import ChatStream
  import F = ChatStreamFacts
  import R = Responses
  import RI = ResponsesInput

  // ----- the calls of a finished message -----

  predicate AllCalls(cs: seq<Part>) {
    forall k :: 0 <= k < |cs| ==> cs[k].Call?
  }

  function CallIn(part: Part): ToolCall
    requires part.Call?
  {
    ToolCall(part.callId, part.name, part.args)
  }

  function CallsOf(cs: seq<Part>): seq<ToolCall>
    requires AllCalls(cs)
  {
    seq(|cs|, k requires 0 <= k < |cs| => CallIn(cs[k]))
  }

  lemma CallsStep(cs: seq<Part>)
    requires AllCalls(cs) && cs != []
    ensures AllCalls(cs[1..]) && CallsOf(cs) == [CallIn(cs[0])] + CallsOf(cs[1..])
  {
  }

  function Present(text: string): Option<string> {
    if text == "" then None else Some(text)
  }

  // ----- Responses -----

  /** Identifiers as strings; what they are does not matter. */
  type Naming = R.Id -> string

  function TextPart(kind: string, text: string): Value {
    Obj(map["type" := Str(kind), "text" := Str(text), "annotations" := Arr([])])
  }

  function SummaryPart(text: string): Value {
    Obj(map["type" := Str("summary_text"), "text" := Str(text)])
  }

  function ItemJson(naming: Naming, item: R.Item): Value {
    match item
    case ReasoningItem(id, summary) =>
      Obj(map["type" := Str("reasoning"), "id" := Str(naming(id)),
              "summary" := Arr(seq(|summary|, k requires 0 <= k < |summary| => SummaryPart(summary[k])))])
    case MessageItem(id, status, content) =>
      Obj(map["type" := Str("message"), "id" := Str(naming(id)), "role" := Str("assistant"), "status" := Str(status),
              "content" := Arr(seq(|content|, k requires 0 <= k < |content| => TextPart("output_text", content[k])))])
    case CallItem(id, callId, name, arguments, status) =>
      Obj(map["type" := Str("function_call"), "id" := Str(naming(id)), "call_id" := Str(callId), "name" := Str(name),
              "arguments" := Str(arguments), "status" := Str(status)])
  }

  function Output(naming: Naming, items: seq<R.Item>): seq<Value> {
    seq(|items|, k requires 0 <= k < |items| => ItemJson(naming, items[k]))
  }

  function InputFor(part: Part): RI.Input {
    match part
    case Reasoning(text) => if text == "" then RI.Ignored else RI.ReasoningItem(text)
    case Prose(text) => RI.AssistantItem(text)
    case Call(_, _, _) => RI.CallItem(CallIn(part))
  }

  function InputsFor(parts: seq<Part>): seq<RI.Input> {
    seq(|parts|, k requires 0 <= k < |parts| => InputFor(parts[k]))
  }

  lemma OneText(v: Value)
    ensures RI.JoinTexts([v]) == StrOr(v.Get("text"))
  {
    assert [v][1..] == [] && StrOr(v.Get("text")) + "" == StrOr(v.Get("text"));
  }

  lemma ReasoningReads(show: RI.Printer, naming: Naming, i: nat, text: string)
    ensures RI.Read(show, ItemJson(naming, R.DoneItem(i, Reasoning(text)))) == InputFor(Reasoning(text))
  {
    var item := ItemJson(naming, R.DoneItem(i, Reasoning(text)));
    assert "text"[1] != "type"[1];
    assert item.fields["summary"] == Arr([SummaryPart(text)]);
    OneText(SummaryPart(text));
  }

  lemma ProseReads(show: RI.Printer, naming: Naming, i: nat, text: string)
    ensures RI.Read(show, ItemJson(naming, R.DoneItem(i, Prose(text)))) == InputFor(Prose(text))
  {
    var item := ItemJson(naming, R.DoneItem(i, Prose(text)));
    assert "text"[1] != "type"[1] && "role"[0] != "type"[0];
    assert item.fields["content"] == Arr([TextPart("output_text", text)]);
    OneText(TextPart("output_text", text));
  }

  lemma ItemReads(show: RI.Printer, naming: Naming, i: nat, part: Part)
    ensures RI.Read(show, ItemJson(naming, R.DoneItem(i, part))) == InputFor(part)
  {
    match part
    case Reasoning(text) => ReasoningReads(show, naming, i, text);
    case Prose(text) => ProseReads(show, naming, i, text);
    case Call(_, _, _) => assert "name"[0] != "type"[0];
  }

  lemma OutputReads(show: RI.Printer, naming: Naming, done: seq<Sealed>)
    ensures RI.ReadAll(show, Output(naming, R.Items(done))) == InputsFor(Assembly.Parts(done))
  {
    forall k | 0 <= k < |done|
      ensures RI.Read(show, Output(naming, R.Items(done))[k]) == InputFor(Assembly.Parts(done)[k])
    {
      ItemReads(show, naming, done[k].i, done[k].part);
    }
  }

  /** The document with the reply as one more assistant message. A reply of nothing but
      reasoning adds no message: its reasoning waits for the next one. */
  function Replied(d: RI.Doc, r: string, t: string, calls: seq<ToolCall>): RI.Doc {
    var reasoning := if r == "" then d.pending else Some(r);
    if t == "" && calls == [] then d.(pending := reasoning)
    else RI.Doc(d.messages + [Assistant(Present(t), reasoning, calls)], d.system, None)
  }

  lemma {:induction false} CallsAdded(d: RI.Doc, before: seq<Message>, last: Message, cs: seq<Part>)
    requires AllCalls(cs) && last.Assistant? && d.messages == before + [last] && d.pending.None?
    ensures RI.Run(d, InputsFor(cs))
      == d.(messages := before + [last.(toolCalls := last.toolCalls + CallsOf(cs))])
    decreases cs
  {
    if cs == [] {
      assert last.toolCalls + [] == last.toolCalls;
    } else {
      var call := CallIn(cs[0]);
      var more := last.(toolCalls := last.toolCalls + [call]);
      assert d.messages[|before| := more] == before + [more];
      assert InputsFor(cs)[1..] == InputsFor(cs[1..]);
      CallsStep(cs);
      CallsAdded(d.(messages := before + [more]), before, more, cs[1..]);
      assert (last.toolCalls + [call]) + CallsOf(cs[1..]) == last.toolCalls + CallsOf(cs);
    }
  }

  lemma CallsAlone(d: RI.Doc, cs: seq<Part>)
    requires AllCalls(cs) && cs != [] && !RI.EndsInAssistant(d.messages)
    ensures RI.Run(d, InputsFor(cs))
      == RI.Doc(d.messages + [Assistant(None, d.pending, CallsOf(cs))], d.system, None)
  {
    var call := CallIn(cs[0]);
    var first := Assistant(None, d.pending, [call]);
    assert InputsFor(cs)[1..] == InputsFor(cs[1..]);
    CallsStep(cs);
    CallsAdded(RI.Doc(d.messages + [first], d.system, None), d.messages, first, cs[1..]);
  }

  /** Merged into an earlier assistant message, calls add no message. */
  lemma {:induction false} CallsMerged(d: RI.Doc, cs: seq<Part>)
    requires AllCalls(cs) && RI.EndsInAssistant(d.messages)
    ensures |RI.Run(d, InputsFor(cs)).messages| == |d.messages|
    decreases cs
  {
    if cs != [] {
      assert InputsFor(cs)[1..] == InputsFor(cs[1..]);
      CallsMerged(RI.Step(d, InputsFor(cs)[0]), cs[1..]);
    }
  }

  lemma SpokenRead(d: RI.Doc, r: string, t: string)
    ensures RI.Run(d, InputsFor(Assembly.Spoken(r, t))) == Replied(d, r, t, [])
  {
    var d1 := if r == "" then d else d.(pending := Some(r));
    var head := if r == "" then [] else [Reasoning(r)];
    var tail := if t == "" then [] else [Prose(t)];
    assert InputsFor(head + tail) == InputsFor(head) + InputsFor(tail);
    RI.RunAppend(d, InputsFor(head), InputsFor(tail));
    if r != "" { assert InputsFor(head)[1..] == []; }
    assert RI.Run(d, InputsFor(head)) == d1;
    if t != "" { assert InputsFor(tail)[1..] == []; }
  }

  /** The parts of an orderly message, read behind `d`: one message, unless it is calls
      alone and the transcript already ends in an assistant message. */
  lemma ReplyReadExactly(d: RI.Doc, r: string, t: string, cs: seq<Part>)
    requires AllCalls(cs)
    ensures RI.Run(d, InputsFor(Assembly.Spoken(r, t) + cs)) == Replied(d, r, t, CallsOf(cs)) <==>
      t != "" || cs == [] || !RI.EndsInAssistant(d.messages)
  {
    var spoken := Replied(d, r, t, []);
    SpokenThenCalls(d, r, t, cs);
    if t != "" {
      CallsAfterText(d, r, t, cs);
    } else if cs != [] {
      if RI.EndsInAssistant(d.messages) { CallsMerged(spoken, cs); } else { CallsAlone(spoken, cs); }
    } else {
      assert CallsOf(cs) == [] && InputsFor(cs) == [];
    }
  }

  lemma SpokenThenCalls(d: RI.Doc, r: string, t: string, cs: seq<Part>)
    ensures RI.Run(d, InputsFor(Assembly.Spoken(r, t) + cs)) == RI.Run(Replied(d, r, t, []), InputsFor(cs))
  {
    var spoken := Assembly.Spoken(r, t);
    assert InputsFor(spoken + cs) == InputsFor(spoken) + InputsFor(cs);
    RI.RunAppend(d, InputsFor(spoken), InputsFor(cs));
    SpokenRead(d, r, t);
  }

  lemma CallsAfterText(d: RI.Doc, r: string, t: string, cs: seq<Part>)
    requires AllCalls(cs) && t != ""
    ensures RI.Run(Replied(d, r, t, []), InputsFor(cs)) == Replied(d, r, t, CallsOf(cs))
  {
    CallsAdded(Replied(d, r, t, []), d.messages, Assistant(Some(t), if r == "" then d.pending else Some(r), []), cs);
    assert [] + CallsOf(cs) == CallsOf(cs);
  }

  /** The items of the response that a streamed message ends with, sent back as input, are
      read as one assistant message with the message's text, reasoning and calls, exactly
      if it has a text or no calls, or does not follow an assistant message. */
  lemma StreamedReplyEchoes(show: RI.Printer, naming: Naming, p: ChatStream.Parser, ds: seq<ChatStream.Digest>,
                            m: ChatStream.Digest, d: RI.Doc)
    requires Agreement.Cuts(ds, m) && p.started == {}
    ensures var items := R.Final(Run(INIT, F.Feed(p, ds) + [Completed]).state).output;
      RI.Run(d, RI.ReadAll(show, Output(naming, items)))
        == Replied(d, m.reasoning, m.content, CallsOf(Agreement.WholeCalls(m.entries))) <==>
      m.content != "" || m.entries == [] || !RI.EndsInAssistant(d.messages)
  {
    Agreement.StreamedParts(p, ds, m);
    OutputReads(show, naming, Run(INIT, F.Feed(p, ds) + [Completed]).state.done);
    ReplyReadExactly(d, m.reasoning, m.content, Agreement.WholeCalls(m.entries));
  }

  // ----- Anthropic -----

  function BlockJson(b: Anthropic.Block): Value {
    match b
    case ThinkingBlock(thinking, signature) =>
      Obj(map["type" := Str("thinking"), "thinking" := Str(thinking), "signature" := Str(UnwrapOr(signature, ""))])
    case TextBlock(text) => Obj(map["type" := Str("text"), "text" := Str(text)])
    case ToolUse(id, name, input) =>
      Obj(map["type" := Str("tool_use"), "id" := Str(id), "name" := Str(name), "input" := input])
  }

  function ContentJson(blocks: seq<Anthropic.Block>): Value {
    Arr(seq(|blocks|, k requires 0 <= k < |blocks| => BlockJson(blocks[k])))
  }

  /** A call after its arguments went through their parsed form. */
  function Reprint(show: RI.Printer, read: Anthropic.JsonReader, call: ToolCall): ToolCall {
    call.(arguments := show(Anthropic.InputOf(read, call.arguments)))
  }

  function ReprintAll(show: RI.Printer, read: Anthropic.JsonReader, calls: seq<ToolCall>): seq<ToolCall> {
    seq(|calls|, k requires 0 <= k < |calls| => Reprint(show, read, calls[k]))
  }

  function BlockFor(show: RI.Printer, read: Anthropic.JsonReader, part: Part): AI.Block {
    match part
    case Reasoning(text) => AI.ThinkingIn(text)
    case Prose(text) => AI.TextIn(text)
    case Call(_, _, _) => AI.UseIn(Reprint(show, read, CallIn(part)))
  }

  function BlocksFor(show: RI.Printer, read: Anthropic.JsonReader, parts: seq<Part>): seq<AI.Block> {
    seq(|parts|, k requires 0 <= k < |parts| => BlockFor(show, read, parts[k]))
  }

  lemma BlockReads(show: RI.Printer, read: Anthropic.JsonReader, part: Part)
    ensures AI.Read(show, BlockJson(Anthropic.DoneBlock(read, part))) == BlockFor(show, read, part)
  {
    assert "text"[1] != "type"[1] && "name"[0] != "type"[0];
  }

  lemma {:induction false} CallsRead(show: RI.Printer, read: Anthropic.JsonReader, cs: seq<Part>)
    requires AllCalls(cs)
    ensures var bs := BlocksFor(show, read, cs);
      && AI.Texts(bs) == "" && AI.Thoughts(bs) == [] && !AI.HasText(bs)
      && AI.Calls(bs) == ReprintAll(show, read, CallsOf(cs))
  {
    if cs != [] {
      var bs := BlocksFor(show, read, cs);
      CallsRead(show, read, cs[1..]);
      CallsStep(cs);
      assert bs[1..] == BlocksFor(show, read, cs[1..]) && bs[0] == AI.UseIn(Reprint(show, read, CallIn(cs[0])));
      assert ReprintAll(show, read, CallsOf(cs))
        == [Reprint(show, read, CallIn(cs[0]))] + ReprintAll(show, read, CallsOf(cs[1..]));
    }
  }

  lemma TextFirst(t: string, bs: seq<AI.Block>)
    requires AI.Texts(bs) == "" && !AI.HasText(bs)
    ensures var all := [AI.TextIn(t)] + bs;
      && AI.Texts(all) == t && AI.HasText(all)
      && AI.Thoughts(all) == AI.Thoughts(bs) && AI.Calls(all) == AI.Calls(bs)
  {
    var all := [AI.TextIn(t)] + bs;
    assert all[1..] == bs && all[0].TextIn? && t + "" == t;
    assert [] + AI.Thoughts(bs) == AI.Thoughts(bs) && [] + AI.Calls(bs) == AI.Calls(bs);
  }

  lemma ThoughtFirst(r: string, bs: seq<AI.Block>)
    requires r != "" && AI.Thoughts(bs) == []
    ensures var all := [AI.ThinkingIn(r)] + bs;
      && AI.Texts(all) == AI.Texts(bs) && (AI.HasText(all) <==> AI.HasText(bs))
      && AI.Thoughts(all) == [r] && AI.Calls(all) == AI.Calls(bs)
  {
    var all := [AI.ThinkingIn(r)] + bs;
    assert all[1..] == bs;
    assert forall k :: 0 <= k < |bs| ==> all[k + 1] == bs[k];
    assert "" + AI.Texts(bs) == AI.Texts(bs) && [] + AI.Calls(bs) == AI.Calls(bs) && [r] + [] == [r];
  }

  /** The blocks of an orderly message are read as its text, its reasoning and its calls. */
  lemma BlocksRead(show: RI.Printer, read: Anthropic.JsonReader, r: string, t: string, cs: seq<Part>)
    requires AllCalls(cs)
    ensures AI.AssistantTurn(BlocksFor(show, read, Assembly.Spoken(r, t) + cs))
      == AI.Reply(Present(t), Present(r), ReprintAll(show, read, CallsOf(cs)))
  {
    PartsRead(show, read, r, t, cs);
  }

  lemma PartsRead(show: RI.Printer, read: Anthropic.JsonReader, r: string, t: string, cs: seq<Part>)
    requires AllCalls(cs)
    ensures var bs := BlocksFor(show, read, Assembly.Spoken(r, t) + cs);
      && AI.Texts(bs) == t && (AI.HasText(bs) <==> t != "") && AI.Thoughts(bs) == (if r == "" then [] else [r])
      && AI.Calls(bs) == ReprintAll(show, read, CallsOf(cs))
  {
    SaidRead(show, read, t, cs);
    if r == "" {
      assert Assembly.Spoken(r, t) == Assembly.Spoken("", t);
    } else {
      var said := Assembly.Spoken("", t) + cs;
      ThoughtFirst(r, BlocksFor(show, read, said));
      ReasoningFirst(r, t, cs);
      BlocksStep(show, read, Reasoning(r), said);
    }
  }

  lemma ReasoningFirst(r: string, t: string, cs: seq<Part>)
    requires r != ""
    ensures Assembly.Spoken(r, t) + cs == [Reasoning(r)] + (Assembly.Spoken("", t) + cs)
  {
  }

  lemma BlocksStep(show: RI.Printer, read: Anthropic.JsonReader, first: Part, rest: seq<Part>)
    ensures BlocksFor(show, read, [first] + rest) == [BlockFor(show, read, first)] + BlocksFor(show, read, rest)
  {
  }

  lemma SaidRead(show: RI.Printer, read: Anthropic.JsonReader, t: string, cs: seq<Part>)
    requires AllCalls(cs)
    ensures var bs := BlocksFor(show, read, Assembly.Spoken("", t) + cs);
      && AI.Texts(bs) == t && (AI.HasText(bs) <==> t != "") && AI.Thoughts(bs) == []
      && AI.Calls(bs) == ReprintAll(show, read, CallsOf(cs))
  {
    var calls := BlocksFor(show, read, cs);
    CallsRead(show, read, cs);
    if t == "" {
      assert Assembly.Spoken("", t) + cs == cs;
    } else {
      TextFirst(t, calls);
      assert Assembly.Spoken("", t) + cs == [Prose(t)] + cs;
      BlocksStep(show, read, Prose(t), cs);
    }
  }

  /** The content that parts are rendered as, sent back, is one assistant message. */
  lemma ContentEchoes(show: RI.Printer, read: Anthropic.JsonReader, r: string, t: string, cs: seq<Part>)
    requires AllCalls(cs)
    ensures AI.Turn(show, "assistant", Some(ContentJson(CC.Rendered(read, Assembly.Spoken(r, t) + cs))))
      == [AI.Reply(Present(t), Present(r), ReprintAll(show, read, CallsOf(cs)))]
  {
    var parts := Assembly.Spoken(r, t) + cs;
    var values := ContentJson(CC.Rendered(read, parts)).items;
    forall k | 0 <= k < |parts|
      ensures AI.Read(show, values[k]) == BlockFor(show, read, parts[k])
    {
      BlockReads(show, read, parts[k]);
    }
    assert AI.ReadAll(show, values) == BlocksFor(show, read, parts);
    BlocksRead(show, read, r, t, cs);
    assert "assistant"[0] != "user"[0];
  }

  /** The printed form of the parsed arguments is what was sent. */
  predicate Printed(show: RI.Printer, read: Anthropic.JsonReader, calls: seq<ToolCall>) {
    forall k :: 0 <= k < |calls| ==> show(Anthropic.InputOf(read, calls[k].arguments)) == calls[k].arguments
  }

  lemma SameCallsExactly(show: RI.Printer, read: Anthropic.JsonReader, calls: seq<ToolCall>)
    ensures ReprintAll(show, read, calls) == calls <==> Printed(show, read, calls)
  {
    var again := ReprintAll(show, read, calls);
    assert forall k :: 0 <= k < |calls| ==> again[k] == Reprint(show, read, calls[k]);
  }

  /** The content of a whole message, sent back, is one assistant message with its text and
      reasoning, and with its calls exactly if their arguments are in printed form. A reply
      of nothing but reasoning comes back with an empty text. */
  lemma WholeMessageEchoes(show: RI.Printer, read: Anthropic.JsonReader, resp: Value, responseId: string)
    ensures var m := Agreement.ReadWhole(resp);
      var cs := Agreement.WholeCalls(m.entries);
      var s := Run(INIT, ChatStream.CompletionSpec(resp, responseId)).state;
      var turn := AI.Turn(show, "assistant", Some(ContentJson(Anthropic.Final(read, s).content)));
      turn == [AI.Reply(Present(m.content), Present(m.reasoning), CallsOf(cs))] <==> Printed(show, read, CallsOf(cs))
  {
    var m := Agreement.ReadWhole(resp);
    var cs := Agreement.WholeCalls(m.entries);
    var s := Run(INIT, ChatStream.CompletionSpec(resp, responseId)).state;
    Agreement.CompletionIsWhole(resp, responseId);
    Agreement.WholeParts(ChatStream.NewParser(responseId), m);
    assert Anthropic.Content(read, s.done) == CC.Rendered(read, Assembly.Parts(s.done));
    ContentEchoes(show, read, m.reasoning, m.content, cs);
    SameCallsExactly(show, read, CallsOf(cs));
  }

  /** What the client of a stream puts together and sends back is the same, with the calls
      in the order their first fragments arrived. */
  lemma StreamedMessageEchoes(show: RI.Printer, read: Anthropic.JsonReader, p: ChatStream.Parser,
                              ds: seq<ChatStream.Digest>, m: ChatStream.Digest)
    requires Agreement.Cuts(ds, m) && p.started == {}
    ensures var es := Agreement.AllEntries(ds);
      var cs := Assembly.Assembled(es, Arrival.FirstSeen(es));
      var turn := AI.Turn(show, "assistant", Some(ContentJson(CC.ClientHas(read, p, ds))));
      AllCalls(cs) && (turn == [AI.Reply(Present(m.content), Present(m.reasoning), CallsOf(cs))] <==>
        Printed(show, read, CallsOf(cs)))
  {
    var es := Agreement.AllEntries(ds);
    var cs := Assembly.Assembled(es, Arrival.FirstSeen(es));
    CC.ClientReadsPlaces(read, p, ds, m);
    ContentEchoes(show, read, m.reasoning, m.content, cs);
    SameCallsExactly(show, read, CallsOf(cs));
  }
}
