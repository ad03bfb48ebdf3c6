/** Whole conversations sent back in a client's next request, in both dialects' JSON. */
module Conversations {
  import opened Wrappers
  import opened Json
  import opened Canonical
  import opened Blocks
  import opened EchoBack
  import AI = AnthropicInput
  import Anthropic
  import Assembly
  import CC = ClientContent
  import R = Responses
  import RI = ResponsesInput

  /** What is sent back: a user text, a tool result, or a finished reply, whose items have
      ids drawn from `first` on. */
  datatype Turn =
    | Asked(text: string)
    | Returned(callId: string, output: Value)
    | Answered(first: nat, reasoning: string, text: string, calls: seq<ToolCall>)

  function CallParts(calls: seq<ToolCall>): seq<Part> {
    seq(|calls|, k requires 0 <= k < |calls| => Call(calls[k].callId, calls[k].name, calls[k].arguments))
  }

  function PartsOf(turn: Turn): seq<Part>
    requires turn.Answered?
  {
    Assembly.Spoken(turn.reasoning, turn.text) + CallParts(turn.calls)
  }

  lemma CallsOfParts(calls: seq<ToolCall>)
    ensures AllCalls(CallParts(calls)) && CallsOf(CallParts(calls)) == calls
  {
  }

  // ----- Responses -----

  /** The items of a reply, under ids drawn from `first` on. */
  function PartsJson(naming: Naming, first: nat, parts: seq<Part>): seq<Value> {
    seq(|parts|, k requires 0 <= k < |parts| => ItemJson(naming, R.DoneItem(first + k, parts[k])))
  }

  function TurnJson(naming: Naming, turn: Turn): seq<Value> {
    match turn
    case Asked(text) =>
      var part := Obj(map["type" := Str("input_text"), "text" := Str(text)]);
      [Obj(map["type" := Str("message"), "role" := Str("user"), "content" := Arr([part])])]
    case Returned(callId, output) =>
      [Obj(map["type" := Str("function_call_output"), "call_id" := Str(callId), "output" := output])]
    case Answered(_, _, _, _) => PartsJson(naming, turn.first, PartsOf(turn))
  }

  function AllJson(naming: Naming, turns: seq<Turn>): seq<Value> {
    if turns == [] then [] else TurnJson(naming, turns[0]) + AllJson(naming, turns[1..])
  }

  /** A string as it is, any other value printed. */
  function Shown(show: RI.Printer, v: Value): string {
    match v case Str(s) => s case _ => show(v)
  }

  function TurnInputs(show: RI.Printer, turn: Turn): seq<RI.Input> {
    match turn
    case Asked(text) => [RI.UserItem(text)]
    case Returned(callId, output) => [RI.OutputItem(callId, Shown(show, output))]
    case Answered(_, _, _, _) => InputsFor(PartsOf(turn))
  }

  lemma AskedReads(show: RI.Printer, naming: Naming, text: string)
    ensures RI.Read(show, TurnJson(naming, Asked(text))[0]) == RI.UserItem(text)
  {
    var item := TurnJson(naming, Asked(text))[0];
    var part := Obj(map["type" := Str("input_text"), "text" := Str(text)]);
    assert "text"[1] != "type"[1] && "role"[0] != "type"[0] && "user"[0] != "system"[0];
    assert item.Get("content") == Some(Arr([part])) && item.Get("role") == Some(Str("user"));
    assert part.Get("text") == Some(Str(text));
    OneText(part);
  }

  lemma ReturnedReads(show: RI.Printer, naming: Naming, callId: string, output: Value)
    ensures RI.Read(show, TurnJson(naming, Returned(callId, output))[0])
      == RI.OutputItem(callId, Shown(show, output))
  {
    var item := TurnJson(naming, Returned(callId, output))[0];
    assert item.Get("type") == Some(Str("function_call_output"));
    assert item.Get("call_id") == Some(Str(callId)) && item.Get("output") == Some(output);
  }

  lemma AnsweredReads(show: RI.Printer, naming: Naming, first: nat, parts: seq<Part>)
    ensures RI.ReadAll(show, PartsJson(naming, first, parts)) == InputsFor(parts)
  {
    forall k | 0 <= k < |parts| ensures RI.Read(show, PartsJson(naming, first, parts)[k]) == InputFor(parts[k]) {
      ItemReads(show, naming, first + k, parts[k]);
    }
  }

  lemma TurnReads(show: RI.Printer, naming: Naming, turn: Turn)
    ensures RI.ReadAll(show, TurnJson(naming, turn)) == TurnInputs(show, turn)
  {
    match turn
    case Asked(text) => AskedReads(show, naming, text);
    case Returned(callId, output) => ReturnedReads(show, naming, callId, output);
    case Answered(_, _, _, _) => AnsweredReads(show, naming, turn.first, PartsOf(turn));
  }

  /** No reply directly follows another. */
  predicate TakesTurns(turns: seq<Turn>) {
    forall k :: 0 < k < |turns| ==> !turns[k].Answered? || !turns[k - 1].Answered?
  }

  /** One message a turn, but none for a reply of nothing but reasoning. */
  function MessagesOf(show: RI.Printer, turn: Turn): seq<Message> {
    match turn
    case Asked(text) => [User(text)]
    case Returned(callId, output) => [Tool(callId, Shown(show, output))]
    case Answered(_, r, t, calls) =>
      if t == "" && calls == [] then [] else [Assistant(Present(t), Present(r), calls)]
  }

  function Transcript(show: RI.Printer, turns: seq<Turn>): seq<Message> {
    if turns == [] then [] else MessagesOf(show, turns[0]) + Transcript(show, turns[1..])
  }

  /** Nothing that a reply could join. */
  predicate Fresh(d: RI.Doc) {
    !RI.EndsInAssistant(d.messages) && d.pending.None?
  }

  lemma TurnRead(show: RI.Printer, d: RI.Doc, turn: Turn)
    requires turn.Answered? ==> Fresh(d)
    ensures var d' := RI.Run(d, TurnInputs(show, turn));
      d'.messages == d.messages + MessagesOf(show, turn) && (!turn.Answered? ==> Fresh(d'))
  {
    if turn.Answered? {
      CallsOfParts(turn.calls);
      ReplyReadExactly(d, turn.reasoning, turn.text, CallParts(turn.calls));
      assert d.messages + [] == d.messages;
    } else {
      assert TurnInputs(show, turn)[1..] == [];
    }
  }

  lemma LaterTurns(turns: seq<Turn>)
    requires turns != [] && TakesTurns(turns)
    ensures TakesTurns(turns[1..]) && (turns[1..] != [] && turns[1].Answered? ==> !turns[0].Answered?)
  {
    assert forall k :: 0 <= k < |turns[1..]| ==> turns[1..][k] == turns[k + 1];
  }

  function AllInputs(show: RI.Printer, turns: seq<Turn>): seq<RI.Input> {
    if turns == [] then [] else TurnInputs(show, turns[0]) + AllInputs(show, turns[1..])
  }

  lemma {:induction false} AllReads(show: RI.Printer, naming: Naming, turns: seq<Turn>)
    ensures RI.ReadAll(show, AllJson(naming, turns)) == AllInputs(show, turns)
  {
    if turns != [] {
      TurnReads(show, naming, turns[0]);
      AllReads(show, naming, turns[1..]);
      ReadThen(show, TurnJson(naming, turns[0]), AllJson(naming, turns[1..]), TurnInputs(show, turns[0]),
        AllInputs(show, turns[1..]));
    }
  }

  lemma ReadThen(show: RI.Printer, a: seq<Value>, b: seq<Value>, x: seq<RI.Input>, y: seq<RI.Input>)
    requires RI.ReadAll(show, a) == x && RI.ReadAll(show, b) == y
    ensures RI.ReadAll(show, a + b) == x + y
  {
  }

  lemma {:induction false} InputsRead(show: RI.Printer, d: RI.Doc, turns: seq<Turn>)
    requires TakesTurns(turns) && (turns != [] && turns[0].Answered? ==> Fresh(d))
    ensures RI.Run(d, AllInputs(show, turns)).messages == d.messages + Transcript(show, turns)
    decreases turns
  {
    if turns == [] {
      assert d.messages + [] == d.messages;
    } else {
      var now := TurnInputs(show, turns[0]);
      TurnRead(show, d, turns[0]);
      LaterTurns(turns);
      RI.RunAppend(d, now, AllInputs(show, turns[1..]));
      InputsRead(show, RI.Run(d, now), turns[1..]);
      AI.Regroup(d.messages, MessagesOf(show, turns[0]), Transcript(show, turns[1..]));
    }
  }

  /** A conversation sent back as Responses input is read as it went: every reply is one
      message with its own reasoning and calls in its place, every tool result and user text
      one more. */
  lemma ConversationReads(show: RI.Printer, naming: Naming, d: RI.Doc, turns: seq<Turn>)
    requires TakesTurns(turns) && (turns != [] && turns[0].Answered? ==> Fresh(d))
    ensures RI.Run(d, RI.ReadAll(show, AllJson(naming, turns))).messages
      == d.messages + Transcript(show, turns)
  {
    AllReads(show, naming, turns);
    InputsRead(show, d, turns);
  }

  /** An item of no type is a message, and a message of no role is the user's; an item of an
      unknown type, and reasoning without a text, mean nothing. */
  lemma ItemDefaults(show: RI.Printer, text: string, kind: string)
    requires kind !in {"message", "function_call", "function_call_output", "reasoning"}
    ensures RI.Read(show, Obj(map["content" := Str(text)])) == RI.UserItem(text)
    ensures RI.Read(show, Obj(map["type" := Str(kind), "content" := Str(text)])) == RI.Ignored
    ensures RI.Read(show, Obj(map["type" := Str("reasoning"), "summary" := Arr([])])) == RI.Ignored
    ensures RI.Read(show, Obj(map["type" := Str("function_call_output")])) == RI.OutputItem("", "")
  {
    assert "user"[0] != "system"[0];
    assert RI.JoinTexts([]) == "";
  }

  /** System and developer items become the system text, joined by line feeds. */
  lemma SystemReads(show: RI.Printer, role: string, text: string, d: RI.Doc)
    requires role == "system" || role == "developer"
    ensures var item := Obj(map["type" := Str("message"), "role" := Str(role), "content" := Str(text)]);
      RI.Step(d, RI.Read(show, item)) == d.(system := Some(
        match d.system case None => text case Some(before) => before + "\n" + text))
  {
    var item := Obj(map["type" := Str("message"), "role" := Str(role), "content" := Str(text)]);
    assert "role"[0] != "type"[0];
    assert item.Get("role") == Some(Str(role)) && item.Get("content") == Some(Str(text));
  }

  // ----- Anthropic -----

  function EntryJson(read: Anthropic.JsonReader, turn: Turn): Value {
    match turn
    case Asked(text) => Obj(map["role" := Str("user"), "content" := Str(text)])
    case Returned(callId, output) =>
      var block := Obj(map["type" := Str("tool_result"), "tool_use_id" := Str(callId), "content" := output]);
      Obj(map["role" := Str("user"), "content" := Arr([block])])
    case Answered(_, _, _, _) =>
      Obj(map["role" := Str("assistant"), "content" := ContentJson(CC.Rendered(read, PartsOf(turn)))])
  }

  function EntriesJson(read: Anthropic.JsonReader, turns: seq<Turn>): seq<Value> {
    seq(|turns|, k requires 0 <= k < |turns| => EntryJson(read, turns[k]))
  }

  /** The text of a result: a string, the texts of its blocks, or any other value printed. */
  function ResultShown(show: RI.Printer, v: Value): string {
    match v case Str(s) => s case Arr(parts) => RI.JoinTexts(parts) case _ => show(v)
  }

  /** One message a turn, whatever it says. */
  function MessageOf(show: RI.Printer, read: Anthropic.JsonReader, turn: Turn): Message {
    match turn
    case Asked(text) => User(text)
    case Returned(callId, output) => Tool(callId, ResultShown(show, output))
    case Answered(_, r, t, calls) => AI.Reply(Present(t), Present(r), ReprintAll(show, read, calls))
  }

  lemma EntryFields(read: Anthropic.JsonReader, turn: Turn)
    ensures var entry := EntryJson(read, turn);
      && AI.RoleOf(entry) == (if turn.Answered? then "assistant" else "user")
      && entry.Get("content") == Some(entry.fields["content"])
  {
  }

  lemma OneResult(callId: string, output: string)
    ensures AI.UserTurn([AI.ResultIn(callId, output)]) == [Tool(callId, output)]
  {
    var bs := [AI.ResultIn(callId, output)];
    assert bs[1..] == [] && AI.Texts(bs) == "" + AI.Texts([]) == "";
    assert AI.Results(bs) == [Tool(callId, output)] + AI.Results([]) == [Tool(callId, output)];
  }

  lemma ResultReads(show: RI.Printer, callId: string, output: Value)
    ensures var block := Obj(map["type" := Str("tool_result"), "tool_use_id" := Str(callId), "content" := output]);
      AI.UserTurn(AI.ReadAll(show, [block])) == [Tool(callId, ResultShown(show, output))]
  {
    var block := Obj(map["type" := Str("tool_result"), "tool_use_id" := Str(callId), "content" := output]);
    assert block.Get("type") == Some(Str("tool_result")) && block.Get("content") == Some(output);
    assert block.Get("tool_use_id") == Some(Str(callId));
    var b := AI.ResultIn(callId, ResultShown(show, output));
    assert AI.Read(show, block) == b;
    assert AI.ReadAll(show, [block]) == [b];
    OneResult(callId, ResultShown(show, output));
  }

  lemma EntryReads(show: RI.Printer, read: Anthropic.JsonReader, turn: Turn)
    ensures var entry := EntryJson(read, turn);
      AI.Turn(show, AI.RoleOf(entry), entry.Get("content")) == [MessageOf(show, read, turn)]
  {
    EntryFields(read, turn);
    match turn
    case Asked(_) =>
    case Returned(callId, output) => ResultReads(show, callId, output);
    case Answered(_, r, t, calls) =>
      CallsOfParts(calls);
      ContentEchoes(show, read, r, t, CallParts(calls));
  }

  function AllMessages(show: RI.Printer, read: Anthropic.JsonReader, turns: seq<Turn>): seq<Message> {
    seq(|turns|, k requires 0 <= k < |turns| => MessageOf(show, read, turns[k]))
  }

  lemma {:induction false} EachRead(show: RI.Printer, entries: seq<Value>, messages: seq<Message>)
    requires |entries| == |messages|
    requires forall k :: 0 <= k < |entries| ==>
      AI.Turn(show, AI.RoleOf(entries[k]), entries[k].Get("content")) == [messages[k]]
    ensures AI.Turns(show, entries) == messages
  {
    if entries != [] {
      assert forall k :: 0 <= k < |entries[1..]| ==>
        entries[1..][k] == entries[k + 1] && messages[1..][k] == messages[k + 1];
      EachRead(show, entries[1..], messages[1..]);
      assert messages == [messages[0]] + messages[1..];
    }
  }

  /** A call without an input has the arguments of an empty object; a block of another type
      means nothing. */
  lemma BlockDefaults(show: RI.Printer, id: string, name: string, kind: string)
    requires kind !in {"text", "thinking", "tool_use", "tool_result"}
    ensures AI.Read(show, Obj(map["type" := Str("tool_use"), "id" := Str(id), "name" := Str(name)]))
      == AI.UseIn(ToolCall(id, name, "{}"))
    ensures AI.Read(show, Obj(map["type" := Str(kind)])) == AI.Skipped
  {
    var b := Obj(map["type" := Str("tool_use"), "id" := Str(id), "name" := Str(name)]);
    assert "name"[0] != "type"[0];
    assert b.Get("type") == Some(Str("tool_use")) && b.Get("name") == Some(Str(name)) && b.Get("id") == Some(Str(id));
    assert b.Get("input") == None;
  }

  /** An assistant entry without content is an empty message, a user entry without any none,
      and other roles are passed over. */
  lemma EntryDefaults(show: RI.Printer, role: string, content: Option<Value>)
    requires role !in {"user", "assistant"}
    ensures AI.Turn(show, "assistant", None) == [Assistant(None, None, [])]
    ensures AI.Turn(show, "user", None) == [] && AI.Turn(show, role, content) == []
  {
    assert "assistant"[0] != "user"[0];
  }

  /** A conversation sent back as Anthropic messages is read turn by turn. */
  lemma MessagesRead(show: RI.Printer, read: Anthropic.JsonReader, turns: seq<Turn>)
    ensures AI.Turns(show, EntriesJson(read, turns)) == AllMessages(show, read, turns)
  {
    forall k | 0 <= k < |turns|
      ensures var entry := EntriesJson(read, turns)[k];
        AI.Turn(show, AI.RoleOf(entry), entry.Get("content")) == [AllMessages(show, read, turns)[k]]
    {
      EntryReads(show, read, turns[k]);
    }
    EachRead(show, EntriesJson(read, turns), AllMessages(show, read, turns));
  }
}
