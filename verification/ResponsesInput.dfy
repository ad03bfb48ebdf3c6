/** The `input` list of a Responses request, turned into canonical messages. */
module ResponsesInput {
  import opened Wrappers
  import opened Json
  import opened Canonical

  /** What one input item means. */
  datatype Input =
    | SystemItem(text: string)
    | AssistantItem(text: string)
    | UserItem(text: string)
    | CallItem(call: ToolCall)
    | OutputItem(callId: string, output: string)
    | ReasoningItem(text: string)
    | Ignored

  /** Serializer of JSON values, taken from the source's library. */
  type Printer = Value -> string

  function JoinTexts(parts: seq<Value>): string {
    if parts == [] then "" else StrOr(parts[0].Get("text")) + JoinTexts(parts[1..])
  }

  function ExtractText(content: Option<Value>): string {
    match content
    case Some(Str(s)) => s
    case Some(Arr(parts)) => JoinTexts(parts)
    case _ => ""
  }

  /** The same, as the source's loop over the parts. */
  method TakeText(content: Option<Value>) returns (out: string)
    ensures out == ExtractText(content)
  {
    out := "";
    match content {
      case Some(Str(s)) => out := s;
      case Some(Arr(parts)) =>
        for k := 0 to |parts|
          invariant out + JoinTexts(parts[k..]) == JoinTexts(parts)
        {
          JoinNext(out, parts, k);
          var text := AsStr(parts[k].Get("text"));
          if text.Some? { out := out + text.value; }
        }
        assert parts[|parts|..] == [] && out + "" == out;
      case _ =>
    }
  }

  lemma JoinNext(out: string, parts: seq<Value>, k: nat)
    requires k < |parts|
    ensures out + JoinTexts(parts[k..]) == (out + StrOr(parts[k].Get("text"))) + JoinTexts(parts[k + 1..])
    ensures out + "" == out
  {
    assert parts[k..][0] == parts[k] && parts[k..][1..] == parts[k + 1..];
  }

  function OutputText(show: Printer, output: Option<Value>): string {
    match output
    case Some(Str(s)) => s
    case Some(other) => show(other)
    case None => ""
  }

  function Read(show: Printer, item: Value): Input {
    var kind := UnwrapOr(AsStr(item.Get("type")), "message");
    if kind == "message" then
      var role := UnwrapOr(AsStr(item.Get("role")), "user");
      var text := ExtractText(item.Get("content"));
      if role == "system" || role == "developer" then SystemItem(text)
      else if role == "assistant" then AssistantItem(text)
      else UserItem(text)
    else if kind == "function_call" then
      CallItem(ToolCall(StrOr(item.Get("call_id")), StrOr(item.Get("name")), StrOr(item.Get("arguments"))))
    else if kind == "function_call_output" then
      OutputItem(StrOr(item.Get("call_id")), OutputText(show, item.Get("output")))
    else if kind == "reasoning" then
      var text := JoinTexts(UnwrapOr(AsArr(item.Get("summary")), []));
      if text == "" then Ignored else ReasoningItem(text)
    else Ignored
  }

  /** Messages so far, the system prompt, and reasoning waiting for its turn. */
  datatype Doc = Doc(messages: seq<Message>, system: Option<string>, pending: Option<string>)

  function AppendSystem(system: Option<string>, text: string): Option<string> {
    if system.Some? then Some(system.value + "\n" + text) else Some(text)
  }

  predicate EndsInAssistant(msgs: seq<Message>) {
    msgs != [] && msgs[|msgs| - 1].Assistant?
  }

  function AddCall(d: Doc, call: ToolCall): Doc {
    if EndsInAssistant(d.messages) then
      var last := d.messages[|d.messages| - 1];
      var adopted := if last.reasoning.None? then d.pending else last.reasoning;
      Doc(d.messages[|d.messages| - 1 := Assistant(last.text, adopted, last.toolCalls + [call])], d.system,
        if last.reasoning.None? then None else d.pending)
    else Doc(d.messages + [Assistant(None, d.pending, [call])], d.system, None)
  }

  function Step(d: Doc, i: Input): Doc {
    match i
    case SystemItem(text) => d.(system := AppendSystem(d.system, text))
    case AssistantItem(text) => Doc(d.messages + [Assistant(Some(text), d.pending, [])], d.system, None)
    case UserItem(text) => Doc(d.messages + [User(text)], d.system, None)
    case CallItem(call) => AddCall(d, call)
    case OutputItem(callId, output) => Doc(d.messages + [Tool(callId, output)], d.system, None)
    case ReasoningItem(text) => d.(pending := Some(text))
    case Ignored => d
  }

  function Run(d: Doc, inputs: seq<Input>): Doc
    decreases inputs
  {
    if inputs == [] then d else Run(Step(d, inputs[0]), inputs[1..])
  }

  function ReadAll(show: Printer, items: seq<Value>): seq<Input> {
    seq(|items|, k requires 0 <= k < |items| => Read(show, items[k]))
  }

  class InputParser {
    const show: Printer
    var messages: seq<Message>
    var system: Option<string>
    var pendingReasoning: Option<string>

    function State(): Doc
      reads this
    {
      Doc(messages, system, pendingReasoning)
    }

    constructor (show: Printer, instructions: Option<string>)
      ensures this.show == show && State() == Doc([], instructions, None)
    {
      this.show := show;
      messages, system, pendingReasoning := [], instructions, None;
    }

    method ParseInputItem(item: Value)
      modifies this
      ensures State() == Step(old(State()), Read(show, item))
    {
      var kind := UnwrapOr(AsStr(item.Get("type")), "message");
      if kind == "message" {
        TakeMessage(item);
      } else if kind == "function_call" {
        TakeCall(ToolCall(StrOr(item.Get("call_id")), StrOr(item.Get("name")), StrOr(item.Get("arguments"))));
      } else if kind == "function_call_output" {
        var output := OutputText(show, item.Get("output"));
        var callId := StrOr(item.Get("call_id"));
        pendingReasoning := None;
        messages := messages + [Tool(callId, output)];
      } else if kind == "reasoning" {
        var text := JoinTexts(UnwrapOr(AsArr(item.Get("summary")), []));
        if text != "" { pendingReasoning := Some(text); }
      }
    }

    method TakeMessage(item: Value)
      requires UnwrapOr(AsStr(item.Get("type")), "message") == "message"
      modifies this
      ensures State() == Step(old(State()), Read(show, item))
    {
      var role := UnwrapOr(AsStr(item.Get("role")), "user");
      var text := TakeText(item.Get("content"));
      if role == "system" || role == "developer" {
        system := AppendSystem(system, text);
      } else if role == "assistant" {
        messages := messages + [Assistant(Some(text), pendingReasoning, [])];
        pendingReasoning := None;
      } else {
        pendingReasoning := None;
        messages := messages + [User(text)];
      }
    }

    method TakeCall(call: ToolCall)
      modifies this
      ensures State() == AddCall(old(State()), call)
    {
      if messages != [] && messages[|messages| - 1].Assistant? {
        var last := messages[|messages| - 1];
        last := last.(toolCalls := last.toolCalls + [call]);
        if last.reasoning.None? {
          last := last.(reasoning := pendingReasoning);
          pendingReasoning := None;
        }
        messages := messages[|messages| - 1 := last];
      } else {
        messages := messages + [Assistant(None, pendingReasoning, [call])];
        pendingReasoning := None;
      }
    }

    /** A string is one user message, an array is read item by item, nothing is
        nothing, and anything else is refused. */
    method ParseInput(input: Option<Value>) returns (ok: bool)
      requires messages == [] && pendingReasoning == None
      modifies this
      ensures ok <==> input.None? || input.value.Str? || input.value.Arr?
      ensures ok ==> State() == Run(Doc([], old(system), None),
        match input case Some(Str(s)) => [UserItem(s)] case Some(Arr(items)) => ReadAll(show, items) case _ => [])
    {
      ghost var start := State();
      match input {
        case None => return true;
        case Some(Str(s)) =>
          messages := messages + [User(s)];
          assert [UserItem(s)][1..] == [];
          return true;
        case Some(Arr(items)) =>
          ghost var inputs := ReadAll(show, items);
          for k := 0 to |items|
            invariant Run(State(), inputs[k..]) == Run(start, inputs)
          {
            assert inputs[k..][0] == Read(show, items[k]) && inputs[k..][1..] == inputs[k + 1..];
            ParseInputItem(items[k]);
          }
          assert inputs[|items|..] == [];
          return true;
        case Some(_) => return false;
      }
    }
  }

  // ----- order and content -----

  datatype Token =
    | UserText(text: string)
    | AssistantText(text: string)
    | CallMade(call: ToolCall)
    | OutputGiven(callId: string, output: string)

  function CallTokens(calls: seq<ToolCall>): seq<Token> {
    seq(|calls|, k requires 0 <= k < |calls| => CallMade(calls[k]))
  }

  function Tokens(m: Message): seq<Token> {
    match m
    case User(text) => [UserText(text)]
    case Assistant(text, _, calls) => (if text.Some? then [AssistantText(text.value)] else []) + CallTokens(calls)
    case Tool(callId, output) => [OutputGiven(callId, output)]
  }

  function Flatten(msgs: seq<Message>): seq<Token> {
    if msgs == [] then [] else Flatten(msgs[..|msgs| - 1]) + Tokens(msgs[|msgs| - 1])
  }

  function InputTokens(i: Input): seq<Token> {
    match i
    case AssistantItem(text) => [AssistantText(text)]
    case UserItem(text) => [UserText(text)]
    case CallItem(call) => [CallMade(call)]
    case OutputItem(callId, output) => [OutputGiven(callId, output)]
    case _ => []
  }

  function AllTokens(inputs: seq<Input>): seq<Token> {
    if inputs == [] then [] else InputTokens(inputs[0]) + AllTokens(inputs[1..])
  }

  lemma FlattenSnoc(msgs: seq<Message>, m: Message)
    ensures Flatten(msgs + [m]) == Flatten(msgs) + Tokens(m)
  {
    assert (msgs + [m])[..|msgs|] == msgs;
  }

  lemma ReplaceLast(msgs: seq<Message>, m: Message)
    requires msgs != []
    ensures var init := msgs[..|msgs| - 1];
      && Flatten(msgs[|msgs| - 1 := m]) == Flatten(init) + Tokens(m)
      && Flatten(msgs) == Flatten(init) + Tokens(msgs[|msgs| - 1])
  {
    assert msgs[|msgs| - 1 := m][..|msgs| - 1] == msgs[..|msgs| - 1];
  }

  lemma OneMoreCall(text: Option<string>, before: Option<string>, after: Option<string>, calls: seq<ToolCall>,
                    call: ToolCall)
    ensures Tokens(Assistant(text, after, calls + [call])) == Tokens(Assistant(text, before, calls)) + [CallMade(call)]
  {
    assert CallTokens(calls + [call]) == CallTokens(calls) + [CallMade(call)];
    var head := if text.Some? then [AssistantText(text.value)] else [];
    Joined(head, CallTokens(calls), [CallMade(call)]);
  }

  lemma MergedTokens(d: Doc, call: ToolCall)
    requires EndsInAssistant(d.messages)
    ensures Flatten(AddCall(d, call).messages) == Flatten(d.messages) + [CallMade(call)]
  {
    var last := d.messages[|d.messages| - 1];
    var adopted := if last.reasoning.None? then d.pending else last.reasoning;
    var merged := Assistant(last.text, adopted, last.toolCalls + [call]);
    ReplaceLast(d.messages, merged);
    OneMoreCall(last.text, last.reasoning, adopted, last.toolCalls, call);
    Joined(Flatten(d.messages[..|d.messages| - 1]), Tokens(last), [CallMade(call)]);
  }

  lemma Joined(a: seq<Token>, b: seq<Token>, c: seq<Token>)
    ensures (a + b) + c == a + (b + c)
  {
  }

  lemma AddCallTokens(d: Doc, call: ToolCall)
    ensures Flatten(AddCall(d, call).messages) == Flatten(d.messages) + [CallMade(call)]
  {
    if EndsInAssistant(d.messages) {
      MergedTokens(d, call);
    } else {
      FlattenSnoc(d.messages, Assistant(None, d.pending, [call]));
      assert CallTokens([call]) == [CallMade(call)];
      assert [] + [CallMade(call)] == [CallMade(call)];
    }
  }

  lemma NewMessageTokens(d: Doc, m: Message, token: Token)
    requires Tokens(m) == [token]
    ensures Flatten(d.messages + [m]) == Flatten(d.messages) + [token]
  {
    FlattenSnoc(d.messages, m);
  }

  lemma PlainTokens(text: string, reasoning: Option<string>)
    ensures Tokens(Assistant(Some(text), reasoning, [])) == [AssistantText(text)]
  {
    assert CallTokens([]) == [];
  }

  lemma NothingAdded(d: Doc, i: Input)
    requires InputTokens(i) == []
    ensures Flatten(d.messages) == Flatten(d.messages) + InputTokens(i)
  {
  }

  lemma TurnTokens(d: Doc, i: Input)
    requires !i.CallItem?
    ensures Flatten(Step(d, i).messages) == Flatten(d.messages) + InputTokens(i)
  {
    match i
    case AssistantItem(text) =>
      PlainTokens(text, d.pending);
      NewMessageTokens(d, Assistant(Some(text), d.pending, []), AssistantText(text));
    case UserItem(text) => NewMessageTokens(d, User(text), UserText(text));
    case OutputItem(callId, output) => NewMessageTokens(d, Tool(callId, output), OutputGiven(callId, output));
    case _ => NothingAdded(d, i);
  }

  lemma CallItemTokens(d: Doc, i: Input)
    requires i.CallItem?
    ensures Flatten(Step(d, i).messages) == Flatten(d.messages) + InputTokens(i)
  {
    AddCallTokens(d, i.call);
    assert Step(d, i) == AddCall(d, i.call) && InputTokens(i) == [CallMade(i.call)];
  }

  lemma StepTokens(d: Doc, i: Input)
    ensures Flatten(Step(d, i).messages) == Flatten(d.messages) + InputTokens(i)
  {
    if i.CallItem? {
      CallItemTokens(d, i);
    } else {
      TurnTokens(d, i);
    }
  }

  /** Flattening the messages gives exactly the user texts, assistant texts, calls and
      outputs of the input, in order. */
  lemma {:induction false} OrderPreserved(d: Doc, inputs: seq<Input>)
    ensures Flatten(Run(d, inputs).messages) == Flatten(d.messages) + AllTokens(inputs)
    decreases inputs
  {
    if inputs == [] {
      assert Flatten(d.messages) + [] == Flatten(d.messages);
    } else {
      StepTokens(d, inputs[0]);
      OrderPreserved(Step(d, inputs[0]), inputs[1..]);
      Joined(Flatten(d.messages), InputTokens(inputs[0]), AllTokens(inputs[1..]));
    }
  }

  /** No assistant message without text directly follows another assistant message:
      its calls would have been merged. */
  predicate Merged(msgs: seq<Message>) {
    forall k :: 0 < k < |msgs| && msgs[k - 1].Assistant? && msgs[k].Assistant? ==> msgs[k].text.Some?
  }

  lemma {:induction false} CallsAreMerged(d: Doc, inputs: seq<Input>)
    requires Merged(d.messages)
    ensures Merged(Run(d, inputs).messages)
    decreases inputs
  {
    if inputs != [] { CallsAreMerged(Step(d, inputs[0]), inputs[1..]); }
  }

  /** System texts of the input, each on its own line after what was there. */
  function SystemAfter(system: Option<string>, inputs: seq<Input>): Option<string>
    decreases inputs
  {
    if inputs == [] then system
    else SystemAfter(if inputs[0].SystemItem? then AppendSystem(system, inputs[0].text) else system, inputs[1..])
  }

  lemma {:induction false} SystemCollected(d: Doc, inputs: seq<Input>)
    ensures Run(d, inputs).system == SystemAfter(d.system, inputs)
    decreases inputs
  {
    if inputs != [] { SystemCollected(Step(d, inputs[0]), inputs[1..]); }
  }

  // ----- reasoning -----

  predicate IsBarrier(i: Input) {
    i.UserItem? || i.OutputItem?
  }

  lemma {:induction false} RunAppend(d: Doc, a: seq<Input>, b: seq<Input>)
    ensures Run(d, a + b) == Run(Run(d, a), b)
    decreases a
  {
    if a == [] {
      assert a + b == b;
    } else {
      assert (a + b)[0] == a[0] && (a + b)[1..] == a[1..] + b;
      RunAppend(Step(d, a[0]), a[1..], b);
    }
  }

  lemma StepBehind(prefix: seq<Message>, d: Doc, i: Input)
    requires prefix != [] && !EndsInAssistant(prefix)
    ensures var s := Step(d, i); Step(d.(messages := prefix + d.messages), i) == s.(messages := prefix + s.messages)
  {
    var long := d.(messages := prefix + d.messages);
    if i.CallItem? {
      assert EndsInAssistant(long.messages) <==> EndsInAssistant(d.messages);
    }
    assert Step(long, i).messages == prefix + Step(d, i).messages;
  }

  lemma {:induction false} RunBehind(prefix: seq<Message>, d: Doc, inputs: seq<Input>)
    requires prefix != [] && !EndsInAssistant(prefix)
    ensures var s := Run(d, inputs);
      Run(d.(messages := prefix + d.messages), inputs) == s.(messages := prefix + s.messages)
    decreases inputs
  {
    if inputs != [] {
      StepBehind(prefix, d, inputs[0]);
      RunBehind(prefix, Step(d, inputs[0]), inputs[1..]);
    }
  }

  /** A user message or a tool output is a barrier: what follows is read as if
      nothing came before, so no reasoning and no call crosses it. */
  lemma BarrierSeparates(d: Doc, a: seq<Input>, barrier: Input, b: seq<Input>)
    requires IsBarrier(barrier)
    ensures var before := Run(d, a + [barrier]);
      Run(d, a + [barrier] + b).messages == before.messages + Run(Doc([], before.system, None), b).messages
  {
    var before := Run(d, a + [barrier]);
    RunAppend(d, a, [barrier]);
    RunAppend(d, a + [barrier], b);
    assert [barrier][1..] == [];
    assert before == Step(Run(d, a), barrier);
    RunBehind(before.messages, Doc([], before.system, None), b);
    assert before.messages + [] == before.messages;
  }

  function Reasonings(msgs: seq<Message>): seq<string> {
    if msgs == [] then [] else
      Reasonings(msgs[..|msgs| - 1]) + OptSeq(if msgs[|msgs| - 1].Assistant? then msgs[|msgs| - 1].reasoning else None)
  }

  function OptSeq(o: Option<string>): seq<string> {
    if o.Some? then [o.value] else []
  }

  function ReasoningTexts(inputs: seq<Input>): seq<string> {
    if inputs == [] then [] else
      (if inputs[0].ReasoningItem? then [inputs[0].text] else []) + ReasoningTexts(inputs[1..])
  }

  /** `a` is `b` with some elements left out. */
  ghost predicate Subsequence(a: seq<string>, b: seq<string>)
    decreases |b|
  {
    a == [] || (b != [] && (Subsequence(a, b[..|b| - 1])
      || (a[|a| - 1] == b[|b| - 1] && Subsequence(a[..|a| - 1], b[..|b| - 1]))))
  }

  lemma {:induction false} SubsequenceDropLast(a: seq<string>, x: string, b: seq<string>)
    requires Subsequence(a + [x], b)
    ensures Subsequence(a, b)
    decreases |b|
  {
    assert (a + [x])[..|a|] == a;
    if a != [] {
      var init := b[..|b| - 1];
      if Subsequence(a + [x], init) { SubsequenceDropLast(a, x, init); }
    }
  }

  lemma SubsequenceSnoc(a: seq<string>, b: seq<string>, x: string)
    requires Subsequence(a, b)
    ensures Subsequence(a, b + [x]) && Subsequence(a + [x], b + [x])
  {
    assert (b + [x])[..|b|] == b && (a + [x])[..|a|] == a;
  }

  function Attached(d: Doc): seq<string> {
    Reasonings(d.messages) + OptSeq(d.pending)
  }

  lemma ReasoningsSnoc(msgs: seq<Message>, m: Message)
    ensures Reasonings(msgs + [m]) == Reasonings(msgs) + OptSeq(if m.Assistant? then m.reasoning else None)
  {
    assert (msgs + [m])[..|msgs|] == msgs;
  }

  lemma MergedAttached(d: Doc, call: ToolCall)
    requires EndsInAssistant(d.messages)
    ensures Attached(AddCall(d, call)) == Attached(d)
  {
    var n := |d.messages| - 1;
    var out := AddCall(d, call).messages;
    assert out[..n] == d.messages[..n];
    var before := Reasonings(d.messages[..n]);
    if d.messages[n].reasoning.None? {
      assert Reasonings(d.messages) == before + [] == before;
      assert Reasonings(out) == before + OptSeq(d.pending);
      assert (before + OptSeq(d.pending)) + [] == before + OptSeq(d.pending);
    }
  }

  lemma NewMessageAttached(d: Doc, m: Message)
    requires m.Assistant? ==> m.reasoning == d.pending
    ensures Attached(Doc(d.messages + [m], d.system, None))
      == if m.Assistant? then Attached(d) else Reasonings(d.messages)
  {
    ReasoningsSnoc(d.messages, m);
    var before := Reasonings(d.messages);
    assert before + [] == before && (before + OptSeq(d.pending)) + [] == before + OptSeq(d.pending);
  }

  lemma StepAttached(d: Doc, i: Input)
    ensures i.ReasoningItem? ==> Attached(Step(d, i)) == Reasonings(d.messages) + [i.text]
    ensures !i.ReasoningItem? ==> Attached(Step(d, i)) == Attached(d) || Attached(Step(d, i)) == Reasonings(d.messages)
  {
    match i
    case AssistantItem(text) => NewMessageAttached(d, Assistant(Some(text), d.pending, []));
    case UserItem(text) => NewMessageAttached(d, User(text));
    case OutputItem(callId, output) => NewMessageAttached(d, Tool(callId, output));
    case CallItem(call) =>
      if EndsInAssistant(d.messages) { MergedAttached(d, call); }
      else { NewMessageAttached(d, Assistant(None, d.pending, [call])); }
    case _ =>
  }

  /** Attached reasoning is never invented, repeated or reordered: it is the input's
      reasoning texts with some left out. */
  lemma {:induction false} ReasoningFromInput(inputs: seq<Input>, system: Option<string>)
    ensures Subsequence(Attached(Run(Doc([], system, None), inputs)), ReasoningTexts(inputs))
    decreases |inputs|
  {
    var d := Doc([], system, None);
    if inputs != [] {
      var init, i := inputs[..|inputs| - 1], inputs[|inputs| - 1];
      assert inputs == init + [i];
      ReasoningFromInput(init, system);
      RunAppend(d, init, [i]);
      assert [i][1..] == [];
      TextsSnoc(init, i);
      var mid := Run(d, init);
      StepAttached(mid, i);
      var texts := ReasoningTexts(init);
      if mid.pending.Some? { SubsequenceDropLast(Reasonings(mid.messages), mid.pending.value, texts); }
      assert Reasonings(mid.messages) + [] == Reasonings(mid.messages) && texts + [] == texts;
      assert Subsequence(Attached(mid), texts) && Subsequence(Reasonings(mid.messages), texts);
      if i.ReasoningItem? { SubsequenceSnoc(Reasonings(mid.messages), texts, i.text); }
    }
  }

  lemma {:induction false} TextsSnoc(inputs: seq<Input>, i: Input)
    ensures ReasoningTexts(inputs + [i]) == ReasoningTexts(inputs) + if i.ReasoningItem? then [i.text] else []
  {
    if inputs == [] {
      assert (inputs + [i])[1..] == [];
    } else {
      assert (inputs + [i])[0] == inputs[0] && (inputs + [i])[1..] == inputs[1..] + [i];
      TextsSnoc(inputs[1..], i);
    }
  }
}
