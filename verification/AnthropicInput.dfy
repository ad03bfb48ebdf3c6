/** The `messages` of an Anthropic request, turned into canonical messages. */
module AnthropicInput {
  import opened Wrappers
  import opened Json
  import opened Canonical
  import RI = ResponsesInput

  /** What one content block means; a kind the role does not use is passed over. */
  datatype Block =
    | TextIn(text: string)
    | ResultIn(callId: string, output: string)
    | ThinkingIn(text: string)
    | UseIn(call: ToolCall)
    | Skipped

  function ResultText(show: RI.Printer, content: Option<Value>): string {
    if content.None? then ""
    else if content.value.Str? || content.value.Arr? then RI.ExtractText(content)
    else show(content.value)
  }

  function Arguments(show: RI.Printer, input: Option<Value>): string {
    if input.Some? then show(input.value) else "{}"
  }

  function Read(show: RI.Printer, b: Value): Block {
    match AsStr(b.Get("type"))
    case None => Skipped
    case Some(kind) =>
      if kind == "text" then TextIn(StrOr(b.Get("text")))
      else if kind == "tool_result" then
        ResultIn(StrOr(b.Get("tool_use_id")), ResultText(show, b.Get("content")))
      else if kind == "thinking" then ThinkingIn(StrOr(b.Get("thinking")))
      else if kind == "tool_use" then
        UseIn(ToolCall(StrOr(b.Get("id")), StrOr(b.Get("name")), Arguments(show, b.Get("input"))))
      else Skipped
  }

  function ReadAll(show: RI.Printer, blocks: seq<Value>): seq<Block> {
    seq(|blocks|, k requires 0 <= k < |blocks| => Read(show, blocks[k]))
  }

  // ----- the two roles, each as its blocks say -----

  function Texts(bs: seq<Block>): string {
    if bs == [] then "" else (if bs[0].TextIn? then bs[0].text else "") + Texts(bs[1..])
  }

  function Results(bs: seq<Block>): seq<Message> {
    if bs == [] then [] else
      (if bs[0].ResultIn? then [Tool(bs[0].callId, bs[0].output)] else []) + Results(bs[1..])
  }

  /** The thinking texts that are not empty. */
  function Thoughts(bs: seq<Block>): seq<string> {
    if bs == [] then [] else
      (if bs[0].ThinkingIn? && bs[0].text != "" then [bs[0].text] else []) + Thoughts(bs[1..])
  }

  function Calls(bs: seq<Block>): seq<ToolCall> {
    if bs == [] then [] else (if bs[0].UseIn? then [bs[0].call] else []) + Calls(bs[1..])
  }

  predicate HasText(bs: seq<Block>) {
    exists k :: 0 <= k < |bs| && bs[k].TextIn?
  }

  function Spoken(text: string): seq<Message> {
    if text == "" then [] else [User(text)]
  }

  function UserTurn(bs: seq<Block>): seq<Message> {
    Results(bs) + Spoken(Texts(bs))
  }

  function LastOf(thoughts: seq<string>): Option<string> {
    if thoughts == [] then None else Some(thoughts[|thoughts| - 1])
  }

  /** A turn with nothing but reasoning gets an empty text. */
  function Reply(text: Option<string>, reasoning: Option<string>, calls: seq<ToolCall>): Message {
    Assistant(if text.None? && calls == [] && reasoning.Some? then Some("") else text, reasoning, calls)
  }

  function AssistantTurn(bs: seq<Block>): Message {
    Reply(if HasText(bs) then Some(Texts(bs)) else None, LastOf(Thoughts(bs)), Calls(bs))
  }

  function Turn(show: RI.Printer, role: string, content: Option<Value>): seq<Message> {
    if role == "user" then
      match content
      case Some(Str(s)) => [User(s)]
      case Some(Arr(blocks)) => UserTurn(ReadAll(show, blocks))
      case _ => []
    else if role == "assistant" then
      match content
      case Some(Str(s)) => [Assistant(Some(s), None, [])]
      case Some(Arr(blocks)) => [AssistantTurn(ReadAll(show, blocks))]
      case _ => [Assistant(None, None, [])]
    else []
  }

  // ----- the source's loops -----

  /** The user's loop so far. */
  ghost predicate Gathered(bs: seq<Block>, k: nat, out: seq<Message>, text: string)
    requires k <= |bs|
  {
    out + Results(bs[k..]) == Results(bs) && text + Texts(bs[k..]) == Texts(bs)
  }

  lemma GatherNext(bs: seq<Block>, k: nat, out: seq<Message>, text: string)
    requires k < |bs| && Gathered(bs, k, out, text)
    ensures var b := bs[k];
      Gathered(bs, k + 1, if b.ResultIn? then out + [Tool(b.callId, b.output)] else out,
        if b.TextIn? then text + b.text else text)
  {
    assert bs[k..][0] == bs[k] && bs[k..][1..] == bs[k + 1..];
  }

  lemma GatherEnds(bs: seq<Block>, out: seq<Message>, text: string)
    ensures Gathered(bs, 0, [], "")
    ensures Gathered(bs, |bs|, out, text) ==> out == Results(bs) && text == Texts(bs)
  {
    assert bs[0..] == bs && bs[|bs|..] == [];
    assert [] + Results(bs) == Results(bs) && "" + Texts(bs) == Texts(bs) && out + [] == out && text + "" == text;
  }

  method TakeUserBlocks(show: RI.Printer, blocks: seq<Value>) returns (out: seq<Message>)
    ensures out == UserTurn(ReadAll(show, blocks))
  {
    ghost var bs := ReadAll(show, blocks);
    var text := "";
    out := [];
    GatherEnds(bs, out, text);
    for k := 0 to |blocks|
      invariant Gathered(bs, k, out, text)
    {
      GatherNext(bs, k, out, text);
      var b := Read(show, blocks[k]);
      if b.TextIn? {
        text := text + b.text;
      } else if b.ResultIn? {
        out := out + [Tool(b.callId, b.output)];
      }
    }
    GatherEnds(bs, out, text);
    out := out + if text != "" then [User(text)] else [];
  }

  /** The assistant's loop so far. */
  ghost predicate Taken(bs: seq<Block>, k: nat, text: Option<string>, reasoning: Option<string>, calls: seq<ToolCall>)
    requires k <= |bs|
  {
    && (text.Some? <==> HasText(bs[..k])) && UnwrapOr(text, "") + Texts(bs[k..]) == Texts(bs)
    && OrElse(LastOf(Thoughts(bs[k..])), reasoning) == LastOf(Thoughts(bs))
    && calls + Calls(bs[k..]) == Calls(bs)
  }

  method TakeAssistantBlocks(show: RI.Printer, blocks: seq<Value>) returns (out: Message)
    ensures out == AssistantTurn(ReadAll(show, blocks))
  {
    var text: Option<string>, reasoning: Option<string>, calls: seq<ToolCall> := None, None, [];
    ghost var bs := ReadAll(show, blocks);
    TakeEnds(bs, text, reasoning, calls);
    for k := 0 to |blocks|
      invariant Taken(bs, k, text, reasoning, calls)
    {
      TakeNext(bs, k, text, reasoning, calls);
      var b := Read(show, blocks[k]);
      if b.TextIn? {
        text := Some(UnwrapOr(text, "") + b.text);
      } else if b.ThinkingIn? && b.text != "" {
        reasoning := Some(b.text);
      } else if b.UseIn? {
        calls := calls + [b.call];
      }
    }
    TakeEnds(bs, text, reasoning, calls);
    if text.None? && calls == [] && reasoning.Some? { text := Some(""); }
    out := Assistant(text, reasoning, calls);
  }

  lemma TakeEnds(bs: seq<Block>, text: Option<string>, reasoning: Option<string>, calls: seq<ToolCall>)
    ensures Taken(bs, 0, None, None, [])
    ensures Taken(bs, |bs|, text, reasoning, calls) ==>
      text == (if HasText(bs) then Some(Texts(bs)) else None) && reasoning == LastOf(Thoughts(bs)) && calls == Calls(bs)
  {
    assert bs[0..] == bs && bs[|bs|..] == [] && bs[..|bs|] == bs && bs[..0] == [];
    assert "" + Texts(bs) == Texts(bs) && [] + Calls(bs) == Calls(bs) && calls + [] == calls;
    if text.Some? { assert text.value + "" == text.value; }
  }

  lemma TakeNext(bs: seq<Block>, k: nat, text: Option<string>, reasoning: Option<string>, calls: seq<ToolCall>)
    requires k < |bs| && Taken(bs, k, text, reasoning, calls)
    ensures var b := bs[k];
      Taken(bs, k + 1,
        if b.TextIn? then Some(UnwrapOr(text, "") + b.text) else text,
        if b.ThinkingIn? && b.text != "" then Some(b.text) else reasoning,
        if b.UseIn? then calls + [b.call] else calls)
  {
    assert bs[k..][0] == bs[k] && bs[k..][1..] == bs[k + 1..];
    assert bs[..k + 1] == bs[..k] + [bs[k]];
    assert bs[..k + 1][k] == bs[k];
    assert forall j :: 0 <= j < k ==> bs[..k + 1][j] == bs[..k][j];
  }

  method ParseMessage(show: RI.Printer, role: string, content: Option<Value>, messages: seq<Message>)
    returns (out: seq<Message>)
    ensures out == messages + Turn(show, role, content)
  {
    out := messages;
    if role == "user" {
      match content {
        case Some(Str(s)) => out := out + [User(s)];
        case Some(Arr(blocks)) =>
          var more := TakeUserBlocks(show, blocks);
          out := out + more;
        case _ =>
      }
    } else if role == "assistant" {
      var reply := Assistant(None, None, []);
      match content {
        case Some(Str(s)) => reply := Assistant(Some(s), None, []);
        case Some(Arr(blocks)) => reply := TakeAssistantBlocks(show, blocks);
        case _ =>
      }
      out := out + [reply];
    }
  }

  function RoleOf(entry: Value): string {
    UnwrapOr(AsStr(entry.Get("role")), "user")
  }

  function Turns(show: RI.Printer, entries: seq<Value>): seq<Message> {
    if entries == [] then [] else
      Turn(show, RoleOf(entries[0]), entries[0].Get("content")) + Turns(show, entries[1..])
  }

  lemma NextTurn(show: RI.Printer, entries: seq<Value>, k: nat, messages: seq<Message>)
    requires k < |entries|
    ensures messages + Turns(show, entries[k..])
      == (messages + Turn(show, RoleOf(entries[k]), entries[k].Get("content"))) + Turns(show, entries[k + 1..])
  {
    assert entries[k..][0] == entries[k] && entries[k..][1..] == entries[k + 1..];
    Regroup(messages, Turn(show, RoleOf(entries[k]), entries[k].Get("content")), Turns(show, entries[k + 1..]));
  }

  lemma Regroup(a: seq<Message>, b: seq<Message>, c: seq<Message>)
    ensures a + (b + c) == (a + b) + c
  {
  }

  method ParseMessages(show: RI.Printer, entries: seq<Value>) returns (messages: seq<Message>)
    ensures messages == Turns(show, entries)
  {
    messages := [];
    for k := 0 to |entries|
      invariant messages + Turns(show, entries[k..]) == Turns(show, entries)
    {
      NextTurn(show, entries, k, messages);
      messages := ParseMessage(show, RoleOf(entries[k]), entries[k].Get("content"), messages);
    }
    assert entries[|entries|..] == [];
  }

  // ----- text moves behind tool results -----

  /** The turn in the order it was written: the text so far goes out before a result. */
  function AsWritten(pending: string, bs: seq<Block>): seq<Message>
    decreases bs
  {
    if bs == [] then Spoken(pending)
    else match bs[0]
      case TextIn(t) => AsWritten(pending + t, bs[1..])
      case ResultIn(callId, output) => Spoken(pending) + [Tool(callId, output)] + AsWritten("", bs[1..])
      case _ => AsWritten(pending, bs[1..])
  }

  /** No tool result stands behind a text that is not empty. */
  predicate ResultsFirst(spoken: bool, bs: seq<Block>)
    decreases bs
  {
    bs == [] ||
    (&& !(spoken && bs[0].ResultIn?)
     && ResultsFirst(spoken || (bs[0].TextIn? && bs[0].text != ""), bs[1..]))
  }

  /** A user turn is read as it was written exactly if its tool results come first;
      otherwise its text ends up behind them. */
  lemma {:induction false} TurnAsWrittenExactly(pending: string, bs: seq<Block>)
    ensures AsWritten(pending, bs) == Results(bs) + Spoken(pending + Texts(bs)) <==> ResultsFirst(pending != "", bs)
    decreases bs
  {
    if bs == [] {
      assert pending + "" == pending && [] + Spoken(pending) == Spoken(pending);
    } else if bs[0].ResultIn? {
      TurnAsWrittenExactly("", bs[1..]);
      ResultFirst(pending, bs);
    } else {
      var text := if bs[0].TextIn? then bs[0].text else "";
      TurnAsWrittenExactly(pending + text, bs[1..]);
      OtherFirst(pending, text, bs);
    }
  }

  lemma OtherFirst(pending: string, text: string, bs: seq<Block>)
    requires bs != [] && !bs[0].ResultIn? && text == if bs[0].TextIn? then bs[0].text else ""
    ensures AsWritten(pending, bs) == AsWritten(pending + text, bs[1..])
    ensures Results(bs) + Spoken(pending + Texts(bs)) == Results(bs[1..]) + Spoken((pending + text) + Texts(bs[1..]))
    ensures ResultsFirst(pending != "", bs) <==> ResultsFirst(pending + text != "", bs[1..])
  {
    assert pending + "" == pending && [] + Results(bs[1..]) == Results(bs[1..]);
    assert (pending + text) + Texts(bs[1..]) == pending + (text + Texts(bs[1..]));
  }

  lemma ResultFirst(pending: string, bs: seq<Block>)
    requires bs != [] && bs[0].ResultIn?
    ensures AsWritten(pending, bs) == Results(bs) + Spoken(pending + Texts(bs)) <==>
      pending == "" && AsWritten("", bs[1..]) == Results(bs[1..]) + Spoken("" + Texts(bs[1..]))
    ensures ResultsFirst(pending != "", bs) <==> pending == "" && ResultsFirst(false, bs[1..])
  {
    var result, text := Tool(bs[0].callId, bs[0].output), Texts(bs[1..]);
    assert Texts(bs) == "" + text == text;
    SameTail(pending, result, AsWritten("", bs[1..]), Results(bs[1..]), text);
  }

  lemma SameTail(pending: string, result: Message, written: seq<Message>, results: seq<Message>, text: string)
    requires result.Tool?
    ensures Spoken(pending) + [result] + written == ([result] + results) + Spoken(pending + text) <==>
      pending == "" && written == results + Spoken(text)
  {
    var a, b := Spoken(pending) + [result] + written, ([result] + results) + Spoken(pending + text);
    assert b[0] == result && b[1..] == results + Spoken(pending + text);
    if pending == "" {
      assert "" + text == text;
      assert a[0] == result && a[1..] == written;
      assert a == [result] + written && b == [result] + (results + Spoken(text));
    } else {
      assert a[0] == User(pending);
    }
  }

  // ----- only the last thought is kept -----

  function Joined(texts: seq<string>): string {
    if texts == [] then "" else texts[0] + Joined(texts[1..])
  }

  /** The reasoning of an assistant turn is all that was thought exactly if at most one
      thinking block is not empty. */
  lemma ThoughtsKeptExactly(bs: seq<Block>)
    ensures UnwrapOr(AssistantTurn(bs).reasoning, "") == Joined(Thoughts(bs)) <==> |Thoughts(bs)| <= 1
  {
    var thoughts := Thoughts(bs);
    NoneEmpty(bs);
    if |thoughts| > 1 {
      JoinedIsLonger(thoughts);
    } else if |thoughts| == 1 {
      assert thoughts[1..] == [] && thoughts[0] + "" == thoughts[0];
    }
  }

  lemma {:induction false} NoneEmpty(bs: seq<Block>)
    ensures forall k :: 0 <= k < |Thoughts(bs)| ==> Thoughts(bs)[k] != ""
  {
    if bs != [] { NoneEmpty(bs[1..]); }
  }

  lemma {:induction false} JoinedIsLonger(texts: seq<string>)
    requires texts != [] && forall k :: 0 <= k < |texts| ==> texts[k] != ""
    ensures |Joined(texts)| >= |texts[|texts| - 1]|
    ensures |texts| > 1 ==> |Joined(texts)| > |texts[|texts| - 1]|
  {
    if |texts| > 1 { JoinedIsLonger(texts[1..]); }
  }
}
