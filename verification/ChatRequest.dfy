/** Chat Completions request bodies: printing the canonical request and parsing it. */
module ChatRequest {
  import opened Wrappers
  import opened Json
  import opened Canonical
  import opened Errors
  import opened Schema
  import ToolParents

  // ----- printing -----

  function CallJson(tc: ToolCall): Value {
    Obj(map["id" := Str(tc.callId), "type" := Str("function"),
            "function" := Obj(map["name" := Str(tc.name), "arguments" := Str(tc.arguments)])])
  }

  function CallsJson(calls: seq<ToolCall>): seq<Value> {
    seq(|calls|, k requires 0 <= k < |calls| => CallJson(calls[k]))
  }

  function OrNull(s: Option<string>): Value {
    if s.Some? then Str(s.value) else Null
  }

  function MessageJson(m: Message): Value {
    match m
    case User(text) => Obj(map["role" := Str("user"), "content" := Str(text)])
    case Assistant(text, reasoning, calls) =>
      var base := map["role" := Str("assistant"), "content" := OrNull(text)];
      var withReasoning := Put(base, "reasoning_content", if reasoning.Some? then Some(Str(reasoning.value)) else None);
      Obj(Put(withReasoning, "tool_calls", if calls == [] then None else Some(Arr(CallsJson(calls)))))
    case Tool(callId, output) =>
      Obj(map["role" := Str("tool"), "tool_call_id" := Str(callId), "content" := Str(output)])
  }

  function MessagesJson(system: Option<string>, msgs: seq<Message>): seq<Value> {
    (if system.Some? then [Obj(map["role" := Str("system"), "content" := Str(system.value)])] else [])
    + seq(|msgs|, k requires 0 <= k < |msgs| => MessageJson(msgs[k]))
  }

  function ToolJson(t: ToolDef): Value {
    Obj(map["type" := Str("function"),
            "function" := Obj(map["name" := Str(t.name), "description" := OrNull(t.description),
                                  "parameters" := SanitizeParameters(t.parameters)])])
  }

  function ToolsJson(tools: seq<ToolDef>): seq<Value> {
    seq(|tools|, k requires 0 <= k < |tools| => ToolJson(tools[k]))
  }

  function ToolChoiceJson(tc: ToolChoice): Value {
    match tc
    case Auto => Str("auto")
    case NoTools => Str("none")
    case Required => Str("required")
    case Function(name) => Obj(map["type" := Str("function"), "function" := Obj(map["name" := Str(name)])])
  }

  function EffortName(e: ReasoningEffort): string {
    match e
    case Minimal => "minimal"
    case Low => "low"
    case Medium => "medium"
    case High => "high"
    case XHigh => "xhigh"
  }

  function OptReal(r: Option<real>): Option<Value> {
    if r.Some? then Some(Float(r.value)) else None
  }

  function When(c: bool, v: Value): Option<Value> {
    if c then Some(v) else None
  }

  /** The keys set before the provider's own token-limit field. */
  function EarlyBody(req: Request, model: string): map<string, Value> {
    var messages := MessagesJson(req.system, ToolParents.Normalize({}, req.messages));
    var b0 := map["model" := Str(model), "messages" := Arr(messages)];
    var b1 := Put(b0, "tools", When(req.tools != [], Arr(ToolsJson(req.tools))));
    var b2 := Put(b1, "tool_choice", When(req.tools != [], ToolChoiceJson(req.toolChoice)));
    var b3 := Put(b2, "temperature", OptReal(req.temperature));
    Put(b3, "top_p", OptReal(req.topP))
  }

  /** The keys set after it. */
  function LateBody(b: map<string, Value>, req: Request): map<string, Value> {
    var b1 := Put(b, "reasoning_effort",
      if req.reasoningEffort.Some? then Some(Str(EffortName(req.reasoningEffort.value))) else None);
    var b2 := Put(b1, "parallel_tool_calls",
      if req.parallelToolCalls.Some? then Some(Bool(req.parallelToolCalls.value)) else None);
    var b3 := Put(b2, "stream", When(req.stream, Bool(true)));
    Put(b3, "stream_options", When(req.stream, Obj(map["include_usage" := Bool(true)])))
  }

  function LimitJson(req: Request): Option<Value> {
    if req.maxOutputTokens.Some? then Some(Int(req.maxOutputTokens.value)) else None
  }

  function Body(req: Request, model: string, limitField: string): map<string, Value> {
    LateBody(Put(EarlyBody(req, model), limitField, LimitJson(req)), req)
  }

  lemma NextMessage(system: Option<string>, msgs: seq<Message>, k: nat)
    requires k < |msgs|
    ensures MessagesJson(system, msgs[..k + 1]) == MessagesJson(system, msgs[..k]) + [MessageJson(msgs[k])]
  {
  }

  method BuildMessages(req: Request) returns (messages: seq<Value>)
    ensures messages == MessagesJson(req.system, ToolParents.Normalize({}, req.messages))
  {
    var normalized := ToolParents.NormalizeToolParents(req.messages);
    messages := [];
    if req.system.Some? {
      messages := messages + [Obj(map["role" := Str("system"), "content" := Str(req.system.value)])];
    }
    for k := 0 to |normalized|
      invariant messages == MessagesJson(req.system, normalized[..k])
    {
      NextMessage(req.system, normalized, k);
      messages := messages + [MessageJson(normalized[k])];
    }
    assert normalized[..|normalized|] == normalized;
  }

  method BuildRequest(req: Request, upstreamModel: string, limitField: string) returns (body: Value)
    ensures body == Obj(Body(req, upstreamModel, limitField))
  {
    var messages := BuildMessages(req);
    var b := map["model" := Str(upstreamModel), "messages" := Arr(messages)];
    if req.tools != [] {
      b := b["tools" := Arr(ToolsJson(req.tools))];
      b := b["tool_choice" := ToolChoiceJson(req.toolChoice)];
    }
    if req.temperature.Some? { b := b["temperature" := Float(req.temperature.value)]; }
    if req.topP.Some? { b := b["top_p" := Float(req.topP.value)]; }
    assert b == EarlyBody(req, upstreamModel);
    if req.maxOutputTokens.Some? { b := b[limitField := Int(req.maxOutputTokens.value)]; }
    if req.reasoningEffort.Some? { b := b["reasoning_effort" := Str(EffortName(req.reasoningEffort.value))]; }
    if req.parallelToolCalls.Some? { b := b["parallel_tool_calls" := Bool(req.parallelToolCalls.value)]; }
    if req.stream {
      b := b["stream" := Bool(true)];
      b := b["stream_options" := Obj(map["include_usage" := Bool(true)])];
    }
    body := Obj(b);
  }

  // ----- parsing -----

  datatype Parsed = SystemText(text: string) | Turn(message: Message)

  function ParseMessage(m: Value): Parsed {
    var role := UnwrapOr(AsStr(m.Get("role")), "user");
    var content := StrOr(m.Get("content"));
    if role == "system" || role == "developer" then SystemText(content)
    else if role == "tool" then Turn(Tool(StrOr(m.Get("tool_call_id")), content))
    else if role == "assistant" then
      var text := if content == "" then None else Some(content);
      Turn(Assistant(text, AsStr(m.Get("reasoning_content")), ParseCalls(m.Get("tool_calls"))))
    else Turn(User(content))
  }

  function ParseCall(tc: Value): Option<ToolCall> {
    var f := tc.Get("function");
    match AsStr(Field(f, "name"))
    case None => None
    case Some(name) => Some(ToolCall(StrOr(tc.Get("id")), name, StrOr(Field(f, "arguments"))))
  }

  function ParseTool(t: Value): Option<ToolDef> {
    var f := t.Get("function");
    match AsStr(Field(f, "name"))
    case None => None
    case Some(name) => Some(ToolDef(name, AsStr(Field(f, "description")), UnwrapOr(Field(f, "parameters"), Null)))
  }

  function FilterMap<T>(f: Value -> Option<T>, items: seq<Value>): seq<T> {
    if items == [] then [] else
      (if f(items[0]).Some? then [f(items[0]).value] else []) + FilterMap(f, items[1..])
  }

  function ParseCalls(v: Option<Value>): seq<ToolCall> {
    FilterMap(ParseCall, UnwrapOr(AsArr(v), []))
  }

  function ParseTools(v: Option<Value>): seq<ToolDef> {
    FilterMap(ParseTool, UnwrapOr(AsArr(v), []))
  }

  function ParseToolChoice(v: Option<Value>): ToolChoice {
    match v
    case Some(Str(s)) => if s == "none" then NoTools else if s == "required" then Required else Auto
    case Some(Obj(_)) =>
      var name := AsStr(Field(Field(v, "function"), "name"));
      if name.Some? then Function(name.value) else Auto
    case _ => Auto
  }

  /** The last system text, and the other turns in order. */
  datatype Transcript = Transcript(system: Option<string>, messages: seq<Message>)

  function Take(t: Transcript, p: Parsed): Transcript {
    match p
    case SystemText(text) => t.(system := Some(text))
    case Turn(m) => t.(messages := t.messages + [m])
  }

  function TakeAll(t: Transcript, items: seq<Value>): Transcript
    decreases items
  {
    if items == [] then t else TakeAll(Take(t, ParseMessage(items[0])), items[1..])
  }

  function LimitOf(v: Option<Value>): Option<U32> {
    match AsU64(v)
    case Some(n) => Some(n % U32_RANGE)
    case None => None
  }

  function ParseSpec(body: Value): Result<Request, BridgeError> {
    if !body.Obj? then Err(BadRequest("body must be a JSON object")) else
      FromFields(body.Get("model"), body.Get("messages"), body.Get("tools"), body.Get("tool_choice"),
        body.Get("temperature"), LimitOf(body.Get("max_tokens")), AsBool(body.Get("parallel_tool_calls")),
        UnwrapOr(AsBool(body.Get("stream")), false))
  }

  function FromFields(model: Option<Value>, messages: Option<Value>, tools: Option<Value>, toolChoice: Option<Value>,
                      temperature: Option<Value>, limit: Option<U32>, parallel: Option<bool>, stream: bool)
    : Result<Request, BridgeError>
  {
    match AsStr(model)
    case None => Err(BadRequest("missing `model`"))
    case Some(name) =>
      var t := TakeAll(Transcript(None, []), UnwrapOr(AsArr(messages), []));
      Ok(Request(name, t.system, t.messages, ParseTools(tools), ParseToolChoice(toolChoice), AsF64(temperature),
        None, limit, None, parallel, stream))
  }

  method ParseRequest(body: Value) returns (r: Result<Request, BridgeError>)
    ensures r == ParseSpec(body)
  {
    if !body.Obj? { return Err(BadRequest("body must be a JSON object")); }
    var model := AsStr(body.Get("model"));
    if model.None? { return Err(BadRequest("missing `model`")); }
    var system: Option<string> := None;
    var messages: seq<Message> := [];
    var items := UnwrapOr(AsArr(body.Get("messages")), []);
    for k := 0 to |items|
      invariant TakeAll(Transcript(system, messages), items[k..]) == TakeAll(Transcript(None, []), items)
    {
      assert items[k..][0] == items[k] && items[k..][1..] == items[k + 1..];
      match ParseMessage(items[k]) {
        case SystemText(text) => system := Some(text);
        case Turn(m) => messages := messages + [m];
      }
    }
    assert items[|items|..] == [];
    var stream := UnwrapOr(AsBool(body.Get("stream")), false);
    return Ok(Request(model.value, system, messages, ParseTools(body.Get("tools")),
      ParseToolChoice(body.Get("tool_choice")),
      AsF64(body.Get("temperature")), None, LimitOf(body.Get("max_tokens")), None,
      AsBool(body.Get("parallel_tool_calls")), stream));
  }
}
