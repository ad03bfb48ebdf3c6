/** Printing a request and parsing it back. */
module ChatRoundTrip {
  import opened Wrappers
  import opened Json
  import opened Canonical
  import opened Schema
  import opened ChatRequest
  import Errors
  import ToolParents

  // ----- parts -----

  /** Empty assistant text does not survive: it reads back as none. */
  function Tidy(m: Message): Message {
    if m.Assistant? && m.text == Some("") then m.(text := None) else m
  }

  function TidyAll(msgs: seq<Message>): seq<Message> {
    seq(|msgs|, k requires 0 <= k < |msgs| => Tidy(msgs[k]))
  }

  lemma SameLengthKeys()
    ensures "role" != "type" && "role" != "name" && "type" != "name"
    ensures "model" != "tools" && "model" != "top_p" && "tools" != "top_p"
    ensures "tool_choice" != "temperature"
    ensures "user" != "tool"
    ensures "required" != "function" && "none" != "auto"
  {
    assert "role"[0] == 'r' && "type"[0] == 't' && "name"[0] == 'n';
    assert "model"[0] == 'm' && "tools"[0] == 't' && "top_p"[0] == 't';
    assert "tools"[2] == 'o' && "top_p"[2] == 'p';
    assert "tool_choice"[1] == 'o' && "temperature"[1] == 'e';
    assert "user"[0] == 'u' && "tool"[0] == 't';
    assert "required"[0] == 'r' && "function"[0] == 'f' && "none"[0] == 'n' && "auto"[0] == 'a';
  }

  lemma CallBack(tc: ToolCall)
    ensures ParseCall(CallJson(tc)) == Some(tc)
  {
    SameLengthKeys();
  }

  lemma {:induction false} CallsBack(calls: seq<ToolCall>)
    ensures FilterMap(ParseCall, CallsJson(calls)) == calls
  {
    if calls != [] {
      CallBack(calls[0]);
      CallsBack(calls[1..]);
      assert CallsJson(calls)[0] == CallJson(calls[0]) && CallsJson(calls)[1..] == CallsJson(calls[1..]);
      assert [calls[0]] + calls[1..] == calls;
    }
  }

  lemma AssistantBack(text: Option<string>, reasoning: Option<string>, calls: seq<ToolCall>)
    ensures ParseMessage(MessageJson(Assistant(text, reasoning, calls)))
      == Turn(Tidy(Assistant(text, reasoning, calls)))
  {
    AssistantFields(text, reasoning, calls);
    CallsBack(calls);
    assert ParseCalls(None) == [] && ParseCalls(Some(Arr(CallsJson(calls)))) == calls;
  }

  lemma AssistantFields(text: Option<string>, reasoning: Option<string>, calls: seq<ToolCall>)
    ensures var v := MessageJson(Assistant(text, reasoning, calls));
      && v.Get("role") == Some(Str("assistant"))
      && v.Get("content") == Some(OrNull(text))
      && v.Get("reasoning_content") == (if reasoning.Some? then Some(Str(reasoning.value)) else None)
      && v.Get("tool_calls") == if calls == [] then None else Some(Arr(CallsJson(calls)))
  {
  }

  lemma MessageBack(m: Message)
    ensures ParseMessage(MessageJson(m)) == Turn(Tidy(m))
  {
    SameLengthKeys();
    if m.Assistant? { AssistantBack(m.text, m.reasoning, m.toolCalls); }
  }

  lemma MessagesStep(msgs: seq<Message>)
    requires msgs != []
    ensures MessagesJson(None, msgs) == [MessageJson(msgs[0])] + MessagesJson(None, msgs[1..])
    ensures TidyAll(msgs) == [Tidy(msgs[0])] + TidyAll(msgs[1..])
  {
  }

  lemma TakeTurn(t: Transcript, item: Value, m: Message, rest: seq<Value>)
    requires ParseMessage(item) == Turn(m)
    ensures TakeAll(t, [item] + rest) == TakeAll(t.(messages := t.messages + [m]), rest)
  {
    assert ([item] + rest)[1..] == rest;
  }

  lemma {:induction false} TurnsBack(t: Transcript, msgs: seq<Message>)
    ensures TakeAll(t, MessagesJson(None, msgs)) == t.(messages := t.messages + TidyAll(msgs))
    decreases msgs
  {
    if msgs == [] {
      assert t.messages + [] == t.messages;
    } else {
      var m, rest := Tidy(msgs[0]), msgs[1..];
      MessageBack(msgs[0]);
      MessagesStep(msgs);
      TakeTurn(t, MessageJson(msgs[0]), m, MessagesJson(None, rest));
      TurnsBack(t.(messages := t.messages + [m]), rest);
      assert (t.messages + [m]) + TidyAll(rest) == t.messages + ([m] + TidyAll(rest));
    }
  }

  lemma TranscriptBack(system: Option<string>, msgs: seq<Message>)
    ensures TakeAll(Transcript(None, []), MessagesJson(system, msgs)) == Transcript(system, TidyAll(msgs))
  {
    TurnsBack(Transcript(system, []), msgs);
    assert [] + TidyAll(msgs) == TidyAll(msgs);
    if system.Some? {
      var items := MessagesJson(system, msgs);
      assert items[1..] == MessagesJson(None, msgs);
      assert ParseMessage(items[0]) == SystemText(system.value);
    }
  }

  function Sanitized(t: ToolDef): ToolDef {
    t.(parameters := SanitizeParameters(t.parameters))
  }

  function SanitizedAll(tools: seq<ToolDef>): seq<ToolDef> {
    seq(|tools|, k requires 0 <= k < |tools| => Sanitized(tools[k]))
  }

  lemma ToolsBack(tools: seq<ToolDef>)
    ensures FilterMap(ParseTool, ToolsJson(tools)) == SanitizedAll(tools)
  {
    forall k | 0 <= k < |tools| ensures ParseTool(ToolsJson(tools)[k]) == Some(SanitizedAll(tools)[k]) {
      ToolBack(tools[k]);
    }
    AllKept(ParseTool, ToolsJson(tools), SanitizedAll(tools));
  }

  lemma {:induction false} AllKept<T>(f: Value -> Option<T>, items: seq<Value>, out: seq<T>)
    requires |items| == |out| && forall k :: 0 <= k < |items| ==> f(items[k]) == Some(out[k])
    ensures FilterMap(f, items) == out
  {
    if items != [] {
      assert forall k :: 0 <= k < |items[1..]| ==> items[1..][k] == items[k + 1] && out[1..][k] == out[k + 1];
      AllKept(f, items[1..], out[1..]);
      FilterFirst(f, items);
      assert out == [out[0]] + out[1..];
    }
  }

  lemma FilterFirst<T>(f: Value -> Option<T>, items: seq<Value>)
    requires items != [] && f(items[0]).Some?
    ensures FilterMap(f, items) == [f(items[0]).value] + FilterMap(f, items[1..])
  {
  }

  lemma ToolBack(t: ToolDef)
    ensures ParseTool(ToolJson(t)) == Some(Sanitized(t))
  {
    SameLengthKeys();
    var f := ToolJson(t).Get("function");
    assert AsStr(Field(f, "description")) == t.description;
    assert Field(f, "parameters") == Some(SanitizeParameters(t.parameters));
  }

  lemma ToolChoiceBack(tc: ToolChoice)
    ensures ParseToolChoice(Some(ToolChoiceJson(tc))) == tc
  {
    SameLengthKeys();
  }

  // ----- the whole body -----

  /** What the parser can give back of a request. */
  function Expected(req: Request, model: string, limitField: string): Request {
    Request(model, req.system, TidyAll(ToolParents.Normalize({}, req.messages)), SanitizedAll(req.tools),
      if req.tools == [] then Auto else req.toolChoice, req.temperature, None,
      if limitField == "max_tokens" then req.maxOutputTokens else None, None, req.parallelToolCalls, req.stream)
  }

  /** The provider's token-limit field overwrites a key that the parser needs. */
  predicate Clash(req: Request, limitField: string) {
    req.maxOutputTokens.Some? &&
    (|| limitField == "model"
     || (limitField == "messages" && (req.system.Some? || ToolParents.Normalize({}, req.messages) != []))
     || (limitField == "tools" && req.tools != [])
     || (limitField == "tool_choice" && req.tools != [] && req.toolChoice != Auto)
     || (limitField == "temperature" && req.temperature != Some(req.maxOutputTokens.value as real)))
  }

  function Lookup(m: map<string, Value>, key: string): Option<Value> {
    if key in m then Some(m[key]) else None
  }

  lemma PutLookup(m: map<string, Value>, key: string, v: Option<Value>, q: string)
    ensures Lookup(Put(m, key, v), q) == if q == key && v.Some? then v else Lookup(m, q)
  {
  }

  /** What the parser finds under the keys set before the limit field. */
  lemma EarlyLookup(req: Request, model: string)
    ensures var b := EarlyBody(req, model);
      && Lookup(b, "model") == Some(Str(model))
      && Lookup(b, "messages") == Some(Arr(MessagesJson(req.system, ToolParents.Normalize({}, req.messages))))
      && Lookup(b, "tools") == When(req.tools != [], Arr(ToolsJson(req.tools)))
      && Lookup(b, "tool_choice") == When(req.tools != [], ToolChoiceJson(req.toolChoice))
      && Lookup(b, "temperature") == OptReal(req.temperature)
    ensures forall q :: q in {"stream", "parallel_tool_calls", "max_tokens"} ==>
      Lookup(EarlyBody(req, model), q) == None
  {
    SameLengthKeys();
  }

  lemma LateLookup(b: map<string, Value>, req: Request)
    ensures var late := LateBody(b, req);
      && (forall q :: q in {"model", "messages", "tools", "tool_choice", "temperature", "max_tokens"} ==>
           Lookup(late, q) == Lookup(b, q))
      && Lookup(late, "stream") == (if req.stream then Some(Bool(true)) else Lookup(b, "stream"))
      && Lookup(late, "parallel_tool_calls") ==
           if req.parallelToolCalls.Some? then Some(Bool(req.parallelToolCalls.value))
             else Lookup(b, "parallel_tool_calls")
  {
  }

  lemma BodyLookup(req: Request, model: string, limitField: string, q: string)
    requires q in {"model", "messages", "tools", "tool_choice", "temperature", "max_tokens"}
    ensures Lookup(Body(req, model, limitField), q) ==
      if q == limitField && req.maxOutputTokens.Some? then LimitJson(req) else Lookup(EarlyBody(req, model), q)
  {
    LateLookup(Put(EarlyBody(req, model), limitField, LimitJson(req)), req);
    PutLookup(EarlyBody(req, model), limitField, LimitJson(req), q);
  }

  lemma FlagsBack(req: Request, model: string, limitField: string)
    ensures var b := Body(req, model, limitField);
      && UnwrapOr(AsBool(Lookup(b, "stream")), false) == req.stream
      && AsBool(Lookup(b, "parallel_tool_calls")) == req.parallelToolCalls
  {
    var early := EarlyBody(req, model);
    EarlyLookup(req, model);
    LateLookup(Put(early, limitField, LimitJson(req)), req);
    PutLookup(early, limitField, LimitJson(req), "stream");
    PutLookup(early, limitField, LimitJson(req), "parallel_tool_calls");
  }

  lemma LimitBack(req: Request, model: string, limitField: string)
    ensures LimitOf(Lookup(Body(req, model, limitField), "max_tokens"))
      == if limitField == "max_tokens" then req.maxOutputTokens else None
  {
    EarlyLookup(req, model);
    BodyLookup(req, model, limitField, "max_tokens");
  }

  /** The value of an early key after the limit field was set. */
  function Overwritten(req: Request, limitField: string, key: string, early: Option<Value>): Option<Value> {
    if key == limitField && req.maxOutputTokens.Some? then LimitJson(req) else early
  }

  lemma FieldsOfBody(req: Request, model: string, limitField: string)
    ensures ParseSpec(Obj(Body(req, model, limitField))) ==
      FromFields(
        Overwritten(req, limitField, "model", Some(Str(model))),
        Overwritten(req, limitField, "messages",
          Some(Arr(MessagesJson(req.system, ToolParents.Normalize({}, req.messages))))),
        Overwritten(req, limitField, "tools", When(req.tools != [], Arr(ToolsJson(req.tools)))),
        Overwritten(req, limitField, "tool_choice", When(req.tools != [], ToolChoiceJson(req.toolChoice))),
        Overwritten(req, limitField, "temperature", OptReal(req.temperature)),
        if limitField == "max_tokens" then req.maxOutputTokens else None, req.parallelToolCalls, req.stream)
  {
    EarlyLookup(req, model);
    BodyLookup(req, model, limitField, "model");
    BodyLookup(req, model, limitField, "messages");
    BodyLookup(req, model, limitField, "tools");
    BodyLookup(req, model, limitField, "tool_choice");
    BodyLookup(req, model, limitField, "temperature");
    FlagsBack(req, model, limitField);
    LimitBack(req, model, limitField);
    var b := Body(req, model, limitField);
    assert forall q :: Obj(b).Get(q) == Lookup(b, q);
  }

  lemma MessagesField(req: Request, limitField: string)
    ensures var msgs := ToolParents.Normalize({}, req.messages);
      var found := Overwritten(req, limitField, "messages", Some(Arr(MessagesJson(req.system, msgs))));
      (TakeAll(Transcript(None, []), UnwrapOr(AsArr(found), [])) == Transcript(req.system, TidyAll(msgs)))
      <==> !(req.maxOutputTokens.Some? && limitField == "messages" && (req.system.Some? || msgs != []))
  {
    PartsBack(req);
  }

  lemma ToolsField(req: Request, limitField: string)
    ensures ParseTools(Overwritten(req, limitField, "tools", When(req.tools != [], Arr(ToolsJson(req.tools)))))
      == SanitizedAll(req.tools)
      <==> !(req.maxOutputTokens.Some? && limitField == "tools" && req.tools != [])
  {
    PartsBack(req);
  }

  lemma ToolChoiceField(req: Request, limitField: string)
    ensures (ParseToolChoice(Overwritten(req, limitField, "tool_choice",
      When(req.tools != [], ToolChoiceJson(req.toolChoice))))
        == (if req.tools == [] then Auto else req.toolChoice))
      <==> !(req.maxOutputTokens.Some? && limitField == "tool_choice" && req.tools != [] && req.toolChoice != Auto)
  {
    PartsBack(req);
  }

  lemma TemperatureField(req: Request, limitField: string)
    ensures AsF64(Overwritten(req, limitField, "temperature", OptReal(req.temperature))) == req.temperature
      <==> !(&& req.maxOutputTokens.Some? && limitField == "temperature"
             && req.temperature != Some(req.maxOutputTokens.value as real))
  {
  }

  /** The request comes back as expected exactly when the limit field does not clash. */
  lemma RoundTripExactly(req: Request, model: string, limitField: string)
    ensures ParseSpec(Obj(Body(req, model, limitField))) == Ok(Expected(req, model, limitField))
      <==> !Clash(req, limitField)
  {
    FieldsOfBody(req, model, limitField);
    MessagesField(req, limitField);
    ToolsField(req, limitField);
    ToolChoiceField(req, limitField);
    TemperatureField(req, limitField);
  }

  /** What the parser reads from the keys the limit field may have overwritten. */
  lemma PartsBack(req: Request)
    ensures var msgs := ToolParents.Normalize({}, req.messages);
      && TakeAll(Transcript(None, []), MessagesJson(req.system, msgs)) == Transcript(req.system, TidyAll(msgs))
      && ParseTools(Some(Arr(ToolsJson(req.tools)))) == SanitizedAll(req.tools)
      && ParseToolChoice(Some(ToolChoiceJson(req.toolChoice))) == req.toolChoice
      && ParseTools(None) == [] && (req.tools == [] <==> SanitizedAll(req.tools) == [])
      && (msgs == [] <==> TidyAll(msgs) == [])
  {
    TranscriptBack(req.system, ToolParents.Normalize({}, req.messages));
    ToolsBack(req.tools);
    ToolChoiceBack(req.toolChoice);
  }

  /** An upstream that reads the rest of the body, by key. */
  function EffortRead(v: Option<Value>): Option<ReasoningEffort> {
    match AsStr(v)
    case None => None
    case Some(s) =>
      if s == "minimal" then Some(Minimal) else if s == "low" then Some(Low) else if s == "medium" then Some(Medium)
      else if s == "high" then Some(High) else if s == "xhigh" then Some(XHigh) else None
  }

  lemma EffortBack(e: ReasoningEffort)
    ensures EffortRead(Some(Str(EffortName(e)))) == Some(e)
  {
    assert "low"[0] != "high"[0] && "minimal"[1] == 'i' && "xhigh"[0] == 'x';
  }

  /** What our own parser does not read arrives as well, unless the limit field overwrites
      it: the sampling parameter, the reasoning effort (set later, so never overwritten),
      the limit itself under its own name, and the wish for usage at the end of a stream. */
  lemma UpstreamReads(req: Request, model: string, limitField: string)
    ensures var body := Obj(Body(req, model, limitField));
      && (limitField != "top_p" || req.maxOutputTokens.None? ==> AsF64(body.Get("top_p")) == req.topP)
      && (limitField != "reasoning_effort" || req.maxOutputTokens.None? || req.reasoningEffort.Some? ==>
           EffortRead(body.Get("reasoning_effort")) == req.reasoningEffort)
      && (limitField != "stream_options" || req.maxOutputTokens.None? || req.stream ==>
           AsBool(Field(body.Get("stream_options"), "include_usage")) == if req.stream then Some(true) else None)
  {
    var early, limit := EarlyBody(req, model), LimitJson(req);
    var limited := Put(early, limitField, limit);
    var body := Obj(Body(req, model, limitField));
    RestLookup(req, model);
    RestOfLate(limited, req);
    PutLookup(early, limitField, limit, "top_p");
    PutLookup(early, limitField, limit, "reasoning_effort");
    PutLookup(early, limitField, limit, "stream_options");
    assert forall q :: body.Get(q) == Lookup(Body(req, model, limitField), q);
    if req.reasoningEffort.Some? { EffortBack(req.reasoningEffort.value); }
  }

  /** The provider's limit field carries the limit, unless a key set later takes its place. */
  lemma LimitArrives(req: Request, model: string, limitField: string)
    requires req.maxOutputTokens.Some?
    requires limitField !in {"reasoning_effort", "parallel_tool_calls", "stream", "stream_options"}
    ensures Obj(Body(req, model, limitField)).Get(limitField) == Some(Int(req.maxOutputTokens.value))
  {
    RestOfLate(Put(EarlyBody(req, model), limitField, LimitJson(req)), req);
  }

  lemma RestLookup(req: Request, model: string)
    ensures var b := EarlyBody(req, model);
      && Lookup(b, "top_p") == (if req.topP.Some? then Some(Float(req.topP.value)) else None)
      && Lookup(b, "reasoning_effort") == None && Lookup(b, "stream_options") == None
  {
    SameLengthKeys();
  }

  lemma RestOfLate(b: map<string, Value>, req: Request)
    ensures var late := LateBody(b, req);
      && (forall q :: q !in {"reasoning_effort", "parallel_tool_calls", "stream", "stream_options"} ==>
           Lookup(late, q) == Lookup(b, q))
      && Lookup(late, "reasoning_effort") ==
           (if req.reasoningEffort.Some? then Some(Str(EffortName(req.reasoningEffort.value)))
            else Lookup(b, "reasoning_effort"))
      && Lookup(late, "stream_options") ==
           if req.stream then Some(Obj(map["include_usage" := Bool(true)])) else Lookup(b, "stream_options")
  {
  }

  /** Print a request and parse what was printed. */
  method PrintAndParse(req: Request, model: string, limitField: string)
    returns (back: Result<Request, Errors.BridgeError>)
    ensures back == Ok(Expected(req, model, limitField)) <==> !Clash(req, limitField)
  {
    var body := BuildRequest(req, model, limitField);
    back := ParseRequest(body);
    RoundTripExactly(req, model, limitField);
  }

  /** With a limit stored under `model`, the printed request cannot be read back. */
  lemma LimitUnderModel(req: Request, model: string)
    requires req.maxOutputTokens.Some?
    ensures ParseSpec(Obj(Body(req, model, "model"))) == Err(Errors.BadRequest("missing `model`"))
  {
    FieldsOfBody(req, model, "model");
  }
}
