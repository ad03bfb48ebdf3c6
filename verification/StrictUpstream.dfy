/** What a strict Chat Completions upstream accepts, key by key, and that every printed
    request is accepted. */
module StrictUpstream {
  import opened Wrappers
  import opened Json
  import opened Canonical
  import opened Schema
  import opened ChatRequest
  import CT = ChatRoundTrip
  import ToolParents

  predicate IsText(v: Option<Value>) {
    v.Some? && v.value.Str?
  }

  predicate IsFunction(v: Value) {
    v.Get("type") == Some(Str("function")) && IsText(Field(v.Get("function"), "name"))
  }

  predicate IsCall(v: Value) {
    IsFunction(v) && IsText(v.Get("id")) && IsText(Field(v.Get("function"), "arguments"))
  }

  predicate AreCalls(v: Value) {
    v.Arr? && v.items != [] && forall k :: 0 <= k < |v.items| ==> IsCall(v.items[k])
  }

  /** A text, or for an assistant an explicit null; calls only if there are some. */
  predicate IsMessage(v: Value) {
    match v.Get("role")
    case Some(Str(role)) =>
      if role == "assistant" then
        && (IsText(v.Get("content")) || v.Get("content") == Some(Null))
        && (v.Get("reasoning_content").None? || IsText(v.Get("reasoning_content")))
        && (v.Get("tool_calls").None? || AreCalls(v.Get("tool_calls").value))
      else if role == "tool" then IsText(v.Get("tool_call_id")) && IsText(v.Get("content"))
      else (role == "user" || role == "system") && IsText(v.Get("content"))
    case _ => false
  }

  predicate IsTool(v: Value) {
    && IsFunction(v) && Field(v.Get("function"), "parameters").Some?
    && Acceptable(Field(v.Get("function"), "parameters").value)
  }

  predicate IsToolChoice(v: Value) {
    match v
    case Str(s) => s == "auto" || s == "none" || s == "required"
    case Obj(_) => IsFunction(v)
    case _ => false
  }

  predicate AllMessages(vs: seq<Value>) {
    forall k :: 0 <= k < |vs| ==> IsMessage(vs[k])
  }

  predicate AllTools(vs: seq<Value>) {
    forall k :: 0 <= k < |vs| ==> IsTool(vs[k])
  }

  predicate AreTools(v: Value) {
    v.Arr? && v.items != [] && AllTools(v.items)
  }

  /** Tools and the tool choice come together. */
  predicate IsBody(v: Value) {
    && IsText(v.Get("model"))
    && v.Get("messages").Some? && v.Get("messages").value.Arr? && AllMessages(v.Get("messages").value.items)
    && (v.Get("tools").Some? <==> v.Get("tool_choice").Some?)
    && (v.Get("tools").Some? ==> AreTools(v.Get("tools").value) && IsToolChoice(v.Get("tool_choice").value))
  }

  lemma CallAccepted(tc: ToolCall)
    ensures IsCall(CallJson(tc))
  {
    CT.SameLengthKeys();
    var v := CallJson(tc);
    assert v.Get("type") == Some(Str("function")) && v.Get("id") == Some(Str(tc.callId));
    assert Field(v.Get("function"), "name") == Some(Str(tc.name));
    assert Field(v.Get("function"), "arguments") == Some(Str(tc.arguments));
  }

  lemma CallsAccepted(calls: seq<ToolCall>)
    requires calls != []
    ensures AreCalls(Arr(CallsJson(calls)))
  {
    forall k | 0 <= k < |calls| ensures IsCall(CallsJson(calls)[k]) { CallAccepted(calls[k]); }
  }

  lemma MessageAccepted(m: Message)
    ensures IsMessage(MessageJson(m))
  {
    match m
    case User(text) => PlainAccepted("user", text);
    case Assistant(text, reasoning, calls) =>
      CT.AssistantFields(text, reasoning, calls);
      if calls != [] { CallsAccepted(calls); }
    case Tool(callId, output) =>
      var v := MessageJson(m);
      assert v.Get("role") == Some(Str("tool")) && v.Get("content") == Some(Str(output));
      assert v.Get("tool_call_id") == Some(Str(callId));
  }

  lemma PlainAccepted(role: string, text: string)
    requires role == "user" || role == "system"
    ensures IsMessage(Obj(map["role" := Str(role), "content" := Str(text)]))
  {
    var v := Obj(map["role" := Str(role), "content" := Str(text)]);
    assert v.Get("role") == Some(Str(role)) && v.Get("content") == Some(Str(text));
    assert "user"[0] != "tool"[0];
  }

  lemma MessagesAccepted(system: Option<string>, msgs: seq<Message>)
    ensures AllMessages(MessagesJson(system, msgs))
  {
    var vs, n := MessagesJson(system, msgs), if system.Some? then 1 else 0;
    forall k | 0 <= k < |vs| ensures IsMessage(vs[k]) {
      if k < n { PlainAccepted("system", system.value); }
      else { assert vs[k] == MessageJson(msgs[k - n]); MessageAccepted(msgs[k - n]); }
    }
  }

  lemma ToolAccepted(t: ToolDef)
    ensures IsTool(ToolJson(t))
  {
    CT.SameLengthKeys();
    var v := ToolJson(t);
    assert v.Get("type") == Some(Str("function")) && Field(v.Get("function"), "name") == Some(Str(t.name));
    assert Field(v.Get("function"), "parameters") == Some(SanitizeParameters(t.parameters));
    ParametersAcceptable(t.parameters);
  }

  lemma ToolsAccepted(tools: seq<ToolDef>)
    ensures AllTools(ToolsJson(tools))
  {
    forall k | 0 <= k < |tools| ensures IsTool(ToolsJson(tools)[k]) { ToolAccepted(tools[k]); }
  }

  lemma ToolChoiceAccepted(tc: ToolChoice)
    ensures IsToolChoice(ToolChoiceJson(tc))
  {
    if tc.Function? {
      var v := ToolChoiceJson(tc);
      assert v.Get("type") == Some(Str("function")) && Field(v.Get("function"), "name") == Some(Str(tc.name));
    }
  }

  /** Every printed request is accepted, whatever its messages, tools and parameters, unless
      the provider's limit field overwrites one of the keys that are looked at. */
  lemma BodyAccepted(req: Request, model: string, limitField: string)
    requires limitField !in {"model", "messages", "tools", "tool_choice"} || req.maxOutputTokens.None?
    ensures IsBody(Obj(Body(req, model, limitField)))
  {
    var b, msgs := Body(req, model, limitField), ToolParents.Normalize({}, req.messages);
    CT.EarlyLookup(req, model);
    CT.BodyLookup(req, model, limitField, "model");
    CT.BodyLookup(req, model, limitField, "messages");
    CT.BodyLookup(req, model, limitField, "tools");
    CT.BodyLookup(req, model, limitField, "tool_choice");
    assert forall q :: Obj(b).Get(q) == CT.Lookup(b, q);
    MessagesAccepted(req.system, msgs);
    ToolsAccepted(req.tools);
    ToolChoiceAccepted(req.toolChoice);
  }

  // ----- what the parser takes for granted -----

  /** A developer message is a system text, any other unknown role the user's, as is none;
      of several system texts the last one stays. */
  lemma MessageDefaults(role: string, a: string, b: string)
    requires role !in {"system", "developer", "assistant", "tool"}
    ensures ParseMessage(Obj(map["role" := Str("developer"), "content" := Str(a)])) == SystemText(a)
    ensures ParseMessage(Obj(map["role" := Str(role), "content" := Str(a)])) == Turn(User(a))
    ensures ParseMessage(Obj(map["content" := Str(a)])) == Turn(User(a))
    ensures Take(Take(Transcript(None, []), SystemText(a)), SystemText(b)) == Transcript(Some(b), [])
  {
    assert "user"[0] != "tool"[0];
    var v := Obj(map["role" := Str("developer"), "content" := Str(a)]);
    var u := Obj(map["role" := Str(role), "content" := Str(a)]);
    assert v.Get("role") == Some(Str("developer")) && v.Get("content") == Some(Str(a));
    assert u.Get("role") == Some(Str(role)) && u.Get("content") == Some(Str(a));
  }
}
