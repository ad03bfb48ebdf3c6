/** Provider-neutral requests and streaming events. */
module Canonical {
  import opened Wrappers
  import Json

  datatype ToolCall = ToolCall(callId: string, name: string, arguments: string)

  datatype Message =
    | User(content: string)
    | Assistant(text: Option<string>, reasoning: Option<string>, toolCalls: seq<ToolCall>)
    | Tool(callId: string, output: string)

  datatype ToolDef = ToolDef(name: string, description: Option<string>, parameters: Json.Value)

  datatype ToolChoice = Auto | NoTools | Required | Function(name: string)

  datatype ReasoningEffort = Minimal | Low | Medium | High | XHigh

  type U32 = n: nat | n < Json.U32_RANGE

  datatype Request = Request(
    model: string,
    system: Option<string>,
    messages: seq<Message>,
    tools: seq<ToolDef>,
    toolChoice: ToolChoice,
    temperature: Option<real>,
    topP: Option<real>,
    maxOutputTokens: Option<U32>,
    reasoningEffort: Option<ReasoningEffort>,
    parallelToolCalls: Option<bool>,
    stream: bool
  )

  datatype Usage = Usage(input: nat, output: nat, total: nat, cached: nat, reasoning: nat)

  datatype Event =
    | Created(responseId: string, model: string)
    | ReasoningDelta(text: string)
    | TextDelta(text: string)
    | ToolCallStart(index: nat, callId: string, name: string)
    | ToolCallArgsDelta(index: nat, delta: string)
    | ToolCallDone(index: nat)
    | UsageReport(usage: Usage)
    | Completed
    | Error(message: string, status: nat)
  {
    predicate IsTerminal() { Completed? || Error? }
  }
}
