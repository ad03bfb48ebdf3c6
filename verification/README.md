# Verification model of the AI API bridge

The bridge presents two client dialects (the OpenAI Responses API and the Anthropic Messages
API) over upstreams that speak OpenAI Chat Completions. This project models its four hard cores
and proves what they promise:

- **Streaming translation.** Upstream bytes go through the event-stream decoder, the chunk
  parser, the canonical events and one of the two emitters, driven by the `run_stream` loop
  (`Utf8`, `Sse`, `SseRoundTrip`, `SseForms`, `UpstreamJson`, `ChatStream`, `ChatStreamFacts`,
  `Blocks`, `Lifecycle`, `BlockLifecycle`, `BlockContent`, `DoneText`, `BlockReading`, `CallRuns`,
  `Responses`, `ResponsesFacts`, `ResponsesGrammar`, `Anthropic`, `AnthropicFacts`,
  `AnthropicStop`, `AnthropicClient`, `Pipeline`, `PipelineFacts`, `Assembly`, `MessageMeta`,
  `Agreement`, `Arrival`, `ClientContent`, `EndToEnd`, `Delivered`, `FromPayloads`).
- **Request translation.** Tool-parent repair, schema repair, the Chat Completions printer and
  parser, the message readers of both client dialects, and what becomes of a reply that the
  client sends back (`ToolParents`, `Schema`, `ChatRequest`, `ChatRoundTrip`, `StrictUpstream`,
  `ResponsesInput`, `AnthropicInput`, `EchoBack`, `Conversations`).
- **Usage metering.** Rolling windows over a pruned log that is rebuilt on restart, and what each
  handler charges (`Usage`, `UsageHistory`, `UsageReset`, `Charging`, `RequestCharges`).
- **Routing and failover.** Candidate order and the shared status map over whole runs
  (`Router`, `RouterOrder`, `Failover`).

`Json`, `Canonical`, `Errors`, `Ordered`, `Reorder` and `Wrappers` hold shared types. `dafny verify
dfyconfig.toml` checks everything.

## How it fits together

Objects that the source updates in place are classes with the same fields
(`SseDecoder`, `ChatStreamParser`, `ResponsesEmitter`, `AnthropicEmitter`, `InputParser`,
`UsageMeter`, `Gateway`, and `StreamRun` for the local variables of `run_stream`). Each method is
proved to do what a function of the old state says, and the laws are lemmas about those functions.

`Blocks` is a dialect-independent machine that opens, extends and closes numbered blocks. Both
emitter classes are proved to be renderings of it, step by step, so a law of the machine holds of
both dialects. `Lifecycle` follows open and closed blocks through a frame sequence with a ledger
and proves the ledger equivalent to the positional statement ("one start, one later stop,
everything else strictly between").

`BlockReading` is the other side: a reader who only sees the frames puts every block together
from its start, deltas and stop, and `AnthropicClient` does so with the Anthropic frames as sent.
What a client ends up with is compared with the finished message block by block.

What goes in and what comes out is written down independently of the code that reads and writes
it. `UpstreamJson` writes an upstream's chunks, completions and errors with their keys spelled out
and proves that they are read back as written; `SseForms` writes event streams in every form;
`Delivered` spells out the response object and the message that a client must get for a reply; and
`FromPayloads` joins them: a reply in JSON chunks, in an event stream, in any byte chunks, comes
out as that reply. `Conversations` does the same for the requests that clients send,
`RouterOrder` for the candidate order that a configuration gives, and `Charging` for the money.

Some naive statements are false of the code. Each is kept as the code has it, with a run where it
fails and the exact condition under which it holds:

- A finished item's text is every delta of its kind so far, because the text buffers are never
  cleared (`src/wire/responses.rs:322-324`, `src/wire/anthropic.rs:311-313`). On a run ending in
  `Completed` every finished part repeats exactly its own block's deltas if and only if the
  channel never goes on after a tool call (for reasoning also: after text) that followed
  something it had said (`DoneText.DoneTextIsOwnExactly`); under the same condition the Anthropic
  client's blocks are the finished ones (`AnthropicClient.ClientReadsExactly`). Text, a call and
  text again break it (`DoneText.SecondTextRepeatsFirst`).
- An Anthropic client lists a streamed message's calls in the order their first fragments arrive,
  the whole message lists them by index. The blocks are always the same ones; with distinct call
  ids the order is the same if and only if first fragments arrive in ascending index order
  (`EndToEnd.StreamDeliversContent`; two swapped calls are `ClientContent.SwappedFragments`).
- An emitter alone does not keep its blocks bracketed: a second start on a still-open index
  overwrites the open block (`AnthropicFacts.RestartedCallStaysOpen`). Bracketing holds if and
  only if that never happens (`ResponsesFacts.ItemLifecycle`,
  `AnthropicFacts.BlockLifecycleExact`), and the parser's set of started indices rules it out on
  every upstream, with or without cost tracking (`PipelineFacts.CompletedRunsAreBracketed`).
- The comment at `src/server.rs:398-400` says that nothing is yielded after `[DONE]` while cost
  tracking drains the upstream. The code still emits for a second `[DONE]` and for a transport
  error (`PipelineFacts.TrackingSendsMore`). Tracking is invisible if and only if neither follows
  the first `[DONE]` (`PipelineFacts.TrackingIsInvisible`). A repeated `[DONE]` delivers the whole
  response again; a late transport error takes its place as the last frame
  (`EndToEnd.StreamEndsWithWholeResponse`).
- `message_start` is sent if and only if some event announces the message
  (`AnthropicFacts.MessageStartOnce`): a stream of nothing but `[DONE]` completes without it
  (`PipelineFacts.DoneAlone`).
- Tool-parent repair is idempotent if and only if no tool message has an empty call id
  (`ToolParents.IdempotentExactly`, `ToolParents.EmptyIdRepairedAgain`).
- Eviction from the in-memory log is invisible if and only if the window is at most 31 days and
  one second long (`UsageHistory.EvictionSoundExactly`). The reset time is a promise under the
  same condition (`UsageReset.HoldsExactly`); an exhausted window can recover early if and only
  if it is longer and its limit is positive (`UsageReset.NeverRecoversExactly`).
- A stream that fails or ends before its first content chunk tells a Responses client so under an
  empty id: `response.failed` and `response.completed` carry the id of the `response.created`
  before them, if there was one (`ResponsesGrammar.OneResponseId`,
  `ResponsesGrammar.FailsWithoutId`).
- A null under `reasoning_content` hides a text under `reasoning`
  (`UpstreamJson.NullHidesReasoning`).
- A reply sent back as Responses input is read as one assistant message if and only if it has a
  text or no calls, or does not follow an assistant message, whose turn its calls would join
  (`EchoBack.ReplyReadExactly`). A reply of nothing but reasoning adds no message there, while the
  Anthropic reader keeps it with an empty text.
- A call's arguments come back from an Anthropic client unchanged if and only if they are already
  in the JSON printer's form, since the client is sent the parsed value
  (`EchoBack.WholeMessageEchoes`).
- An Anthropic user turn is read in the order it was written if and only if no tool result stands
  behind a text (`AnthropicInput.TurnAsWrittenExactly`), and an assistant turn keeps all its
  thinking if and only if at most one thinking block is not empty
  (`AnthropicInput.ThoughtsKeptExactly`).
- A payload survives the event stream if and only if it is not empty, does not start with a line
  break (`SseRoundTrip.LeadingBreakIsLost`), has no line ending in a carriage return and does not
  trim to `[DONE]` (`SseRoundTrip.StreamRoundTrip`). Sections 9.2.5 and 9.2.6 of the WHATWG HTML
  Living Standard also treat a lone carriage return as a line end and keep an empty first data
  line; the code does neither.
- A printed request reads back as expected if and only if the provider's token-limit field does
  not overwrite a key the parser needs (`ChatRoundTrip.RoundTripExactly`); under `model` it makes
  the request unreadable (`ChatRoundTrip.LimitUnderModel`).

## Model

| member | source | states |
|---|---|---|
| EndToEnd.StreamEndsWithWholeResponse | src/server.rs:394-466 | for every cutting of a message into chunks, the last frame of the Responses stream carries the object that the non-streaming handler returns for the whole message, up to generated ids, if and only if no tracked late transport error follows the end marker; a repeated `[DONE]` does no harm |
| EndToEnd.StreamEndsAsWholeMessage | src/server.rs:394-466 | the Anthropic stream ends with the stop reason and usage of the whole message, if and only if no tracked late transport error follows the end marker |
| EndToEnd.StreamDeliversContent | src/wire/anthropic.rs:288-402 | the content an Anthropic client puts together from the frames is the whole message's content, every block stopped, up to the order of calls; in the same order if first fragments arrive in ascending index order, and with distinct call ids only then |
| EndToEnd.StreamResponse | src/server.rs:331-342 | from the upstream's byte chunks: the frames of a Responses stream, which end with the whole response whenever the bytes carry a message, however they are chunked |
| EndToEnd.StreamMessage | src/server.rs:655-667 | from the upstream's byte chunks: the frames of an Anthropic stream, whose blocks add up to the whole message whenever the bytes carry one |
| EndToEnd.WholeResponse | src/server.rs:349-358 | the non-streaming handler runs every event of the completion through a new Responses emitter and returns its final object |
| EndToEnd.WholeMessage | src/server.rs:674-683 | the same for Anthropic |
| Delivered.AnswerResponse | src/server.rs:344-358 | the non-streaming handler returns for a completion in JSON the response object spelled out: id, status, model, usage or zeros, and reasoning, text and calls in order |
| Delivered.AnswerMessage | src/server.rs:668-684 | and the Anthropic handler the message spelled out: thinking with its signature, text, calls with their parsed arguments or an empty object, `tool_use` exactly if there are calls, cached input counted apart |
| Delivered.ResponseIsReply | src/wire/responses.rs:294-567 | of whatever is heard that cuts a reply, the stream announces id and model first and ends with the response spelled out, if and only if no tracked late error comes |
| Delivered.MessageIsReply | src/wire/anthropic.rs:288-435 | the Anthropic stream announces id and model first, the client's blocks are the reply's (in order exactly if first fragments ascend, where call ids are distinct), and stop reason and counts are the reply's if and only if no late error comes |
| Delivered.ErrorsAreDelivered | src/server.rs:426-457 | an error chunk, or a transport error before the end marker, is the last frame of both dialects, with its message and status |
| FromPayloads.PayloadsAreHeard | src/sse.rs:20-75 | JSON texts in an event stream of any form, followed by `[DONE]`, cut into any byte chunks, are heard as exactly those chunks, in order, and then the end marker |
| FromPayloads.PlainlyCarried | src/sse.rs:55-75 | in particular texts that survive, each written plainly |
| FromPayloads.ReplyOverResponses | src/server.rs:331-466 | from bytes to client: if they carry a reply cut into JSON chunks, in any style, any form and any byte chunks, the Responses stream opens with `response.created` and ends with an object of that id and model, status `completed`, the reply's usage, and its reasoning, text and calls in order, if and only if no tracked transport error follows |
| FromPayloads.ReplyOverMessages | src/server.rs:655-667 | and the Anthropic client is sent the id and model first, blocks that add up to the reply, all stopped, in order if the calls start in ascending order, and its stop reason and counts last under the same condition |
| Agreement.StreamingAgrees | src/wire/chat.rs:386-574 | for every cutting of a message into reasoning, then text, then interleaved tool fragments under any indices, with or without a finish chunk, streaming and non-streaming give the same identity, model, usage and content |
| Agreement.OneChunkCuts | src/wire/chat.rs:386-495 | every message has a cutting: sent whole in one chunk with its calls numbered |
| Agreement.StreamedParts | src/wire/chat.rs:421-486 | the content reached by any such stream is the reasoning, the text and the calls in index order, each call with the id and name of its first fragment and its joined arguments |
| Agreement.WholeParts | src/wire/chat.rs:512-572 | the content of the whole message is the same list |
| Agreement.StreamedPlaces | src/wire/anthropic.rs:467-549 | on any such stream block k holds the k-th of: the reasoning, the text, and the calls in the order their first fragments arrived |
| ClientContent.ClientReadsPlaces | src/wire/anthropic.rs:288-402 | and that is what the client reads, in that order |
| ClientContent.OrderExactly | src/wire/chat.rs:440-486 | arrival order and index order render alike if first fragments arrive in ascending index order, and with distinct call ids only then |
| ClientContent.SwappedFragments | src/wire/chat.rs:440-486 | a stream whose second call arrives first: the client lists the calls the other way round |
| ResponsesFacts.SameResponse | src/wire/responses.rs:558-567 | the final Responses objects of the two paths are equal up to generated ids |
| AnthropicFacts.SameMessage | src/wire/anthropic.rs:417-435 | the final Anthropic messages of the two paths are equal |
| Pipeline.ChunkingIndependent | src/server.rs:406-466 | the events sent to the emitter, and the tallied cost and tokens, depend only on the joined upstream bytes and on how the stream ends, tracking on or off |
| Pipeline.StreamRun.Run | src/server.rs:394-471 | the frames sent over a whole upstream are those of the events determined by the joined bytes and the ending; the tally likewise |
| Pipeline.StreamRun.TakeItem | src/server.rs:411-448 | one decoded item: noise is skipped, the end marker completes the run and stops or starts draining, a JSON chunk is parsed and emitted unless draining |
| Pipeline.StreamRun.Note | src/server.rs:414-422 | a figure of the chunk replaces the earlier one if present |
| Pipeline.EmitEvents | src/server.rs:426-435 | a chunk's events are emitted in order; the run fails exactly if the last one is an error |
| PipelineFacts.OneTerminalLast | src/server.rs:431-466 | with tracking off every run sends exactly one terminal event, and it is the last |
| PipelineFacts.TrackingOff | src/server.rs:407-466 | with tracking off the events are the parser's over the ordinary chunks and then one terminal event |
| PipelineFacts.TrackingIsInvisible | src/server.rs:398-457 | tracking leaves the client frames alone if and only if no `[DONE]` and no transport error follows the first `[DONE]` |
| PipelineFacts.TrackingSendsMore | src/server.rs:437-457 | a second `[DONE]` and a late transport error are passed on when costs are tracked, and only then |
| PipelineFacts.SameBlocks | src/server.rs:398-457 | whatever tracking adds, the blocks and the finished content are the same |
| PipelineFacts.DoneAlone | src/wire/anthropic.rs:382-402 | a stream of nothing but `[DONE]` sends the two closing frames and no `message_start` |
| PipelineFacts.CompletedRunsAreBracketed | src/wire/chat.rs:440-486 | on every upstream whose run completes, tracking on or off, the frames of both dialects are well bracketed |
| PipelineFacts.TextReachesClient | src/server.rs:411-436 | text and reasoning deltas that the client reads join to the upstream fragments, in both dialects, tracking on or off |
| PipelineFacts.ArgumentsReachClient | src/wire/chat.rs:440-486 | tracking on or off, the argument deltas of a call reach the client in one block, opened with the call's id and name, and join to the upstream fragments up to the call's first finish chunk; on a completed run the finished content holds the call with them |
| ChatStream.ChatStreamParser.constructor | src/wire/chat.rs:379-384 | a new parser has announced nothing and started no call |
| ChatStream.ChatStreamParser.OnChunk | src/wire/chat.rs:386-495 | the events of a chunk: an error alone, or the announcement once, reasoning, text, tool starts and fragments, ends in ascending index order, usage; which keys say what is `UpstreamJson.ChunkBack` |
| ChatStream.ChatStreamParser.TakeEntries | src/wire/chat.rs:441-474 | each fragment starts its call if the index is new and carries its non-empty arguments |
| ChatStream.CompletionToEvents | src/wire/chat.rs:499-574 | the events of a whole completion, each call started, given its arguments and ended |
| UpstreamJson.ChunkBack | src/wire/chat.rs:386-495 | a chunk written under the keys of Chat Completions, with or without empty texts, nulls, the short reasoning key or cache-hit counts, is read as what it says, indices and counts cut to 32 bits |
| UpstreamJson.CompletionBack | src/wire/chat.rs:498-574 | a completion so written is read as the reply it says |
| UpstreamJson.ErrorBack | src/wire/chat.rs:387-402 | an error object is read as its message and its code cut to 16 bits, or their defaults |
| UpstreamJson.NullHidesReasoning | src/wire/chat.rs:422-425 | a null under the long reasoning key hides a text under the short one |
| ChatStreamFacts.FeedStartsOnce | src/wire/chat.rs:443-455 | over any chunks the parser never starts an index twice |
| ChatStreamFacts.StartsOnceNeverReopens | src/wire/chat.rs:443-485 | events that start each index once never reopen a call, however often ends repeat |
| ChatStreamFacts.FeedTold | src/wire/chat.rs:421-438 | the parser's text (reasoning) events join to the upstream fragments |
| ChatStreamFacts.FeedArgs | src/wire/chat.rs:440-486 | the argument events of a call, from its start to its first end, join to the upstream fragments up to its first finish chunk |
| CallRuns.CallStreamed | src/wire/responses.rs:335-380 | on a run that starts each index once a call gets one block, whose deltas join to its fragments, and once ended the content holds the whole call |
| BlockLifecycle.RunLedger | src/wire/anthropic.rs:323-402 | after a run ending in `Completed` no frame touched a closed block, and nothing is left open if and only if no call was started while its index was open |
| BlockLifecycle.RunNeverBreaks | src/wire/anthropic.rs:288-402 | at any moment of any run starts are numbered without gaps and deltas and stops only name open blocks |
| BlockContent.RunMoves | src/wire/responses.rs:308-333 | the deltas of a run join to what its events carried, every finished reasoning or text part holds all deltas of its kind so far, and the content is the closed parts in closing order |
| BlockContent.CallConserved | src/wire/responses.rs:364-380 | an open call's deltas join to the fragments up to its first end, later fragments are dropped, and it is finished with exactly what was streamed |
| DoneText.DoneTextIsOwnExactly | src/wire/responses.rs:495-523 | on a run ending in `Completed` every finished reasoning (text) part repeats exactly its own block's deltas if and only if no delta of that kind comes after a tool call (for reasoning also: after text) that comes after a non-empty delta of that kind |
| DoneText.SecondTextRepeatsFirst | src/wire/anthropic.rs:522-531 | a run whose second text block is streamed "b" and finishes as "ab" |
| BlockReading.RunReads | src/wire/anthropic.rs:288-402 | on every run each start, delta and stop makes sense to a reader of the frames, who has every open block as the emitter has it |
| DoneText.ReaderAgreesExactly | src/wire/anthropic.rs:467-549 | what was read equals what was finished, block by block, if and only if neither reasoning nor text goes on after its block ended; calls always agree |
| Lifecycle.LedgerDecides | src/wire/anthropic.rs:467-549 | a standing ledger with nothing open means that exactly the blocks 0..n-1 appear, each with one start, one later stop and all else strictly between; one with an open block means they do not, for any n |
| Lifecycle.EndsArePermutation | src/wire/responses.rs:396-399 | the stops, in closing order, are a permutation of the opened blocks |
| Responses.ResponsesEmitter.constructor | src/wire/responses.rs:290-292 | a new emitter is in the initial state with sequence number 0 |
| Responses.ResponsesEmitter.OnEvent | src/wire/responses.rs:294-426 | the emitter's fields follow the content machine and its frames are the numbered rendering of the machine's marks, for every event |
| Responses.ResponsesEmitter.CompletedResponse | src/wire/responses.rs:558-567 | the final object lists the finished items in closing order, with zero usage if none was reported; for a reply it is spelled out by `Delivered.AnswerResponse` and `Delivered.ResponseIsReply` |
| Responses.ResponsesEmitter.CloseOpenTools | src/wire/responses.rs:546-551 | calls still open are finished in index order |
| Responses.ResponsesEmitter.Stamp | src/wire/responses.rs:419-424 | each frame gets the next sequence number |
| ResponsesFacts.SequenceNumbers | src/wire/responses.rs:419-424 | frame k of a whole run carries sequence number k |
| ResponsesFacts.ItemLifecycle | src/wire/responses.rs:294-426 | on a run ending in `Completed` each output index has one added and one done frame around all else about it and the done frames are a permutation of the added ones, if and only if no call was started while its index was open |
| ResponsesFacts.RunReports | src/wire/responses.rs:294-426 | a reader of the frames recovers the machine's marks exactly |
| ResponsesFacts.TextConserved | src/wire/responses.rs:308-333 | delta frames join to the events' texts, every done item reports all deltas of its kind before it, and the final output is the done items in order |
| ResponsesGrammar.FramesNameTheirItems | src/wire/responses.rs:440-544 | on every run each delta and done frame carries the id and output index of an item that an earlier frame added |
| ResponsesGrammar.RunGrammatical | src/wire/responses.rs:440-544 | items are added empty and in progress, a message with its empty part; a message ends with its text done, its part done and its item done, all three with one text; a call with its arguments done and its item done |
| ResponsesGrammar.OneResponseId | src/wire/responses.rs:294-417 | over a whole stream, tracked or not, every failure and completion carries the id and model of the one announcement before it, and empty ones if there was none |
| ResponsesGrammar.FailsWithoutId | src/wire/responses.rs:409-417 | an upstream that fails at once is reported under an empty id |
| Anthropic.AnthropicEmitter.constructor | src/wire/anthropic.rs:284-286 | a new emitter is in the initial state and has not announced the message |
| Anthropic.AnthropicEmitter.OnEvent | src/wire/anthropic.rs:288-414 | the emitter's fields follow the content machine and its frames are the announcement if due, the rendering of the machine's marks, and the closing frames |
| Anthropic.AnthropicEmitter.FinalMessage | src/wire/anthropic.rs:417-435 | the final message lists the finished blocks, with stop reason `tool_use` if any call was started; when that is, is `AnthropicStop.FinalStopExactly` |
| Anthropic.AnthropicEmitter.CloseOpenTools | src/wire/anthropic.rs:544-549 | calls still open are finished in index order |
| Anthropic.CountsOf | src/wire/anthropic.rs:441-446 | output and cached tokens are passed on; uncached and cached input tokens add up to the larger of the input and the cached count |
| AnthropicFacts.BlockLifecycleExact | src/wire/anthropic.rs:288-402 | on a run ending in `Completed` the block indices are exactly those below the next one, each with one start, one later stop and every delta strictly between, if and only if no call was started while its index was open |
| AnthropicFacts.RestartedCallStaysOpen | src/wire/anthropic.rs:340 | two starts on one index leave a block that is never stopped |
| AnthropicClient.ClientReadsExactly | src/wire/anthropic.rs:288-435 | the blocks a client assembles from the frames by index are all stopped, and the finished message lists the same blocks, each once, in closing order, if and only if neither reasoning nor text goes on after its block ended |
| AnthropicFacts.MessageStartOnce | src/wire/anthropic.rs:448-465 | `message_start` comes exactly when some event announces the message, at most once, and before every block frame |
| AnthropicFacts.MessageStartExactly | src/wire/anthropic.rs:288-340 | the announcing events are the creation, reasoning, text and the start of a call |
| AnthropicStop.StopReasonExactly | src/wire/anthropic.rs:382-402 | on every run a `message_delta` says `tool_use` if a frame before it started a tool block, and `end_turn` if none did |
| AnthropicStop.FinalStopExactly | src/wire/anthropic.rs:417-435 | on every completed run the final message says `tool_use` if its content lists a tool block, and `end_turn` if it lists none, even where an index was restarted |
| AnthropicFacts.RunReports | src/wire/anthropic.rs:296-361 | a reader of the frames recovers every delta in order |
| AnthropicFacts.TextConserved | src/wire/anthropic.rs:296-322 | delta frames join to the events' texts |
| AnthropicFacts.ContentIsWhatWasSaid | src/wire/anthropic.rs:488-542 | the finished content is the closed blocks in closing order, each thinking or text block with all deltas of its kind so far |
| Sse.SseDecoder.Push | src/sse.rs:20-31 | a push yields the items of the leftover plus the chunk, leaves what remains, and afterwards no complete separator is buffered |
| Sse.FindSeparator | src/sse.rs:36-53 | finds the leftmost separator and its length, or there is none |
| Sse.ParseEventBlock | src/sse.rs:55-75 | the data lines of a block joined by line feeds; nothing, the end marker, or the data |
| Sse.SeparatorSurvives | src/sse.rs:36-53 | the leftmost separator of a prefix stays leftmost, with its length, under every extension |
| Sse.PushTwice | src/sse.rs:20-31 | pushing `a` then `b` gives the items and the leftover of pushing `a + b` |
| Sse.ChunkingIndependent | src/sse.rs:20-31 | every split of the same bytes gives the same items |
| Sse.EveryChunkingIsSafe | src/sse.rs:3-5 | if the joined bytes are valid UTF-8, every block cut out by any chunking is valid and its lossy decoding exact |
| Sse.BlocksAreValid | src/sse.rs:24-25 | blocks cut from valid bytes, and what remains, are valid and decode exactly |
| Utf8.BadIsMaximal | src/sse.rs:24-25 | one U+FFFD stands for the longest piece that could still have become a scalar, or for a single byte |
| SseRoundTrip.StreamRoundTrip | src/sse.rs:20-75 | payloads written as `data:` lines and fed in any chunking decode to exactly themselves if and only if each meets the stated condition, multi-line ones included |
| SseRoundTrip.PayloadExact | src/sse.rs:55-75 | one payload's block reads back as that payload if and only if it meets the condition |
| SseRoundTrip.LeadingBreakIsLost | src/sse.rs:55-75 | a payload that starts with a line break comes back without it |
| SseForms.FormsRead | src/sse.rs:36-75 | events with either line end, with or without the space after `data:`, with other fields and comments in between, in any mix and any chunking, decode to exactly what their data lines say |
| SseForms.PaddedMarker | src/sse.rs:71-73 | blanks and tabs around the end marker do not matter |
| ToolParents.NormalizeToolParents | src/wire/chat.rs:21-69 | the repaired messages |
| ToolParents.EveryToolHasParent | src/wire/chat.rs:11-20 | in the output every tool message with an id follows an assistant announcing it, and one without an id directly follows its own stand-in |
| ToolParents.DeletingStandInsRestores | src/wire/chat.rs:38-63 | nothing but stand-ins is added, each a call of the function `_` with an empty object and empty reasoning, directly before its tool message, and deleting them gives back the input |
| ToolParents.StandInCount | src/wire/chat.rs:38-58 | one stand-in per distinct orphan id plus one per tool message without an id |
| ToolParents.OrphanIdsMeaning | src/wire/chat.rs:39 | the counted ids are those used by a tool message before anything announces them |
| ToolParents.IdempotentExactly | src/wire/chat.rs:39 | repairing twice is repairing once if and only if every tool message has an id |
| ToolParents.EmptyIdRepairedAgain | src/wire/chat.rs:39 | one tool message without an id gets another stand-in from every repair |
| Schema.ParametersAcceptable | src/wire/chat.rs:161-177 | repaired parameters are an object with a type and no null type at any depth; what is no object becomes the schema of an empty one |
| Schema.UnchangedExactly | src/wire/chat.rs:168-213 | parameters are left alone if and only if they were acceptable |
| Schema.SanitizeTwice | src/wire/chat.rs:168-177 | repairing twice is repairing once |
| Schema.OnlyTypesChange | src/wire/chat.rs:183-213 | only `type` keys change, at every depth, each to what its node's shape suggests |
| ChatRequest.BuildMessages | src/wire/chat.rs:72-112 | the system text, then the repaired messages in order |
| ChatRequest.BuildRequest | src/wire/chat.rs:71-159 | the request body, key by key |
| ChatRequest.ParseRequest | src/wire/chat.rs:217-286 | the parsed request, or the error for a body that is not an object or has no model |
| ChatRoundTrip.RoundTripExactly | src/wire/chat.rs:71-365 | parsing a printed request gives it back, with messages repaired, empty assistant text as none, tools sanitized, tool choice Auto without tools, and the limit kept when the field is `max_tokens`, if and only if the limit field overwrites no key that the parser needs |
| ChatRoundTrip.PrintAndParse | src/wire/chat.rs:71-286 | the printer followed by the parser gives the request back, or not, by the same condition |
| ChatRoundTrip.LimitUnderModel | src/wire/chat.rs:144-146 | a limit stored under `model` makes the printed request unreadable |
| ChatRoundTrip.UpstreamReads | src/wire/chat.rs:138-156 | `top_p`, the reasoning effort and the wish for usage reach the upstream, unless the limit field overwrites them |
| ChatRoundTrip.LimitArrives | src/wire/chat.rs:144-146 | the provider's limit field carries the limit, unless a key set later takes its place |
| StrictUpstream.BodyAccepted | src/wire/chat.rs:71-177 | every printed body passes a strict upstream's key-by-key demands on messages, calls, tools, parameters and tool choice, unless the limit field overwrites one of the keys |
| StrictUpstream.MessageDefaults | src/wire/chat.rs:228-265 | a developer message is a system text, other roles and no role are the user's, and the last system text stays |
| ChatRoundTrip.TranscriptBack | src/wire/chat.rs:74-265 | system text and messages survive printing and parsing |
| ChatRoundTrip.ToolsBack | src/wire/chat.rs:118-310 | tools survive with sanitized parameters |
| ChatRoundTrip.ToolChoiceBack | src/wire/chat.rs:314-365 | every tool choice survives |
| ResponsesInput.TakeText | src/wire/responses.rs:183-197 | a string, or the texts of the parts joined |
| ResponsesInput.InputParser.ParseInputItem | src/wire/responses.rs:78-174 | one input item's effect on messages, system text and waiting reasoning |
| ResponsesInput.InputParser.ParseInput | src/wire/responses.rs:25-42 | a string is one user message, an array is read item by item, anything else is refused |
| ResponsesInput.OrderPreserved | src/wire/responses.rs:78-174 | flattening the messages gives exactly the user texts, assistant texts, calls and outputs of the input, in order |
| ResponsesInput.CallsAreMerged | src/wire/responses.rs:109-136 | no text-less assistant directly follows another assistant |
| ResponsesInput.SystemCollected | src/wire/responses.rs:199-207 | system texts are gathered line by line after the instructions |
| ResponsesInput.BarrierSeparates | src/wire/responses.rs:103-106 | after a user message or a tool output the rest is read as if nothing came before |
| ResponsesInput.ReasoningFromInput | src/wire/responses.rs:26-28 | attached reasoning is never invented, repeated or reordered |
| AnthropicInput.TakeUserBlocks | src/wire/anthropic.rs:105-135 | a user turn's tool results in order, then its texts joined as one message if there are any |
| AnthropicInput.TakeAssistantBlocks | src/wire/anthropic.rs:137-192 | an assistant turn's texts joined, its last thinking text that is not empty and its calls in order; a turn of reasoning alone gets an empty text |
| AnthropicInput.ParseMessage | src/wire/anthropic.rs:103-196 | one entry's messages behind the earlier ones; a string is one message, an unknown role nothing |
| AnthropicInput.ParseMessages | src/wire/anthropic.rs:39-45 | all entries in order, `user` where no role is given |
| AnthropicInput.TurnAsWrittenExactly | src/wire/anthropic.rs:105-135 | a user turn is read in the order it was written if and only if no tool result stands behind a text that is not empty |
| AnthropicInput.ThoughtsKeptExactly | src/wire/anthropic.rs:152-157 | the reasoning is all that was thought if and only if at most one thinking block is not empty |
| EchoBack.ReplyReadExactly | src/wire/responses.rs:78-174 | behind any earlier input, the items of a reply are read as one assistant message with its text, reasoning and calls, if and only if it has a text or no calls, or does not follow an assistant message; reasoning alone waits for the next message |
| EchoBack.StreamedReplyEchoes | src/wire/responses.rs:495-567 | the same of the output items of the response that any cutting of a message ends with |
| Conversations.ConversationReads | src/wire/responses.rs:25-174 | a conversation of user texts, tool outputs and replies, no two replies in a row, in the dialect's JSON, is read as one message a turn, each reply with its own reasoning and calls |
| Conversations.SystemReads | src/wire/responses.rs:90-98 | system and developer items are joined to the system text by line feeds |
| Conversations.ItemDefaults | src/wire/responses.rs:78-174 | no type means a message, no role the user; unknown types and empty reasoning mean nothing |
| Conversations.MessagesRead | src/wire/anthropic.rs:39-223 | the same conversation in Anthropic JSON is read as one message a turn |
| Conversations.BlockDefaults | src/wire/anthropic.rs:158-177 | a call without an input has the arguments of an empty object |
| Conversations.EntryDefaults | src/wire/anthropic.rs:103-196 | an assistant entry without content is an empty message, a user entry without any and other roles are none |
| EchoBack.WholeMessageEchoes | src/wire/anthropic.rs:417-542 | the content of the whole Anthropic message, sent back, is one assistant message with its text and reasoning, and with its calls if and only if their arguments are in printed form |
| EchoBack.StreamedMessageEchoes | src/wire/anthropic.rs:288-402 | the same of what a streaming client puts together, with the calls in order of arrival |
| Usage.UsageMeter.Load | src/usage.rs:55-72 | every log becomes its old events plus the rows of its key, sorted stably by time, unknown kinds skipped |
| Usage.UsageMeter.Record | src/usage.rs:76-90 | a positive amount is added to its key's log and everything older than 31 days leaves that log; other keys and other amounts change nothing |
| Usage.UsageMeter.Windows | src/usage.rs:100-139 | spent, remaining and reset time of each window |
| Usage.UsageMeter.Exhausted | src/usage.rs:143-149 | whether some window of some spec has spent its limit |
| Usage.UsageMeter.ExhaustedSet | src/usage.rs:153-163 | exactly the providers with an exhausted window |
| Usage.NothingRemains | src/usage.rs:143-149 | nothing remains in some window if and only if its limit has been spent |
| Usage.RemainsExactly | src/usage.rs:111-137 | spent and remaining add up to the limit until it is reached |
| Usage.EmptyWindow | src/usage.rs:111-137 | a window with nothing inside has spent nothing and resets after its whole length |
| Usage.SortMeaning | src/usage.rs:67-71 | loading leaves a log in time order with exactly its events |
| UsageHistory.EveryLifeIsSound | src/usage.rs:55-97 | over every interleaving of records, evictions and restarts the log and the store agree with the full history above the horizon |
| UsageHistory.PrunedLogRefinesHistory | src/usage.rs:76-139 | on every such run the pruned log gives the same spent, remaining and reset values as the full history, for windows of at most 31 days and a second |
| UsageHistory.EvictionSoundExactly | src/usage.rs:23-89 | agreement on all runs holds if and only if the window is at most 31 days and a second long |
| UsageHistory.MeteredService.StartAgain | src/main.rs:92-96 | a restart prunes the store and loads what is left into a new meter |
| UsageReset.ResetIsExact | src/usage.rs:119-129 | absent new records, spending stays as it is exactly until the reset time and is lower from then on |
| UsageReset.FallsExactlyAtReset | src/usage.rs:119-129 | on every run, however often the service restarts, a window of at most 31 days and a second whose key is left alone reads its first figure up to the reset time it showed, and a lower one from then on |
| UsageReset.SpentHoldsUntilReset | src/usage.rs:126-129 | whatever is recorded, evicted or reloaded, spending of a window of at most 31 days and a second, read before the reset time, is at least what was read first |
| UsageReset.ExhaustedUntilReset | src/usage.rs:141-149 | an exhausted window of at most 31 days and a second cannot recover before its reset time |
| UsageReset.HoldsExactly | src/usage.rs:88-89 | spending holds until the reset time on every run if and only if the window is at most 31 days and a second |
| UsageReset.NeverRecoversExactly | src/usage.rs:88-89 | an exhausted window never recovers early if and only if it is at most that long or its limit is not positive |
| Charging.RecordAmounts | src/server.rs:75-89 | each metered kind is charged its amount, in order; the amounts are `Charging.MoneyCharged`, `CountCharged` and `TokensCharged` |
| Charging.ChargeCounts | src/usage.rs:166-220 | charging a request raises what any window of at most 31 days and a second counts by exactly the positive amounts due for its kind (by nothing if the window has no length), and touches no other provider |
| Charging.CountCharged | src/usage.rs:166-182 | a request counts as one |
| Charging.TokensCharged | src/usage.rs:166-182 | tokens count as prompt and completion together |
| Charging.MoneyCharged | src/usage.rs:208-220 | money is the upstream's cost if positive, else the price per million tokens, else nothing |
| Charging.ZeroCostIsEstimated | src/usage.rs:205-207 | a million prompt tokens at a reported cost of zero are charged by the price |
| RequestCharges.FiguresBack | src/usage.rs:184-203 | cost, prompt and completion figures are each read from their own key |
| RequestCharges.TallyIsLast | src/server.rs:414-422 | a tracked run ends with the last figure of each sort, before or after `[DONE]`, up to an error chunk before it |
| RequestCharges.RecordNonstream | src/server.rs:363-381 | a whole response is charged its own figures, or nothing if tracking is off or nothing is metered |
| RequestCharges.StreamAndRecord | src/server.rs:394-471 | a stream is charged its last figures under the same condition, and its frames are those of the run |
| RequestCharges.BothCharge | src/server.rs:363-471 | on a completed stream both handlers charge the same if the last figures are the whole response's, and a window of at most 31 days and a second counts the same exactly when the amounts due are equal |
| Router.ResolveCandidates | src/router.rs:24-79 | the candidates of an alias, or the error; in which order is `RouterOrder.RoutedOrder`, `DefaultOrder` and `NetAlone` |
| Router.OnlyRanking | src/router.rs:55-74 | the candidate order is the one stable order of the configured chain with ready providers first |
| RouterOrder.RoutedOrder | src/router.rs:30-77 | an alias with a route: primary, fallbacks in order, safety net, each at its place among the ready or among the others; an error exactly if none is configured |
| RouterOrder.PrimaryFirst | src/router.rs:30-36 | a ready primary is asked first |
| RouterOrder.DefaultOrder | src/router.rs:38-48 | an alias without a route: the default provider, under its prefix unless the alias has a slash, then the safety net; or the error for a default that is not configured |
| RouterOrder.NetAlone | src/router.rs:49-55 | without a default provider only the safety net is left |
| RouterOrder.QuotaBoundary | src/router.rs:82-95 | a quota at its minimum is enough, below it is not; unknown quotas do not matter |
| Router.NothingLost | src/router.rs:57-60 | only unknown providers are dropped; nothing is added or repeated |
| Router.FailsExactly | src/router.rs:37-77 | there are no candidates if and only if the default provider is not configured or no provider of the chain is |
| Router.SafetyNetCatches | src/router.rs:17-23 | with a configured safety net only an unconfigured default provider makes an alias fail, and otherwise the net is among the candidates |
| Failover.Gateway.Call | src/server.rs:518-587 | the candidates asked are a prefix of the chain, once each and in order, up to the first reply that settles the request; the result is the first success, else the first error not worth retrying, else the last candidate's error, and all asked but the last are marked |
| Failover.Gateway.Candidates | src/server.rs:600-609 | candidates with spent providers demoted when usage is tracked |
| Failover.Gateway.MarkDegraded | src/server.rs:491-497 | a failed provider becomes unavailable with the error as reason, keeps its quota figures, and no other entry changes |
| Failover.Gateway.ReloadConfig | src/server.rs:187-212 | a reload takes the new configuration, forgets exactly the providers it does not have and keeps the others' statuses |
| Failover.OutcomeUnique | src/server.rs:518-551 | candidates and replies determine the outcome |
| Failover.AttemptsMeaning | src/server.rs:525-549 | attempts stop at the first reply that settles the request; all before it failed retryably |
| Failover.GoesPastExactly | src/server.rs:475-486 | a request goes past a candidate exactly if all so far were unreachable or answered 401, 402, 408, 429 or a server error |
| Failover.SecondAnswers | src/server.rs:518-551 | of two candidates the second covers up the first one's error exactly for those errors |
| Failover.RequestMarksExactly | src/server.rs:542-547 | a request marks exactly the providers of all attempts but the final one and leaves every other status as it was |
| Failover.UsableExactly | src/router.rs:82-95 | after any interleaving of requests, probes and reloads a provider is usable exactly as the last word about it says |
| Failover.MarkedStaysBehind | src/router.rs:66-74 | from a mark until a probe finds the provider available or a reload drops it, every request ranks it behind all ready candidates |
| Failover.RunIsChanges | src/server.rs:518-587 | a run of requests, probes and reloads is one list of changes to the shared state |
| Failover.FailedStaysBehind | src/server.rs:540-548 | over whole runs, once a request has failed over from a provider every later request ranks it behind all ready candidates, until a probe finds it available or a reload drops it |
| Failover.SpentStaysBehind | src/server.rs:602-608 | a provider with an exhausted window is ranked behind every ready candidate until that window's reset time |

## Left out

- Schema.SanitizeSchema: the source edits the schema tree in place; the model computes the repaired tree, so it does not capture aliasing between nodes.
- ChatRequest.ParseRequest: list parsers that the source writes as iterator chains (`parse_chat_tools`, `parse_chat_tool_calls`) are functions; `as f32` rounding of the temperature is not modelled.
- ChatRequest.BuildRequest: temperatures are reals, so the JSON null that a NaN would print as does not occur.
- Responses.ResponsesEmitter.OnEvent: block indices and sequence numbers are unbounded; the source's 32-bit block index would overflow after four billion blocks of one stream (the same holds of Anthropic.AnthropicEmitter.OnEvent). Tool indices read from the upstream do wrap to 32 bits.
- Responses.Render and Anthropic.Render: frames are values whose constructors stand for the event names; their JSON is written out only for what clients send back (`EchoBack`, `Conversations`).
- Responses.ResponsesEmitter.NewId: generated identifiers are a prefix and a counter instead of a random UUID.
- Anthropic.InputOf: JSON text parsing, decimal parsing and JSON printing are parameters; any such functions do.
- Pipeline.StreamRun.Run: the frames are what the loop yields; how the server writes them to the socket is not modelled, and an upstream is a given sequence of byte chunks and at most one transport error.
- Usage.UsageMeter.Record: amounts are reals, so non-finite amounts do not occur; inserts into the event store succeed.
- UsageHistory.MeteredService.StartAgain: the store is a list of rows with prune and load; SQLite, migrations and queries are not part of this model.
- Failover.Gateway.Call: each candidate's answer is given; HTTP, timeouts and the request body sent to each candidate are not modelled. A re-probe started by a mark is an arbitrary later report.
- Charging.RecordAmounts: token counts are added without the 64-bit limit.
- Request fields other than `input` and `messages` (`system`, `tools`, `tool_choice`, `reasoning.effort`, `thinking`, sampling parameters) of the Responses and Anthropic parsers: field lookups that would add only easy members.
- AnthropicInput.ParseMessages: starts from the `messages` array; a body that is not an object or has no model is refused as in `ChatRequest.ParseRequest`.
- Lua probes, the watcher's schedule, admin pages, authentication, configuration loading and the model list: thin glue.
- The `/v1/chat/completions` streaming passthrough forwards bytes verbatim.
