/** The streaming translation pipeline: upstream bytes to client frames. */
module Pipeline {
  import opened Wrappers
  import opened Json
  import opened Canonical
  import opened ChatStream
  import Sse
  import Utf8
  import Blocks
  import Responses
  import Anthropic

  // ----- the upstream -----

  /** What the upstream yields next: bytes, or a transport error. */
  datatype Chunk = Bytes(bytes: seq<Utf8.Byte>) | Failed(message: string)

  datatype Ending = Clean | Broken(message: string)

  /** The bytes before the first transport error, joined. */
  function BytesOf(chunks: seq<Chunk>): seq<Utf8.Byte> {
    if chunks == [] || chunks[0].Failed? then [] else chunks[0].bytes + BytesOf(chunks[1..])
  }

  function EndingOf(chunks: seq<Chunk>): Ending {
    if chunks == [] then Clean else if chunks[0].Failed? then Broken(chunks[0].message) else EndingOf(chunks[1..])
  }

  // ----- cost and token capture -----

  /** Text readers the source takes from its libraries: JSON and decimal numbers. */
  datatype Readers = Readers(json: string -> Option<Value>, number: string -> Option<real>)

  datatype Tally = Tally(cost: Option<real>, prompt: Option<nat>, completion: Option<nat>)

  const NO_TALLY := Tally(None, None, None)

  function ParseCost(r: Readers, v: Option<Value>): Option<real> {
    match v
    case Some(Str(s)) => r.number(Sse.Trim(s))
    case _ => AsF64(v)
  }

  /** The figures in one JSON chunk. */
  function Sniff(r: Readers, json: Value): Tally {
    Tally(
      ParseCost(r, json.Get("cost")),
      AsU64(Field(json.Get("usage"), "prompt_tokens")),
      AsU64(Field(json.Get("usage"), "completion_tokens")))
  }

  /** Each figure replaces the earlier one if present. */
  function Merge(t: Tally, seen: Tally): Tally {
    Tally(OrElse(seen.cost, t.cost), OrElse(seen.prompt, t.prompt), OrElse(seen.completion, t.completion))
  }

  // ----- what the loop does, item by item -----

  /** `done`: `[DONE]` was seen and the upstream is only drained for its cost;
      `stopped`: the outer loop was left. */
  datatype Progress = Progress(parser: Parser, done: bool, stopped: bool, tally: Tally)

  function Begin(responseId: string): Progress {
    Progress(NewParser(responseId), false, false, NO_TALLY)
  }

  /** A decoded item as the loop reads it: the end marker, a JSON chunk, or text
      that is not JSON and is skipped. */
  datatype Heard = Noise | Marker | Said(digest: Digest, figures: Tally)

  function Hear(r: Readers, item: Sse.Item): Heard {
    match item
    case Done => Marker
    case Data(text) =>
      match r.json(text)
      case None => Noise
      case Some(json) => Said(Read(json), Sniff(r, json))
  }

  function HearAll(r: Readers, items: seq<Sse.Item>): seq<Heard> {
    seq(|items|, k requires 0 <= k < |items| => Hear(r, items[k]))
  }

  ghost function ItemEvents(pr: Progress, h: Heard): seq<Event> {
    match h
    case Noise => []
    case Marker => [Completed]
    case Said(d, _) => if pr.done then [] else Emit(pr.parser, d)
  }

  function AfterItem(track: bool, pr: Progress, h: Heard): Progress {
    match h
    case Noise => pr
    case Marker => if track then pr.(done := true) else pr.(stopped := true)
    case Said(d, figures) =>
      var tally := if track then Merge(pr.tally, figures) else pr.tally;
      if pr.done then pr.(tally := tally)
      else Progress(Advance(pr.parser, d), false, d.Failure?, tally)
  }

  ghost function EndEvents(done: bool, ending: Ending): seq<Event> {
    match ending
    case Broken(message) => [Error(message, 502)]
    case Clean => if done then [] else [Completed]
  }

  /** Events for some items, the end not yet reached. */
  ghost function HeardEvents(track: bool, pr: Progress, hs: seq<Heard>): seq<Event>
    decreases hs
  {
    if pr.stopped || hs == [] then []
    else ItemEvents(pr, hs[0]) + HeardEvents(track, AfterItem(track, pr, hs[0]), hs[1..])
  }

  function AfterHeard(track: bool, pr: Progress, hs: seq<Heard>): Progress
    decreases hs
  {
    if pr.stopped || hs == [] then pr else AfterHeard(track, AfterItem(track, pr, hs[0]), hs[1..])
  }

  ghost function Ended(pr: Progress, ending: Ending): seq<Event> {
    if pr.stopped then [] else EndEvents(pr.done, ending)
  }

  /** All canonical events sent to the emitter over a whole upstream. */
  ghost function Drive(track: bool, pr: Progress, hs: seq<Heard>, ending: Ending): seq<Event> {
    HeardEvents(track, pr, hs) + Ended(AfterHeard(track, pr, hs), ending)
  }

  lemma {:induction false} HeardAppend(track: bool, pr: Progress, a: seq<Heard>, b: seq<Heard>)
    ensures HeardEvents(track, pr, a + b) == HeardEvents(track, pr, a) + HeardEvents(track, AfterHeard(track, pr, a), b)
    ensures AfterHeard(track, pr, a + b) == AfterHeard(track, AfterHeard(track, pr, a), b)
    decreases a
  {
    if pr.stopped {
    } else if a == [] {
      assert a + b == b;
    } else {
      assert (a + b)[0] == a[0] && (a + b)[1..] == a[1..] + b;
      var pr' := AfterItem(track, pr, a[0]);
      HeardAppend(track, pr', a[1..], b);
      Regroup(ItemEvents(pr, a[0]), HeardEvents(track, pr', a[1..]),
        HeardEvents(track, AfterHeard(track, pr', a[1..]), b));
    }
  }

  lemma Regroup(a: seq<Event>, b: seq<Event>, c: seq<Event>)
    ensures a + (b + c) == (a + b) + c
  {
  }

  // ----- what the loop does, chunk by chunk -----

  ghost function ChunkHeard(r: Readers, buf: seq<Utf8.Byte>, bytes: seq<Utf8.Byte>): seq<Heard> {
    HearAll(r, Sse.Items(buf + bytes))
  }

  ghost function DriveChunks(r: Readers, track: bool, pr: Progress, buf: seq<Utf8.Byte>, chunks: seq<Chunk>): seq<Event>
    decreases chunks
  {
    if pr.stopped || chunks == [] then Ended(pr, Clean)
    else match chunks[0]
      case Failed(message) => Ended(pr, Broken(message))
      case Bytes(bytes) =>
        var hs := ChunkHeard(r, buf, bytes);
        HeardEvents(track, pr, hs)
        + DriveChunks(r, track, AfterHeard(track, pr, hs), Sse.Rest(buf + bytes), chunks[1..])
  }

  ghost function TallyChunks(r: Readers, track: bool, pr: Progress, buf: seq<Utf8.Byte>, chunks: seq<Chunk>): Tally
    decreases chunks
  {
    if pr.stopped || chunks == [] || chunks[0].Failed? then pr.tally
    else TallyChunks(r, track, AfterHeard(track, pr, ChunkHeard(r, buf, chunks[0].bytes)),
      Sse.Rest(buf + chunks[0].bytes), chunks[1..])
  }

  /** Everything heard on the joined bytes. */
  ghost function UpstreamHeard(r: Readers, chunks: seq<Chunk>): seq<Heard> {
    HearAll(r, Sse.Items(BytesOf(chunks)))
  }

  lemma HearSplit(r: Readers, buf: seq<Utf8.Byte>, bytes: seq<Utf8.Byte>, later: seq<Utf8.Byte>)
    ensures HearAll(r, Sse.Items(buf + (bytes + later)))
      == ChunkHeard(r, buf, bytes) + HearAll(r, Sse.Items(Sse.Rest(buf + bytes) + later))
    ensures Sse.Unseparated(Sse.Rest(buf + bytes))
  {
    Sse.PushFirst(buf, bytes, later);
    HearAppend(r, Sse.Items(buf + bytes), Sse.Items(Sse.Rest(buf + bytes) + later));
  }

  lemma HearAppend(r: Readers, a: seq<Sse.Item>, b: seq<Sse.Item>)
    ensures HearAll(r, a + b) == HearAll(r, a) + HearAll(r, b)
  {
  }

  /** End-to-end chunking independence: what is sent, and what is tallied, depends
      only on the joined bytes and on how the stream ends. */
  lemma {:induction false} ChunkingIndependent(r: Readers, track: bool, pr: Progress, buf: seq<Utf8.Byte>,
      chunks: seq<Chunk>)
    requires Sse.Unseparated(buf)
    ensures var hs := HearAll(r, Sse.Items(buf + BytesOf(chunks)));
      && DriveChunks(r, track, pr, buf, chunks) == Drive(track, pr, hs, EndingOf(chunks))
      && TallyChunks(r, track, pr, buf, chunks) == AfterHeard(track, pr, hs).tally
    decreases chunks
  {
    if pr.stopped {
    } else if chunks == [] || chunks[0].Failed? {
      Sse.NothingComplete(buf);
    } else {
      var bytes, later := chunks[0].bytes, BytesOf(chunks[1..]);
      HearSplit(r, buf, bytes, later);
      var hs, buf' := ChunkHeard(r, buf, bytes), Sse.Rest(buf + bytes);
      var rest := HearAll(r, Sse.Items(buf' + later));
      var pr' := AfterHeard(track, pr, hs);
      ChunkingIndependent(r, track, pr', buf', chunks[1..]);
      HeardAppend(track, pr, hs, rest);
      Regroup(HeardEvents(track, pr, hs), HeardEvents(track, pr', rest),
        Ended(AfterHeard(track, pr', rest), EndingOf(chunks)));
    }
  }

  // ----- emitters -----

  /** The source is generic over the dialect's emitter; here it is one of the two. */
  datatype Emitter = ToResponses(r: Responses.ResponsesEmitter) | ToAnthropic(a: Anthropic.AnthropicEmitter)

  datatype ClientFrame = R(r: Responses.Frame) | A(a: Anthropic.Frame)

  datatype EmitterState = RState(core: Blocks.State, seqNo: nat) | AState(core: Blocks.State, started: bool)

  function RFrames(f: seq<Responses.Frame>): seq<ClientFrame> {
    seq(|f|, k requires 0 <= k < |f| => R(f[k]))
  }

  function AFrames(f: seq<Anthropic.Frame>): seq<ClientFrame> {
    seq(|f|, k requires 0 <= k < |f| => A(f[k]))
  }

  ghost function NextState(es: EmitterState, ev: Event): EmitterState {
    var core := Blocks.Step(es.core, ev).state;
    match es
    case RState(_, seqNo) => RState(core, seqNo + |Responses.Bodies(es.core, ev)|)
    case AState(_, started) => AState(core, started || Anthropic.Announces(ev))
  }

  ghost function FramesFor(es: EmitterState, ev: Event): seq<ClientFrame> {
    match es
    case RState(core, seqNo) => RFrames(Responses.Number(seqNo, Responses.Bodies(core, ev)))
    case AState(core, started) => AFrames(Anthropic.Frames(core, started, ev))
  }

  ghost function EmitAll(es: EmitterState, evs: seq<Event>): seq<ClientFrame>
    decreases evs
  {
    if evs == [] then [] else FramesFor(es, evs[0]) + EmitAll(NextState(es, evs[0]), evs[1..])
  }

  ghost function AfterAll(es: EmitterState, evs: seq<Event>): EmitterState
    decreases evs
  {
    if evs == [] then es else AfterAll(NextState(es, evs[0]), evs[1..])
  }

  lemma {:induction false} EmitAllAppend(es: EmitterState, a: seq<Event>, b: seq<Event>)
    ensures EmitAll(es, a + b) == EmitAll(es, a) + EmitAll(AfterAll(es, a), b)
    ensures AfterAll(es, a + b) == AfterAll(AfterAll(es, a), b)
    decreases a
  {
    if a == [] {
      assert a + b == b;
    } else {
      assert (a + b)[0] == a[0] && (a + b)[1..] == a[1..] + b;
      EmitAllAppend(NextState(es, a[0]), a[1..], b);
      Joined(FramesFor(es, a[0]), EmitAll(NextState(es, a[0]), a[1..]), EmitAll(AfterAll(es, a), b));
    }
  }

  lemma Joined(a: seq<ClientFrame>, b: seq<ClientFrame>, c: seq<ClientFrame>)
    ensures a + (b + c) == (a + b) + c
  {
  }

  lemma EmitOne(es: EmitterState, ev: Event)
    ensures EmitAll(es, [ev]) == FramesFor(es, ev) && AfterAll(es, [ev]) == NextState(es, ev)
  {
    assert [ev][1..] == [];
    assert FramesFor(es, ev) + [] == FramesFor(es, ev);
  }

  /** The frames are those of the events sent, and the emitter is where they leave it. */
  ghost predicate Emitted(es: EmitterState, sent: seq<Event>, frames: seq<ClientFrame>, now: EmitterState) {
    frames == EmitAll(es, sent) && now == AfterAll(es, sent)
  }

  lemma EmittedThen(es: EmitterState, a: seq<Event>, f: seq<ClientFrame>, mid: EmitterState, b: seq<Event>,
                    g: seq<ClientFrame>, now: EmitterState)
    requires Emitted(es, a, f, mid) && Emitted(mid, b, g, now)
    ensures Emitted(es, a + b, f + g, now)
  {
    EmitAllAppend(es, a, b);
  }

  ghost function Object(e: Emitter): object {
    match e
    case ToResponses(r) => r
    case ToAnthropic(a) => a
  }

  ghost predicate Valid(e: Emitter)
    reads Object(e)
  {
    match e
    case ToResponses(r) => r.Valid()
    case ToAnthropic(a) => a.Valid()
  }

  ghost function StateOf(e: Emitter): EmitterState
    reads Object(e)
  {
    match e
    case ToResponses(r) => RState(r.core, r.seqNo)
    case ToAnthropic(a) => AState(a.core, a.started)
  }

  method EmitEvent(e: Emitter, ev: Event) returns (frames: seq<ClientFrame>)
    requires Valid(e)
    modifies Object(e)
    ensures Valid(e) && StateOf(e) == NextState(old(StateOf(e)), ev)
    ensures frames == FramesFor(old(StateOf(e)), ev)
  {
    match e {
      case ToResponses(r) =>
        var f := r.OnEvent(ev);
        frames := seq(|f|, k requires 0 <= k < |f| => R(f[k]));
      case ToAnthropic(a) =>
        var f := a.OnEvent(ev);
        frames := seq(|f|, k requires 0 <= k < |f| => A(f[k]));
    }
  }

  /** Emit a chunk's events, leaving at the first error. */
  method EmitEvents(e: Emitter, evs: seq<Event>) returns (frames: seq<ClientFrame>, failed: bool)
    requires Valid(e)
    requires forall k :: 0 <= k < |evs| && evs[k].Error? ==> k == |evs| - 1
    modifies Object(e)
    ensures Valid(e) && Emitted(old(StateOf(e)), evs, frames, StateOf(e))
    ensures failed <==> evs != [] && evs[|evs| - 1].Error?
  {
    frames, failed := [], false;
    ghost var es := StateOf(e);
    var k := 0;
    while k < |evs| && !failed
      invariant 0 <= k <= |evs| && Valid(e) && StateOf(e) == AfterAll(es, evs[..k])
      invariant frames == EmitAll(es, evs[..k])
      invariant failed <==> k > 0 && evs[k - 1].Error?
    {
      EmitNext(es, evs, k);
      var more := EmitEvent(e, evs[k]);
      frames := frames + more;
      failed := evs[k].Error?;
      k := k + 1;
    }
    assert evs[..|evs|] == evs;
  }

  lemma EmitNext(es: EmitterState, evs: seq<Event>, k: nat)
    requires k < |evs|
    ensures EmitAll(es, evs[..k + 1]) == EmitAll(es, evs[..k]) + FramesFor(AfterAll(es, evs[..k]), evs[k])
    ensures AfterAll(es, evs[..k + 1]) == NextState(AfterAll(es, evs[..k]), evs[k])
  {
    assert evs[..k + 1] == evs[..k] + [evs[k]];
    EmitAllAppend(es, evs[..k], [evs[k]]);
    EmitOne(AfterAll(es, evs[..k]), evs[k]);
  }

  predicate Unfinished(evs: seq<Event>) {
    forall k :: 0 <= k < |evs| ==> !evs[k].IsTerminal()
  }

  lemma UnfinishedParts(a: seq<Event>, b: seq<Event>, c: seq<Event>)
    requires Unfinished(a) && Unfinished(b) && Unfinished(c)
    ensures Unfinished(a + (b + c))
  {
  }

  lemma ErrorsAlone(p: Parser, d: Digest)
    ensures forall k :: 0 <= k < |Emit(p, d)| ==> (Emit(p, d)[k].Error? <==> d.Failure?) && !Emit(p, d)[k].Completed?
    ensures d.Failure? ==> |Emit(p, d)| == 1
  {
    if d.Content? {
      EmitParts(p, d);
      EntriesQuiet(p.started, d.entries);
      UnfinishedParts(HeadEvents(p, d), EntriesEvents(p.started, d.entries),
        TailEvents(p.started + Indices(d.entries), d));
      assert Unfinished(Emit(p, d));
    }
  }

  lemma {:induction false} EntriesQuiet(started: set<nat>, es: seq<ToolEntry>)
    ensures Unfinished(EntriesEvents(started, es))
    decreases es
  {
    if es != [] { EntriesQuiet(started + {es[0].index}, es[1..]); }
  }

  // ----- the loop itself -----

  /** After `k` chunks: `sent` is out, and the rest follows from where the run stands. */
  ghost predicate Pumped(r: Readers, track: bool, pr: Progress, buf: seq<Utf8.Byte>, chunks: seq<Chunk>, k: nat,
                         now: Progress, held: seq<Utf8.Byte>, sent: seq<Event>)
  {
    && k <= |chunks| && Sse.Unseparated(held)
    && sent + DriveChunks(r, track, now, held, chunks[k..]) == DriveChunks(r, track, pr, buf, chunks)
    && TallyChunks(r, track, now, held, chunks[k..]) == TallyChunks(r, track, pr, buf, chunks)
  }

  lemma PumpStarts(r: Readers, track: bool, pr: Progress, buf: seq<Utf8.Byte>, chunks: seq<Chunk>)
    requires Sse.Unseparated(buf)
    ensures Pumped(r, track, pr, buf, chunks, 0, pr, buf, [])
  {
    assert chunks[0..] == chunks;
    assert [] + DriveChunks(r, track, pr, buf, chunks) == DriveChunks(r, track, pr, buf, chunks);
  }

  lemma PumpStops(r: Readers, track: bool, pr: Progress, buf: seq<Utf8.Byte>, chunks: seq<Chunk>, k: nat,
                  now: Progress, held: seq<Utf8.Byte>, sent: seq<Event>, ending: Ending)
    requires Pumped(r, track, pr, buf, chunks, k, now, held, sent)
    requires if k == |chunks| || now.stopped then ending == Clean
      else ending.Broken? && chunks[k] == Failed(ending.message)
    ensures sent + Ended(now, ending) == DriveChunks(r, track, pr, buf, chunks)
    ensures now.tally == TallyChunks(r, track, pr, buf, chunks)
  {
    if k < |chunks| { assert chunks[k..][0] == chunks[k]; } else { assert chunks[k..] == []; }
  }

  lemma WholeUpstream(r: Readers, track: bool, pr: Progress, chunks: seq<Chunk>)
    ensures Sse.Unseparated([])
    ensures DriveChunks(r, track, pr, [], chunks) == Drive(track, pr, UpstreamHeard(r, chunks), EndingOf(chunks))
    ensures TallyChunks(r, track, pr, [], chunks) == AfterHeard(track, pr, UpstreamHeard(r, chunks)).tally
  {
    ChunkingIndependent(r, track, pr, [], chunks);
    assert [] + BytesOf(chunks) == BytesOf(chunks);
  }

  lemma HeardNext(track: bool, pr: Progress, hs: seq<Heard>, k: nat)
    requires k < |hs| && !AfterHeard(track, pr, hs[..k]).stopped
    ensures var mid := AfterHeard(track, pr, hs[..k]);
      && HeardEvents(track, pr, hs[..k + 1]) == HeardEvents(track, pr, hs[..k]) + ItemEvents(mid, hs[k])
      && AfterHeard(track, pr, hs[..k + 1]) == AfterItem(track, mid, hs[k])
  {
    var mid := AfterHeard(track, pr, hs[..k]);
    assert hs[..k + 1] == hs[..k] + [hs[k]];
    HeardAppend(track, pr, hs[..k], [hs[k]]);
    assert [hs[k]][1..] == [];
    assert ItemEvents(mid, hs[k]) + [] == ItemEvents(mid, hs[k]);
  }

  /** Nothing is heard after the run stopped, or after the last item. */
  lemma HeardStops(track: bool, pr: Progress, hs: seq<Heard>, k: nat)
    requires k <= |hs| && (k == |hs| || AfterHeard(track, pr, hs[..k]).stopped)
    ensures HeardEvents(track, pr, hs) == HeardEvents(track, pr, hs[..k])
    ensures AfterHeard(track, pr, hs) == AfterHeard(track, pr, hs[..k])
  {
    assert hs == hs[..k] + hs[k..];
    HeardAppend(track, pr, hs[..k], hs[k..]);
    var before := HeardEvents(track, pr, hs[..k]);
    assert before + [] == before;
  }

  lemma ChunkFirst(r: Readers, track: bool, pr: Progress, buf: seq<Utf8.Byte>, sent: seq<Event>, chunks: seq<Chunk>,
                   k: nat)
    requires k < |chunks| && !pr.stopped && chunks[k].Bytes?
    ensures var hs, buf' := ChunkHeard(r, buf, chunks[k].bytes), Sse.Rest(buf + chunks[k].bytes);
      var evs, pr' := HeardEvents(track, pr, hs), AfterHeard(track, pr, hs);
      && sent + DriveChunks(r, track, pr, buf, chunks[k..])
        == (sent + evs) + DriveChunks(r, track, pr', buf', chunks[k + 1..])
      && TallyChunks(r, track, pr, buf, chunks[k..]) == TallyChunks(r, track, pr', buf', chunks[k + 1..])
  {
    assert chunks[k..][0] == chunks[k] && chunks[k..][1..] == chunks[k + 1..];
    var hs := ChunkHeard(r, buf, chunks[k].bytes);
    Regroup(sent, HeardEvents(track, pr, hs),
      DriveChunks(r, track, AfterHeard(track, pr, hs), Sse.Rest(buf + chunks[k].bytes), chunks[k + 1..]));
  }

  class StreamRun {
    const readers: Readers
    const track: bool
    const emitter: Emitter
    const decoder: Sse.SseDecoder
    const parser: ChatStreamParser
    var completed: bool
    var done: bool
    var stopped: bool
    var tally: Tally

    ghost predicate Ready()
      reads this, Object(emitter), decoder, parser
    {
      && Valid(emitter) && Object(emitter) != decoder && Object(emitter) != parser && Object(emitter) != this
      && (completed <==> done || stopped)
    }

    ghost function State(): Progress
      reads this, parser
    {
      Progress(parser.State(), done, stopped, tally)
    }

    constructor (readers: Readers, responseId: string, emitter: Emitter, track: bool)
      requires Valid(emitter)
      ensures Ready() && State() == Begin(responseId) && decoder.buf == []
      ensures this.readers == readers && this.track == track && this.emitter == emitter
      ensures fresh(decoder) && fresh(parser)
    {
      this.readers, this.track, this.emitter := readers, track, emitter;
      decoder := new Sse.SseDecoder();
      parser := new ChatStreamParser(responseId);
      completed, done, stopped := false, false, false;
      tally := NO_TALLY;
    }

    /** Cost (which may come after `[DONE]`) and token usage. */
    method Note(json: Value)
      modifies this`tally
      ensures tally == Merge(old(tally), Sniff(readers, json))
    {
      var c := ParseCost(readers, json.Get("cost"));
      if c.Some? { tally := tally.(cost := c); }
      var pt, ct := AsU64(Field(json.Get("usage"), "prompt_tokens")),
        AsU64(Field(json.Get("usage"), "completion_tokens"));
      if pt.Some? { tally := tally.(prompt := pt); }
      if ct.Some? { tally := tally.(completion := ct); }
    }

    method TakeChunk(json: Value) returns (frames: seq<ClientFrame>)
      requires Ready() && !stopped && !done
      modifies this`completed, this`stopped, Object(emitter), parser
      ensures Ready() && stopped == Read(json).Failure? && parser.State() == Advance(old(parser.State()), Read(json))
      ensures var evs := Emit(old(parser.State()), Read(json));
        Emitted(old(StateOf(emitter)), evs, frames, StateOf(emitter))
    {
      ErrorsAlone(parser.State(), Read(json));
      var evs := parser.OnChunk(json);
      var failed;
      frames, failed := EmitEvents(emitter, evs);
      if failed {
        completed := true;
        stopped := true;
      }
    }

    method TakeJson(json: Value) returns (frames: seq<ClientFrame>)
      requires Ready() && !stopped
      modifies this, Object(emitter), parser
      ensures var h := Said(Read(json), Sniff(readers, json));
        && Ready() && State() == AfterItem(track, old(State()), h)
        && Emitted(old(StateOf(emitter)), ItemEvents(old(State()), h), frames, StateOf(emitter))
    {
      ghost var pr, d := State(), Read(json);
      if track { Note(json); }
      assert State() == pr.(tally := if track then Merge(pr.tally, Sniff(readers, json)) else pr.tally);
      if done { return []; }
      frames := TakeChunk(json);
      assert ItemEvents(pr, Said(d, Sniff(readers, json))) == Emit(pr.parser, d);
    }

    method TakeMarker() returns (frames: seq<ClientFrame>)
      requires Ready() && !stopped
      modifies this, Object(emitter)
      ensures Ready() && State() == AfterItem(track, old(State()), Marker)
      ensures Emitted(old(StateOf(emitter)), [Completed], frames, StateOf(emitter))
    {
      EmitOne(StateOf(emitter), Completed);
      frames := EmitEvent(emitter, Completed);
      completed := true;
      if track { done := true; } else { stopped := true; }
    }

    /** One decoded item: a JSON chunk, the end marker, or noise. */
    method TakeItem(item: Sse.Item) returns (frames: seq<ClientFrame>)
      requires Ready() && !stopped
      modifies this, Object(emitter), parser
      ensures Ready() && State() == AfterItem(track, old(State()), Hear(readers, item))
      ensures var evs := ItemEvents(old(State()), Hear(readers, item));
        Emitted(old(StateOf(emitter)), evs, frames, StateOf(emitter))
    {
      match item {
        case Done => frames := TakeMarker();
        case Data(text) =>
          var parsed := readers.json(text);
          if parsed.None? { return []; }
          frames := TakeJson(parsed.value);
      }
    }

    method TakeItems(items: seq<Sse.Item>) returns (frames: seq<ClientFrame>)
      requires Ready()
      modifies this, Object(emitter), parser
      ensures Ready() && State() == AfterHeard(track, old(State()), HearAll(readers, items))
      ensures var evs := HeardEvents(track, old(State()), HearAll(readers, items));
        Emitted(old(StateOf(emitter)), evs, frames, StateOf(emitter))
    {
      frames := [];
      ghost var es, pr, hs := StateOf(emitter), State(), HearAll(readers, items);
      var k := 0;
      while k < |items| && !stopped
        invariant 0 <= k <= |items| && Ready() && State() == AfterHeard(track, pr, hs[..k])
        invariant frames == EmitAll(es, HeardEvents(track, pr, hs[..k]))
        invariant StateOf(emitter) == AfterAll(es, HeardEvents(track, pr, hs[..k]))
      {
        HeardNext(track, pr, hs, k);
        EmitAllAppend(es, HeardEvents(track, pr, hs[..k]), ItemEvents(State(), hs[k]));
        var more := TakeItem(items[k]);
        frames := frames + more;
        k := k + 1;
      }
      HeardStops(track, pr, hs, k);
    }

    method TakeBytes(bytes: seq<Utf8.Byte>) returns (frames: seq<ClientFrame>)
      requires Ready() && Sse.Unseparated(decoder.buf)
      modifies this, Object(emitter), parser, decoder
      ensures Ready() && decoder.buf == Sse.Rest(old(decoder.buf) + bytes) && Sse.Unseparated(decoder.buf)
      ensures State() == AfterHeard(track, old(State()), ChunkHeard(readers, old(decoder.buf), bytes))
      ensures var evs := HeardEvents(track, old(State()), ChunkHeard(readers, old(decoder.buf), bytes));
        Emitted(old(StateOf(emitter)), evs, frames, StateOf(emitter))
    {
      var items := decoder.Push(bytes);
      frames := TakeItems(items);
    }

    /** The loop's step: one more chunk of bytes. */
    method PumpOne(before: seq<ClientFrame>, chunks: seq<Chunk>, k: nat, ghost es: EmitterState, ghost pr: Progress,
                   ghost buf: seq<Utf8.Byte>, ghost told: seq<Event>)
      returns (frames: seq<ClientFrame>, ghost sent: seq<Event>)
      requires k < |chunks| && chunks[k].Bytes? && Ready() && !stopped
      requires Emitted(es, told, before, StateOf(emitter))
      requires Pumped(readers, track, pr, buf, chunks, k, State(), decoder.buf, told)
      modifies this, Object(emitter), parser, decoder
      ensures Ready() && Emitted(es, sent, frames, StateOf(emitter))
      ensures Pumped(readers, track, pr, buf, chunks, k + 1, State(), decoder.buf, sent)
    {
      ghost var evs := HeardEvents(track, State(), ChunkHeard(readers, decoder.buf, chunks[k].bytes));
      ghost var mid := StateOf(emitter);
      ChunkFirst(readers, track, State(), decoder.buf, told, chunks, k);
      var more := TakeBytes(chunks[k].bytes);
      EmittedThen(es, told, before, mid, evs, more, StateOf(emitter));
      frames, sent := before + more, told + evs;
    }

    /** The outer loop: chunks of bytes until the upstream ends, breaks, or the run is
        stopped; `k` is how many were read. */
    method PumpBytes(chunks: seq<Chunk>, ghost pr: Progress, ghost buf: seq<Utf8.Byte>)
      returns (frames: seq<ClientFrame>, k: nat, ghost sent: seq<Event>)
      requires Ready() && Pumped(readers, track, pr, buf, chunks, 0, State(), decoder.buf, [])
      modifies this, Object(emitter), parser, decoder
      ensures Ready() && Emitted(old(StateOf(emitter)), sent, frames, StateOf(emitter))
      ensures Pumped(readers, track, pr, buf, chunks, k, State(), decoder.buf, sent)
      ensures k == |chunks| || stopped || chunks[k].Failed?
    {
      frames, k, sent := [], 0, [];
      ghost var es := StateOf(emitter);
      while k < |chunks| && !stopped && chunks[k].Bytes?
        invariant k <= |chunks| && Ready() && Emitted(es, sent, frames, StateOf(emitter))
        invariant Pumped(readers, track, pr, buf, chunks, k, State(), decoder.buf, sent)
      {
        frames, sent := PumpOne(frames, chunks, k, es, pr, buf, sent);
        k := k + 1;
      }
    }

    /** Everything before the close of the stream, and how the upstream ended. */
    method Pump(chunks: seq<Chunk>) returns (frames: seq<ClientFrame>, ending: Ending, ghost sent: seq<Event>)
      requires Ready() && Sse.Unseparated(decoder.buf)
      modifies this, Object(emitter), parser, decoder
      ensures Ready() && Emitted(old(StateOf(emitter)), sent, frames, StateOf(emitter))
      ensures stopped ==> ending.Clean?
      ensures sent + Ended(State(), ending) == DriveChunks(readers, track, old(State()), old(decoder.buf), chunks)
      ensures tally == TallyChunks(readers, track, old(State()), old(decoder.buf), chunks)
    {
      ghost var pr, buf := State(), decoder.buf;
      PumpStarts(readers, track, pr, buf, chunks);
      var k;
      frames, k, sent := PumpBytes(chunks, pr, buf);
      ending := if k < |chunks| && !stopped then Broken(chunks[k].message) else Clean;
      PumpStops(readers, track, pr, buf, chunks, k, State(), decoder.buf, sent, ending);
    }

    /** After the loop: a transport error is reported; otherwise the stream is
        completed unless it already was. */
    method Close(ending: Ending) returns (frames: seq<ClientFrame>)
      requires Ready() && (stopped ==> ending.Clean?)
      modifies this`completed, Object(emitter)
      ensures var evs := Ended(old(State()), ending);
        Emitted(old(StateOf(emitter)), evs, frames, StateOf(emitter))
    {
      frames := [];
      if ending.Broken? {
        var ev := Error(ending.message, 502);
        EmitOne(StateOf(emitter), ev);
        frames := EmitEvent(emitter, ev);
        completed := true;
      } else if !completed {
        EmitOne(StateOf(emitter), Completed);
        frames := EmitEvent(emitter, Completed);
      }
    }

    /** The outer loop over the upstream's chunks, and the close of the stream. */
    method Run(chunks: seq<Chunk>) returns (frames: seq<ClientFrame>)
      requires Ready() && decoder.buf == [] && !completed
      modifies this, Object(emitter), parser, decoder
      ensures var evs := Drive(track, old(State()), UpstreamHeard(readers, chunks), EndingOf(chunks));
        Emitted(old(StateOf(emitter)), evs, frames, StateOf(emitter))
      ensures tally == AfterHeard(track, old(State()), UpstreamHeard(readers, chunks)).tally
    {
      ghost var es := StateOf(emitter);
      WholeUpstream(readers, track, State(), chunks);
      ghost var sent;
      var ending;
      frames, ending, sent := Pump(chunks);
      ghost var mid, evs := StateOf(emitter), Ended(State(), ending);
      var last := Close(ending);
      EmittedThen(es, sent, frames, mid, evs, last, StateOf(emitter));
      frames := frames + last;
    }
  }
}
