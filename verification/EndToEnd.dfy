/** The streaming and the non-streaming handler against each other, from upstream
    bytes to what the client receives. */
module EndToEnd {
  import opened Json
  import opened Canonical
  import opened ChatStream
  import opened Blocks
  import opened Pipeline
  import PF = PipelineFacts
  import RF = ResponsesFacts
  import AF = AnthropicFacts
  import AC = AnthropicClient
  import CC = ClientContent
  import F = ChatStreamFacts
  import Agreement
  import Responses
  import Anthropic

  // ----- the non-streaming handlers -----

  /** The handler's loop: every event of the completion through the emitter. */
  method ReplayResponses(emitter: Responses.ResponsesEmitter, events: seq<Event>)
    requires emitter.Valid()
    modifies emitter
    ensures emitter.Valid() && emitter.core == Run(old(emitter.core), events).state
  {
    for k := 0 to |events|
      invariant emitter.Valid() && Run(emitter.core, events[k..]).state == Run(old(emitter.core), events).state
    {
      assert events[k..][0] == events[k] && events[k..][1..] == events[k + 1..];
      var frames := emitter.OnEvent(events[k]);
    }
    assert events[|events|..] == [];
  }

  method ReplayAnthropic(emitter: Anthropic.AnthropicEmitter, events: seq<Event>)
    requires emitter.Valid()
    modifies emitter
    ensures emitter.Valid() && emitter.core == Run(old(emitter.core), events).state
  {
    for k := 0 to |events|
      invariant emitter.Valid() && Run(emitter.core, events[k..]).state == Run(old(emitter.core), events).state
    {
      assert events[k..][0] == events[k] && events[k..][1..] == events[k + 1..];
      var frames := emitter.OnEvent(events[k]);
    }
    assert events[|events|..] == [];
  }

  method WholeResponse(resp: Value, responseId: string) returns (response: Responses.Response)
    ensures response == Responses.Final(Run(INIT, CompletionSpec(resp, responseId)).state)
  {
    var events := CompletionToEvents(resp, responseId);
    var emitter := new Responses.ResponsesEmitter();
    ReplayResponses(emitter, events);
    response := emitter.CompletedResponse();
  }

  method WholeMessage(read: Anthropic.JsonReader, resp: Value, responseId: string) returns (message: Anthropic.Message)
    ensures message == Anthropic.Final(read, Run(INIT, CompletionSpec(resp, responseId)).state)
  {
    var events := CompletionToEvents(resp, responseId);
    var emitter := new Anthropic.AnthropicEmitter(read);
    ReplayAnthropic(emitter, events);
    message := emitter.FinalMessage();
  }

  // ----- the streaming handler delivers the same -----

  /** What the client is sent, by the decoded items and the ending of the upstream
      (which `StreamRun.Run` proves to be all that matters). */
  ghost function Frames(es: EmitterState, responseId: string, track: bool, hs: seq<Heard>, ending: Ending)
    : seq<ClientFrame>
  {
    EmitAll(es, Drive(track, Begin(responseId), hs, ending))
  }

  /** The upstream's chunks carry the message of `resp`, cut in some way, and then the
      end marker or the end of the stream. */
  ghost predicate Streams(hs: seq<Heard>, ending: Ending, resp: Value) {
    PF.Terminal(hs, ending).Completed? && Agreement.Cuts(PF.Ordinary(hs), Agreement.ReadWhole(resp))
  }

  /** With tracking on, a transport error after the end marker is passed on. */
  predicate LateError(track: bool, ending: Ending) {
    track && ending.Broken?
  }

  /** What tracking adds ends with the transport error, if there is one. */
  predicate EndsAs(evs: seq<Event>, ending: Ending) {
    match ending
    case Clean => forall k :: 0 <= k < |evs| ==> evs[k] == Completed
    case Broken(message) => evs != [] && evs[|evs| - 1] == Error(message, 502)
  }

  lemma {:induction false} DrainEnds(hs: seq<Heard>, ending: Ending)
    ensures EndsAs(PF.DrainEvents(hs, ending), ending)
  {
    if hs != [] {
      DrainEnds(hs[1..], ending);
      var head, rest := if hs[0].Marker? then [Completed] else [], PF.DrainEvents(hs[1..], ending);
      assert PF.DrainEvents(hs, ending) == head + rest;
      assert EndsAs(head + rest, ending);
    }
  }

  lemma {:induction false} ExtraEnds(hs: seq<Heard>, ending: Ending)
    requires PF.Terminal(hs, ending).Completed?
    ensures EndsAs(PF.Extra(hs, ending), ending)
  {
    if hs != [] {
      if hs[0].Marker? { DrainEnds(hs[1..], ending); } else { ExtraEnds(hs[1..], ending); }
    }
  }

  /** The last event of a run that reached its end: `Completed`, unless a late error is
      passed on. A repeated `[DONE]` changes nothing. */
  lemma RunEnds(responseId: string, track: bool, hs: seq<Heard>, ending: Ending)
    returns (before: seq<Event>, last: Event)
    requires PF.Terminal(hs, ending).Completed?
    ensures Drive(track, Begin(responseId), hs, ending) == before + [last]
    ensures last == if LateError(track, ending) then Error(ending.message, 502) else Completed
  {
    var off, extra := PF.Untracked(responseId, hs, ending), if track then PF.Extra(hs, ending) else [];
    PF.DriveParts(responseId, track, hs, ending);
    ExtraEnds(hs, ending);
    if extra == [] {
      before, last := F.Feed(NewParser(responseId), PF.Ordinary(hs)), Completed;
      assert off + [] == off;
    } else {
      before, last := off + extra[..|extra| - 1], extra[|extra| - 1];
      assert extra == extra[..|extra| - 1] + [last];
    }
  }

  lemma StreamedState(responseId: string, track: bool, hs: seq<Heard>, ending: Ending, resp: Value)
    requires Streams(hs, ending, resp)
    ensures var evs := Drive(track, Begin(responseId), hs, ending);
      Agreement.SameMessage(Run(INIT, evs).state, Run(INIT, CompletionSpec(resp, responseId)).state)
  {
    PF.SameBlocks(responseId, track, hs, ending);
    Agreement.CompletionIsWhole(resp, responseId);
    Agreement.CutAgrees(NewParser(responseId), PF.Ordinary(hs), Agreement.ReadWhole(resp));
  }

  /** The frames of the final event come last, made from the state reached before it. */
  lemma LastFrames(es: EmitterState, evs: seq<Event>, ev: Event) returns (before: seq<ClientFrame>, last: EmitterState)
    ensures EmitAll(es, evs + [ev]) == before + FramesFor(last, ev) && before == EmitAll(es, evs)
    ensures last.core == Run(es.core, evs).state && (es.RState? <==> last.RState?)
    ensures Step(last.core, ev).state == Run(es.core, evs + [ev]).state
  {
    before, last := EmitAll(es, evs), AfterAll(es, evs);
    EmitAllAppend(es, evs, [ev]);
    EmitOne(last, ev);
    CoreAfter(es, evs);
    RunSnoc(es.core, evs, ev);
  }

  lemma {:induction false} CoreAfter(es: EmitterState, evs: seq<Event>)
    ensures AfterAll(es, evs).core == Run(es.core, evs).state
    ensures es.RState? <==> AfterAll(es, evs).RState?
    decreases evs
  {
    if evs != [] { CoreAfter(NextState(es, evs[0]), evs[1..]); }
  }

  /** The last frame carries a response object equal to `whole` up to generated ids. */
  predicate Delivers(frames: seq<ClientFrame>, whole: Responses.Response) {
    && frames != [] && frames[|frames| - 1].R? && frames[|frames| - 1].r.body.ResponseCompleted?
    && RF.WithoutIds(frames[|frames| - 1].r.body.response) == RF.WithoutIds(whole)
  }

  lemma ResponsesEnd(es: EmitterState, ev: Event, whole: Responses.Response)
    requires es.RState? && (ev.Completed? || ev.Error?)
    requires ev.Completed? ==> RF.WithoutIds(Responses.Final(Finish(es.core).state)) == RF.WithoutIds(whole)
    ensures FramesFor(es, ev) != [] && (Delivers(FramesFor(es, ev), whole) <==> ev.Completed?)
  {
    var bodies := Responses.Bodies(es.core, ev);
    if ev.Completed? {
      assert bodies[|bodies| - 1] == Responses.ResponseCompleted(Responses.Final(Finish(es.core).state));
    }
  }

  lemma ResponsesRunEnd(evs: seq<Event>, ev: Event, whole: Responses.Response)
    requires ev.Completed? || ev.Error?
    requires RF.WithoutIds(Responses.Final(Run(INIT, evs + [ev]).state)) == RF.WithoutIds(whole)
    ensures Delivers(EmitAll(RState(INIT, 0), evs + [ev]), whole) <==> ev.Completed?
  {
    var before, last := LastFrames(RState(INIT, 0), evs, ev);
    ResponsesEnd(last, ev, whole);
    DeliversAfter(before, FramesFor(last, ev), whole);
  }

  lemma DeliversAfter(before: seq<ClientFrame>, frames: seq<ClientFrame>, whole: Responses.Response)
    requires frames != []
    ensures Delivers(before + frames, whole) <==> Delivers(frames, whole)
  {
    assert (before + frames)[|before + frames| - 1] == frames[|frames| - 1];
  }

  /** The stream ends with this stop reason and usage. */
  predicate Stops(frames: seq<ClientFrame>, reason: string, usage: Anthropic.Counts) {
    && |frames| >= 2
    && frames[|frames| - 2] == A(Anthropic.MessageDelta(reason, usage))
    && frames[|frames| - 1] == A(Anthropic.MessageStop)
  }

  lemma AnthropicEnd(es: EmitterState, ev: Event, before: seq<ClientFrame>)
    requires es.AState? && (ev.Completed? || ev.Error?)
    ensures var s' := Step(es.core, ev).state;
      Stops(before + FramesFor(es, ev), Anthropic.StopReason(s'.called), Anthropic.CountsOf(s'.usage)) <==>
        ev.Completed?
  {
    var f := Anthropic.Frames(es.core, es.started, ev);
    assert f[|f| - 1] == if ev.Completed? then Anthropic.MessageStop else Anthropic.ErrorFrame(ev.message, ev.status);
    assert ev.Completed? ==> |f| >= 2;
  }

  /** Streaming and non-streaming agree end to end, for the Responses dialect: the
      last frame of the stream carries the object that the non-streaming handler
      returns for the whole message, up to generated ids, unless costs are tracked and
      a transport error follows the end marker. */
  lemma StreamEndsWithWholeResponse(responseId: string, track: bool, hs: seq<Heard>, ending: Ending, resp: Value)
    requires Streams(hs, ending, resp)
    ensures var whole := Responses.Final(Run(INIT, CompletionSpec(resp, responseId)).state);
      Delivers(Frames(RState(INIT, 0), responseId, track, hs, ending), whole) <==> !LateError(track, ending)
  {
    var whole := Run(INIT, CompletionSpec(resp, responseId)).state;
    StreamedState(responseId, track, hs, ending, resp);
    var evs, ev := RunEnds(responseId, track, hs, ending);
    RF.SameContentSameResponse(Run(INIT, evs + [ev]).state, whole);
    ResponsesRunEnd(evs, ev, Responses.Final(whole));
  }

  /** The same for the ending of the Anthropic stream: its stop reason and usage are
      those of the whole message, unless a late error comes instead. */
  lemma StreamEndsAsWholeMessage(read: Anthropic.JsonReader, responseId: string, track: bool, hs: seq<Heard>,
                                 ending: Ending, resp: Value)
    requires Streams(hs, ending, resp)
    ensures var whole := Anthropic.Final(read, Run(INIT, CompletionSpec(resp, responseId)).state);
      Stops(Frames(AState(INIT, false), responseId, track, hs, ending), whole.stopReason, whole.usage) <==>
        !LateError(track, ending)
  {
    StreamedState(responseId, track, hs, ending, resp);
    var evs, ev := RunEnds(responseId, track, hs, ending);
    var before, last := LastFrames(AState(INIT, false), evs, ev);
    AF.SameContentSameMessage(read, Run(INIT, evs + [ev]).state, Run(INIT, CompletionSpec(resp, responseId)).state);
    AnthropicEnd(last, ev, before);
  }

  /** The Anthropic frames of a run. */
  ghost function Sent(responseId: string, track: bool, hs: seq<Heard>, ending: Ending): seq<Anthropic.Frame> {
    AF.RunFrames(INIT, false, Drive(track, Begin(responseId), hs, ending))
  }

  lemma SameReading(read: Anthropic.JsonReader, a: seq<Event>, b: seq<Event>)
    requires Run(INIT, a).marks == Run(INIT, b).marks
    ensures AC.ContentRead(read, AF.RunFrames(INIT, false, a)) == AC.ContentRead(read, AF.RunFrames(INIT, false, b))
    ensures AC.AllStopped(AF.RunFrames(INIT, false, a)) <==> AC.AllStopped(AF.RunFrames(INIT, false, b))
  {
    AC.NothingKnown();
    AC.RunShown(INIT, false, a, []);
    AC.RunShown(INIT, false, b, []);
  }

  /** The content that an Anthropic client puts together from the frames it is sent,
      block by block: the blocks of the whole message, each stopped, in another order
      at most; in the same order if the calls' first fragments arrive in ascending
      index order, and, where the calls' ids are distinct, only then. */
  lemma StreamDeliversContent(read: Anthropic.JsonReader, responseId: string, track: bool, hs: seq<Heard>,
                              ending: Ending, resp: Value)
    requires Streams(hs, ending, resp)
    ensures var sent, es := Sent(responseId, track, hs, ending), Agreement.AllEntries(PF.Ordinary(hs));
      var got, whole := AC.ContentRead(read, sent),
        Anthropic.Final(read, Run(INIT, CompletionSpec(resp, responseId)).state).content;
      && Frames(AState(INIT, false), responseId, track, hs, ending) == AFrames(sent)
      && AC.AllStopped(sent) && multiset(got) == multiset(whole)
      && (CC.ArrivesInOrder(es) ==> got == whole)
      && (CC.DistinctIds(Agreement.ReadWhole(resp).entries) ==> (got == whole <==> CC.ArrivesInOrder(es)))
  {
    var p, ds, m := NewParser(responseId), PF.Ordinary(hs), Agreement.ReadWhole(resp);
    PF.AnthropicFrames(INIT, false, Drive(track, Begin(responseId), hs, ending));
    PF.SameBlocks(responseId, track, hs, ending);
    SameReading(read, Drive(track, Begin(responseId), hs, ending), F.Feed(p, ds) + [Completed]);
    CC.FeedNeverReopens(p, ds);
    AC.ClientReadsExactly(read, F.Feed(p, ds));
    CC.ClientReadsPlaces(read, p, ds, m);
    CC.ClientHasAll(read, p, ds, m);
    CC.FinalContent(read, p, ds, m);
    CC.OrderExactly(read, m.reasoning, m.content, Agreement.AllEntries(ds), m.entries);
    StreamedState(responseId, false, hs, ending, resp);
    PF.SameBlocks(responseId, false, hs, ending);
    AF.SameContentSameMessage(read, Run(INIT, F.Feed(p, ds) + [Completed]).state,
      Run(INIT, CompletionSpec(resp, responseId)).state);
  }

  // ----- the streaming handlers, from bytes -----

  /** Stream to a Responses client: whenever the upstream's bytes, in any chunks, carry
      a message, the stream delivers the whole response. */
  method StreamResponse(readers: Readers, responseId: string, track: bool, chunks: seq<Chunk>)
    returns (frames: seq<ClientFrame>)
    ensures var hs, ending := UpstreamHeard(readers, chunks), EndingOf(chunks);
      && frames == Frames(RState(INIT, 0), responseId, track, hs, ending)
      && forall resp :: Streams(hs, ending, resp) ==>
           var whole := Responses.Final(Run(INIT, CompletionSpec(resp, responseId)).state);
           (Delivers(frames, whole) <==> !LateError(track, ending))
  {
    var emitter := new Responses.ResponsesEmitter();
    var run := new StreamRun(readers, responseId, ToResponses(emitter), track);
    frames := run.Run(chunks);
    ghost var hs, ending := UpstreamHeard(readers, chunks), EndingOf(chunks);
    forall resp | Streams(hs, ending, resp)
      ensures Delivers(frames, Responses.Final(Run(INIT, CompletionSpec(resp, responseId)).state))
        <==> !LateError(track, ending)
    {
      StreamEndsWithWholeResponse(responseId, track, hs, ending, resp);
    }
  }

  /** Stream to an Anthropic client: the frames are those of the heard items, so what
      `StreamDeliversContent` and `StreamEndsAsWholeMessage` say holds of the bytes. */
  method StreamMessage(read: Anthropic.JsonReader, readers: Readers, responseId: string, track: bool,
                       chunks: seq<Chunk>)
    returns (frames: seq<ClientFrame>)
    ensures var hs, ending := UpstreamHeard(readers, chunks), EndingOf(chunks);
      var sent := Sent(responseId, track, hs, ending);
      && frames == AFrames(sent)
      && forall resp :: Streams(hs, ending, resp) ==>
           var whole := Anthropic.Final(read, Run(INIT, CompletionSpec(resp, responseId)).state);
           && AC.AllStopped(sent) && multiset(AC.ContentRead(read, sent)) == multiset(whole.content)
           && (CC.ArrivesInOrder(Agreement.AllEntries(PF.Ordinary(hs))) ==> AC.ContentRead(read, sent) == whole.content)
           && (Stops(frames, whole.stopReason, whole.usage) <==> !LateError(track, ending))
  {
    var emitter := new Anthropic.AnthropicEmitter(read);
    var run := new StreamRun(readers, responseId, ToAnthropic(emitter), track);
    frames := run.Run(chunks);
    ghost var hs, ending := UpstreamHeard(readers, chunks), EndingOf(chunks);
    PF.AnthropicFrames(INIT, false, Drive(track, Begin(responseId), hs, ending));
    forall resp | Streams(hs, ending, resp)
      ensures var whole := Anthropic.Final(read, Run(INIT, CompletionSpec(resp, responseId)).state);
        var sent := Sent(responseId, track, hs, ending);
        && AC.AllStopped(sent) && multiset(AC.ContentRead(read, sent)) == multiset(whole.content)
        && (CC.ArrivesInOrder(Agreement.AllEntries(PF.Ordinary(hs))) ==> AC.ContentRead(read, sent) == whole.content)
        && (Stops(frames, whole.stopReason, whole.usage) <==> !LateError(track, ending))
    {
      StreamDeliversContent(read, responseId, track, hs, ending, resp);
      StreamEndsAsWholeMessage(read, responseId, track, hs, ending, resp);
    }
  }
}
