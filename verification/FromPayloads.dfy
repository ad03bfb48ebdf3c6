/** From a list of JSON payloads, written as an event stream and cut into any chunks, to
    what the client is sent. */
module FromPayloads {
  import opened Wrappers
  import opened Json
  import opened Canonical
  import opened ChatStream
  import opened Blocks
  import opened Pipeline
  import opened EndToEnd
  import opened UpstreamJson
  import opened Delivered
  import S = SseRoundTrip
  import SF = SseForms
  import PF = PipelineFacts
  import AC = AnthropicClient
  import CC = ClientContent
  import Agreement
  import Anthropic
  import Sse

  /** The bytes of the upstream, up to a transport error if there is one, are events in any
      forms whose data are JSON texts of the payloads, then the end marker, then anything. */
  ghost predicate Carries(r: Readers, chunks: seq<Chunk>, payloads: seq<Value>) {
    exists events: seq<SF.Event>, texts: seq<string>, tail: seq<Sse.Item> ::
      Writes(r, events, texts, tail, payloads) && BytesOf(chunks) == SF.StreamFor(events)
  }

  ghost predicate Writes(r: Readers, events: seq<SF.Event>, texts: seq<string>, tail: seq<Sse.Item>,
                         payloads: seq<Value>)
  {
    && SF.AllGood(events) && SF.Meanings(events) == S.DataItems(texts) + [Sse.Done] + tail
    && |texts| == |payloads| && forall k :: 0 <= k < |texts| ==> r.json(texts[k]) == Some(payloads[k])
  }

  /** Payload texts that survive, written plainly and followed by `[DONE]`, carry them. */
  lemma PlainlyCarried(r: Readers, chunks: seq<Chunk>, texts: seq<string>, payloads: seq<Value>)
    requires S.AllRoundTrip(texts) && BytesOf(chunks) == S.Stream(texts + [S.END_MARKER])
    requires |texts| == |payloads| && forall k :: 0 <= k < |texts| ==> r.json(texts[k]) == Some(payloads[k])
    ensures Carries(r, chunks, payloads)
  {
    var all := texts + [S.END_MARKER];
    S.MarkerIsPlain();
    forall k | 0 <= k < |all| ensures all[k] != "" && all[k][0] != '\n' && S.NoTrailingCr(Sse.Split(all[k])) {
      if k < |texts| { assert S.RoundTrips(texts[k]); }
    }
    SF.PlainStream(all);
    SF.StreamRead(SF.PlainAll(all));
    S.MarkedStream(texts);
    assert S.DataItems(texts) + [Sse.Done] + [] == S.DataItems(texts) + [Sse.Done];
    assert Writes(r, SF.PlainAll(all), texts, [], payloads);
  }

  function Told(r: Readers, payloads: seq<Value>): seq<Heard> {
    seq(|payloads|, k requires 0 <= k < |payloads| => Said(Read(payloads[k]), Sniff(r, payloads[k])))
  }

  lemma TextsAreHeard(r: Readers, texts: seq<string>, payloads: seq<Value>)
    requires |texts| == |payloads| && forall k :: 0 <= k < |texts| ==> r.json(texts[k]) == Some(payloads[k])
    ensures HearAll(r, S.DataItems(texts)) == Told(r, payloads)
  {
    forall k | 0 <= k < |texts| ensures Hear(r, Sse.Data(texts[k])) == Told(r, payloads)[k] {
      assert r.json(texts[k]) == Some(payloads[k]);
    }
  }

  /** What is heard is the payloads, in order, and then the end marker. */
  lemma PayloadsAreHeard(r: Readers, chunks: seq<Chunk>, payloads: seq<Value>) returns (later: seq<Heard>)
    requires Carries(r, chunks, payloads)
    ensures UpstreamHeard(r, chunks) == Told(r, payloads) + [Marker] + later
  {
    var events: seq<SF.Event>, texts: seq<string>, tail: seq<Sse.Item> :|
      Writes(r, events, texts, tail, payloads) && BytesOf(chunks) == SF.StreamFor(events);
    SF.StreamRead(events);
    MeaningsHeard(r, texts, tail, payloads);
    later := HearAll(r, tail);
  }

  lemma MeaningsHeard(r: Readers, texts: seq<string>, tail: seq<Sse.Item>, payloads: seq<Value>)
    requires |texts| == |payloads| && forall k :: 0 <= k < |texts| ==> r.json(texts[k]) == Some(payloads[k])
    ensures HearAll(r, S.DataItems(texts) + [Sse.Done] + tail) == Told(r, payloads) + [Marker] + HearAll(r, tail)
  {
    TextsAreHeard(r, texts, payloads);
    HearAppend(r, S.DataItems(texts), [Sse.Done]);
    HearAppend(r, S.DataItems(texts) + [Sse.Done], tail);
    assert HearAll(r, [Sse.Done]) == [Marker];
  }

  /** Content chunks are all heard as ordinary ones. */
  lemma {:induction false} ToldIsOrdinary(r: Readers, payloads: seq<Value>, later: seq<Heard>, ending: Ending)
    requires forall k :: 0 <= k < |payloads| ==> Read(payloads[k]).Content?
    ensures PF.Ordinary(Told(r, payloads) + [Marker] + later) == Agreement.ReadAll(payloads)
    ensures PF.Terminal(Told(r, payloads) + [Marker] + later, ending) == Completed
  {
    if payloads == [] {
      assert Told(r, payloads) + [Marker] + later == [Marker] + later;
    } else {
      ToldStep(r, payloads, later);
      assert forall k :: 0 <= k < |payloads[1..]| ==> payloads[1..][k] == payloads[k + 1];
      ToldIsOrdinary(r, payloads[1..], later, ending);
    }
  }

  lemma ToldStep(r: Readers, payloads: seq<Value>, later: seq<Heard>)
    requires payloads != []
    ensures Agreement.ReadAll(payloads) == [Read(payloads[0])] + Agreement.ReadAll(payloads[1..])
    ensures var hs := Told(r, payloads) + [Marker] + later;
      hs[0] == Said(Read(payloads[0]), Sniff(r, payloads[0])) && hs[1..] == Told(r, payloads[1..]) + [Marker] + later
  {
  }

  // ----- the chunks of a reply -----

  /** Chunks of content within 32 bits. */
  predicate Sendable(ds: seq<Digest>) {
    forall k :: 0 <= k < |ds| ==> ds[k].Content? && Small(ds[k])
  }

  /** The chunks in JSON, each in its own style. */
  function ChunksJson(styles: seq<Style>, ds: seq<Digest>): seq<Value>
    requires |styles| == |ds| && Sendable(ds)
  {
    seq(|ds|, k requires 0 <= k < |ds| => ChunkJson(styles[k], ds[k]))
  }

  /** The upstream sends the reply, cut into the chunks `ds`, as event-stream bytes cut
      anyhow. */
  ghost predicate Sends(r: Readers, chunks: seq<Chunk>, styles: seq<Style>, ds: seq<Digest>, reply: Reply) {
    && |styles| == |ds| && Sendable(ds) && Agreement.Cuts(ds, Whole(reply))
    && Carries(r, chunks, ChunksJson(styles, ds))
  }

  lemma ChunksBack(styles: seq<Style>, ds: seq<Digest>)
    requires |styles| == |ds| && Sendable(ds)
    ensures Agreement.ReadAll(ChunksJson(styles, ds)) == ds
  {
    forall k | 0 <= k < |ds| ensures Read(ChunksJson(styles, ds)[k]) == ds[k] {
      SmallStays(ds[k]);
      ChunkBack(styles[k], ds[k]);
    }
  }

  lemma SentIsBrought(r: Readers, chunks: seq<Chunk>, styles: seq<Style>, ds: seq<Digest>, reply: Reply)
    requires Sends(r, chunks, styles, ds, reply)
    ensures Brings(UpstreamHeard(r, chunks), EndingOf(chunks), reply)
    ensures PF.Ordinary(UpstreamHeard(r, chunks)) == ds
  {
    var payloads := ChunksJson(styles, ds);
    ChunksBack(styles, ds);
    forall k | 0 <= k < |payloads| ensures Read(payloads[k]).Content? {
      assert Read(payloads[k]) == Agreement.ReadAll(payloads)[k];
    }
    var later := PayloadsAreHeard(r, chunks, payloads);
    ToldIsOrdinary(r, payloads, later, EndingOf(chunks));
  }

  /** From the upstream's bytes to the Responses client: the frames that `StreamResponse`
      sends announce the reply first and end with all of it, unless a tracked transport
      error comes after the end marker. */
  lemma ReplyOverResponses(r: Readers, responseId: string, track: bool, chunks: seq<Chunk>, styles: seq<Style>,
                           ds: seq<Digest>, reply: Reply)
    requires Sends(r, chunks, styles, ds, reply)
    ensures var frames := Frames(RState(INIT, 0), responseId, track, UpstreamHeard(r, chunks), EndingOf(chunks));
      DeliversReply(frames, responseId, reply) <==> !LateError(track, EndingOf(chunks))
  {
    SentIsBrought(r, chunks, styles, ds, reply);
    ResponseIsReply(responseId, track, UpstreamHeard(r, chunks), EndingOf(chunks), reply);
  }

  /** And to the Anthropic client: the message is announced under its id and model, the
      blocks put together from what `StreamMessage` sends are the reply's, all stopped, in
      order if the calls start in ascending order, and the stop reason and usage follow. */
  lemma ReplyOverMessages(read: Anthropic.JsonReader, r: Readers, responseId: string, track: bool, chunks: seq<Chunk>,
                          styles: seq<Style>, ds: seq<Digest>, reply: Reply)
    requires Sends(r, chunks, styles, ds, reply) && Countable(reply)
    ensures var sent := Sent(responseId, track, UpstreamHeard(r, chunks), EndingOf(chunks));
      && sent != [] && sent[0] == Anthropic.MessageStart(responseId, reply.model)
      && AC.AllStopped(sent) && multiset(AC.ContentRead(read, sent)) == multiset(BlocksFor(read, reply))
      && (CC.ArrivesInOrder(Agreement.AllEntries(ds)) ==> AC.ContentRead(read, sent) == BlocksFor(read, reply))
      && (StopsLike(sent, reply) <==> !LateError(track, EndingOf(chunks)))
  {
    SentIsBrought(r, chunks, styles, ds, reply);
    MessageIsReply(read, responseId, track, UpstreamHeard(r, chunks), EndingOf(chunks), reply);
  }
}
