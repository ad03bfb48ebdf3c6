/** What a streamed request and a whole one are charged. */
module RequestCharges {
  import opened Wrappers
  import opened Json
  import opened Usage
  import opened UsageReset
  import opened Charging
  import opened Pipeline
  import PF = PipelineFacts
  import Sse

  // ----- the figures of a stream -----

  /** The last present figure among what was heard, looking from the end. */
  function Last<T>(pick: Tally -> Option<T>, hs: seq<Heard>): Option<T> {
    if hs == [] then None else
      var h := hs[|hs| - 1];
      if h.Said? && pick(h.figures).Some? then pick(h.figures) else Last(pick, hs[..|hs| - 1])
  }

  function CostIn(t: Tally): Option<real> { t.cost }
  function PromptIn(t: Tally): Option<nat> { t.prompt }
  function CompletionIn(t: Tally): Option<nat> { t.completion }

  function LastFigures(hs: seq<Heard>): Tally {
    Tally(Last(CostIn, hs), Last(PromptIn, hs), Last(CompletionIn, hs))
  }

  /** A chunk's figures as an upstream writes them. */
  function FiguresJson(cost: Option<Value>, prompt: nat, completion: nat): Value {
    Obj(Put(map["usage" := Obj(map["prompt_tokens" := Int(prompt), "completion_tokens" := Int(completion)])],
      "cost", cost))
  }

  /** Each figure is read from its own key; a cost may be a number, or a string with blanks
      around one. */
  lemma FiguresBack(r: Readers, cost: Option<Value>, prompt: nat, completion: nat)
    requires prompt < U64_RANGE && completion < U64_RANGE
    ensures Sniff(r, FiguresJson(cost, prompt, completion)) == Tally(
      match cost
        case Some(Int(n)) => Some(n as real)
        case Some(Float(x)) => Some(x)
        case Some(Str(s)) => r.number(Sse.Trim(s))
        case _ => None,
      Some(prompt), Some(completion))
  {
    var v := FiguresJson(cost, prompt, completion);
    assert v.Get("cost") == cost;
    assert Field(v.Get("usage"), "prompt_tokens") == Some(Int(prompt));
    assert Field(v.Get("usage"), "completion_tokens") == Some(Int(completion));
  }

  /** Without a `usage` object there are no token figures. */
  lemma NoFigures(r: Readers, model: string)
    ensures Sniff(r, Obj(map["model" := Str(model)])) == Tally(None, None, None)
  {
  }

  /** Everything, but nothing behind an error chunk that comes before the end marker. */
  function Counted(hs: seq<Heard>): seq<Heard> {
    if hs == [] || hs[0].Marker? then hs
    else if hs[0].Said? && hs[0].digest.Failure? then [hs[0]]
    else [hs[0]] + Counted(hs[1..])
  }

  lemma {:induction false} LastOfMore<T>(pick: Tally -> Option<T>, h: Heard, hs: seq<Heard>)
    ensures Last(pick, [h] + hs) == OrElse(Last(pick, hs), if h.Said? then pick(h.figures) else None)
    decreases |hs|
  {
    if hs == [] {
      assert [h] + hs == [h] && [h][..0] == [];
    } else {
      var init := hs[..|hs| - 1];
      assert ([h] + hs)[..|hs|] == [h] + init && ([h] + hs)[|hs|] == hs[|hs| - 1];
      LastOfMore(pick, h, init);
    }
  }

  lemma FiguresOfMore(t: Tally, h: Heard, hs: seq<Heard>)
    ensures Merge(t, LastFigures([h] + hs)) == Merge(if h.Said? then Merge(t, h.figures) else t, LastFigures(hs))
  {
    LastOfMore(CostIn, h, hs);
    LastOfMore(PromptIn, h, hs);
    LastOfMore(CompletionIn, h, hs);
  }

  lemma {:induction false} TallyAfter(pr: Progress, hs: seq<Heard>)
    requires !pr.stopped
    ensures AfterHeard(true, pr, hs).tally == Merge(pr.tally, LastFigures(if pr.done then hs else Counted(hs)))
    decreases hs
  {
    if hs != [] {
      var h, pr' := hs[0], AfterItem(true, pr, hs[0]);
      assert hs == [h] + hs[1..];
      if pr'.stopped {
        FiguresOfMore(pr.tally, h, []);
        assert [h] + [] == [h];
      } else {
        TallyAfter(pr', hs[1..]);
        FiguresOfMore(pr.tally, h, if pr'.done then hs[1..] else Counted(hs[1..]));
      }
    }
  }

  /** A tracked run ends with the last figure of each sort that it read, before or after
      the end marker. */
  lemma TallyIsLast(responseId: string, hs: seq<Heard>)
    ensures AfterHeard(true, Begin(responseId), hs).tally == LastFigures(Counted(hs))
  {
    TallyAfter(Begin(responseId), hs);
  }

  /** A run that completes reads everything. */
  lemma {:induction false} CompletedCountsAll(hs: seq<Heard>, ending: Ending)
    requires PF.Terminal(hs, ending).Completed?
    ensures Counted(hs) == hs
  {
    if hs != [] && !hs[0].Marker? {
      CompletedCountsAll(hs[1..], ending);
      assert hs == [hs[0]] + hs[1..];
    }
  }

  // ----- both handlers -----

  method RecordNonstream(meter: UsageMeter, enabled: bool, provider: string, kinds: seq<Metered>, readers: Readers,
                         resp: Value, now: int)
    modifies meter
    ensures meter.events
      == if enabled then Charge(old(meter.events), provider, kinds, Sniff(readers, resp), now) else old(meter.events)
  {
    if !enabled || kinds == [] { return; }
    RecordAmounts(meter, provider, kinds, Sniff(readers, resp), now);
  }

  /** The recorder's last step, for a stream that was tracked. */
  method RecordTally(meter: UsageMeter, enabled: bool, provider: string, kinds: seq<Metered>, tracked: bool, t: Tally,
                     now: int)
    requires tracked == (enabled && kinds != [])
    modifies meter
    ensures meter.events == if enabled then Charge(old(meter.events), provider, kinds, t, now) else old(meter.events)
  {
    if tracked { RecordAmounts(meter, provider, kinds, t, now); }
  }

  lemma UntrackedCharges(log: Log, provider: string, kinds: seq<Metered>, t: Tally, now: int)
    requires kinds == []
    ensures Charge(log, provider, kinds, t, now) == log
  {
  }

  method Streamed(run: StreamRun, chunks: seq<Chunk>, ghost responseId: string) returns (frames: seq<ClientFrame>)
    requires run.Ready() && run.decoder.buf == [] && run.State() == Begin(responseId)
    modifies run, Object(run.emitter), run.parser, run.decoder
    ensures Emitted(old(StateOf(run.emitter)),
      Drive(run.track, Begin(responseId), UpstreamHeard(run.readers, chunks), EndingOf(chunks)),
      frames, StateOf(run.emitter))
    ensures run.track ==> run.tally == LastFigures(Counted(UpstreamHeard(run.readers, chunks)))
  {
    TallyIsLast(responseId, UpstreamHeard(run.readers, chunks));
    frames := run.Run(chunks);
  }

  /** The stream with its recorder, which is there only if something is metered. */
  method StreamAndRecord(run: StreamRun, enabled: bool, meter: UsageMeter, provider: string, kinds: seq<Metered>,
                         chunks: seq<Chunk>, now: int, ghost responseId: string)
    returns (frames: seq<ClientFrame>)
    requires run.Ready() && run.decoder.buf == [] && run.track == (enabled && kinds != [])
    requires run.State() == Begin(responseId)
    modifies run, Object(run.emitter), run.parser, run.decoder, meter
    ensures Emitted(old(StateOf(run.emitter)),
      Drive(run.track, Begin(responseId), UpstreamHeard(run.readers, chunks), EndingOf(chunks)),
      frames, StateOf(run.emitter))
    ensures meter.events == if enabled
      then Charge(old(meter.events), provider, kinds, LastFigures(Counted(UpstreamHeard(run.readers, chunks))), now)
      else old(meter.events)
  {
    ghost var log, hs := meter.events, UpstreamHeard(run.readers, chunks);
    frames := Streamed(run, chunks, responseId);
    assert meter.events == log;
    ghost var now' := StateOf(run.emitter);
    RecordTally(meter, enabled, provider, kinds, run.track, run.tally, now);
    assert StateOf(run.emitter) == now';
    if kinds == [] {
      UntrackedCharges(log, provider, kinds, run.tally, now);
      UntrackedCharges(log, provider, kinds, LastFigures(Counted(hs)), now);
    }
  }

  // ----- and what they charge -----

  /** On a completed stream both handlers charge the same if the last figures are the
      whole response's; and in any window of at most 31 days and a second they count the
      same exactly when the amounts due are equal. */
  lemma BothCharge(readers: Readers, hs: seq<Heard>, ending: Ending, resp: Value, log: Log, provider: string,
                   kinds: seq<Metered>, now: int, key: Key, secs: nat)
    requires PF.Terminal(hs, ending).Completed? && 0 < secs <= RETAIN_SECS + 1
    ensures var streamed := Charge(log, provider, kinds, LastFigures(Counted(hs)), now);
      var whole := Charge(log, provider, kinds, Sniff(readers, resp), now);
      && (LastFigures(hs) == Sniff(readers, resp) ==> streamed == whole)
      && (SpentAt(EventsOf(streamed, key), secs, now) == SpentAt(EventsOf(whole, key), secs, now) <==>
        TotalDue(kinds, provider, key, LastFigures(hs)) == TotalDue(kinds, provider, key, Sniff(readers, resp)))
  {
    CompletedCountsAll(hs, ending);
    ChargeCounts(log, provider, kinds, LastFigures(hs), now, key, secs);
    ChargeCounts(log, provider, kinds, Sniff(readers, resp), now, key, secs);
  }
}
