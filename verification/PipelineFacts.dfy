/** The whole pipeline, from what the upstream says to what the client reads. */
module PipelineFacts {
  import opened Canonical
  import opened ChatStream
  import opened Lifecycle
  import opened Blocks
  import opened P = Pipeline
  import BL = BlockLifecycle
  import BC = BlockContent
  import F = ChatStreamFacts
  import RF = ResponsesFacts
  import AF = AnthropicFacts
  import Anthropic
  import Assembly
  import CallRuns
  import Ordered
  import Responses

  // ----- which events are sent -----

  /** The content chunks up to the end marker or the first error chunk. */
  function Ordinary(hs: seq<Heard>): seq<Digest> {
    if hs == [] || hs[0].Marker? then []
    else if hs[0].Noise? then Ordinary(hs[1..])
    else if hs[0].digest.Failure? then []
    else [hs[0].digest] + Ordinary(hs[1..])
  }

  /** The event that ends the run. */
  function Terminal(hs: seq<Heard>, ending: Ending): Event {
    if hs == [] then (if ending.Clean? then Completed else Error(ending.message, 502))
    else match hs[0]
      case Marker => Completed
      case Noise => Terminal(hs[1..], ending)
      case Said(d, _) => if d.Failure? then Error(d.message, d.status) else Terminal(hs[1..], ending)
  }

  /** With tracking off, the events are the parser's over the ordinary chunks and
      then one terminal event. */
  lemma {:induction false} TrackingOff(pr: Progress, hs: seq<Heard>, ending: Ending)
    requires !pr.done && !pr.stopped
    ensures Drive(false, pr, hs, ending) == F.Feed(pr.parser, Ordinary(hs)) + [Terminal(hs, ending)]
    decreases hs
  {
    if hs == [] {
      assert F.Feed(pr.parser, []) == [];
    } else {
      var pr' := AfterItem(false, pr, hs[0]);
      match hs[0]
      case Noise => TrackingOff(pr', hs[1..], ending); NoiseFirst(false, pr, hs, ending);
      case Marker => StoppedFirst(pr, hs, ending);
      case Said(d, _) =>
        if d.Failure? {
          StoppedFirst(pr, hs, ending);
        } else {
          TrackingOff(pr', hs[1..], ending);
          SaidFirst(false, pr, hs, ending);
          assert Ordinary(hs)[1..] == Ordinary(hs[1..]);
          P.Regroup(Emit(pr.parser, d), F.Feed(pr'.parser, Ordinary(hs[1..])), [Terminal(hs, ending)]);
        }
    }
  }

  lemma NoiseFirst(track: bool, pr: Progress, hs: seq<Heard>, ending: Ending)
    requires !pr.stopped && hs != [] && hs[0].Noise?
    ensures Drive(track, pr, hs, ending) == Drive(track, pr, hs[1..], ending)
  {
  }

  lemma SaidFirst(track: bool, pr: Progress, hs: seq<Heard>, ending: Ending)
    requires !pr.stopped && hs != []
    ensures Drive(track, pr, hs, ending) == ItemEvents(pr, hs[0])
      + Drive(track, AfterItem(track, pr, hs[0]), hs[1..], ending)
  {
    var pr' := AfterItem(track, pr, hs[0]);
    P.Regroup(ItemEvents(pr, hs[0]), HeardEvents(track, pr', hs[1..]), Ended(AfterHeard(track, pr', hs[1..]), ending));
  }

  lemma StoppedFirst(pr: Progress, hs: seq<Heard>, ending: Ending)
    requires !pr.done && !pr.stopped && hs != [] && (hs[0].Marker? || (hs[0].Said? && hs[0].digest.Failure?))
    ensures Drive(false, pr, hs, ending) == ItemEvents(pr, hs[0])
  {
    var pr' := AfterItem(false, pr, hs[0]);
    assert HeardEvents(false, pr', hs[1..]) == [] && Ended(AfterHeard(false, pr', hs[1..]), ending) == [];
  }

  lemma {:induction false} OrdinaryIsContent(hs: seq<Heard>)
    ensures forall k :: 0 <= k < |Ordinary(hs)| ==> Ordinary(hs)[k].Content?
  {
    if hs != [] && !hs[0].Marker? { OrdinaryIsContent(hs[1..]); }
  }

  lemma {:induction false} FeedNotTerminal(p: Parser, ds: seq<Digest>)
    requires forall k :: 0 <= k < |ds| ==> ds[k].Content?
    ensures forall k :: 0 <= k < |F.Feed(p, ds)| ==> !F.Feed(p, ds)[k].IsTerminal()
    decreases ds
  {
    if ds != [] {
      P.ErrorsAlone(p, ds[0]);
      FeedNotTerminal(Advance(p, ds[0]), ds[1..]);
    }
  }

  /** Terminal discipline: with tracking off every run sends exactly one terminal
      event, and it is the last. */
  lemma OneTerminalLast(responseId: string, hs: seq<Heard>, ending: Ending)
    ensures var evs := Drive(false, Begin(responseId), hs, ending);
      evs != [] && forall k :: 0 <= k < |evs| ==> (evs[k].IsTerminal() <==> k == |evs| - 1)
  {
    TrackingOff(Begin(responseId), hs, ending);
    OrdinaryIsContent(hs);
    FeedNotTerminal(NewParser(responseId), Ordinary(hs));
    TerminalIsTerminal(hs, ending);
  }

  // ----- what cost tracking changes -----

  /** Events sent while draining after `[DONE]`. */
  function DrainEvents(hs: seq<Heard>, ending: Ending): seq<Event> {
    if hs == [] then (if ending.Broken? then [Error(ending.message, 502)] else [])
    else (if hs[0].Marker? then [Completed] else []) + DrainEvents(hs[1..], ending)
  }

  /** What tracking adds to the run. */
  function Extra(hs: seq<Heard>, ending: Ending): seq<Event> {
    if hs == [] then []
    else match hs[0]
      case Marker => DrainEvents(hs[1..], ending)
      case Noise => Extra(hs[1..], ending)
      case Said(d, _) => if d.Failure? then [] else Extra(hs[1..], ending)
  }

  lemma {:induction false} Draining(pr: Progress, hs: seq<Heard>, ending: Ending)
    requires pr.done && !pr.stopped
    ensures Drive(true, pr, hs, ending) == DrainEvents(hs, ending)
    decreases hs
  {
    if hs != [] {
      SaidFirst(true, pr, hs, ending);
      Draining(AfterItem(true, pr, hs[0]), hs[1..], ending);
    }
  }

  /** Tracking sends what no tracking sends, and then the drained extras. */
  lemma {:induction false} TrackingOn(pr: Progress, hs: seq<Heard>, ending: Ending)
    requires !pr.done && !pr.stopped
    ensures Drive(true, pr, hs, ending) == Drive(false, pr.(tally := NO_TALLY), hs, ending) + Extra(hs, ending)
    decreases hs
  {
    if hs != [] {
      var off := pr.(tally := NO_TALLY);
      var on', off' := AfterItem(true, pr, hs[0]), AfterItem(false, off, hs[0]);
      SaidFirst(true, pr, hs, ending);
      SaidFirst(false, off, hs, ending);
      if hs[0].Marker? {
        Draining(on', hs[1..], ending);
        StoppedFirst(off, hs, ending);
      } else if hs[0].Said? && hs[0].digest.Failure? {
        StoppedFirst(off, hs, ending);
        assert HeardEvents(true, on', hs[1..]) == [] && Ended(AfterHeard(true, on', hs[1..]), ending) == [];
        assert Drive(true, on', hs[1..], ending) == [];
      } else {
        TrackingOn(on', hs[1..], ending);
        P.Regroup(ItemEvents(pr, hs[0]), Drive(false, off', hs[1..], ending), Extra(hs[1..], ending));
      }
    }
  }

  /** Nothing but noise and JSON follows the end marker, and the upstream then ends
      without a transport error. */
  predicate QuietAfterDone(hs: seq<Heard>, ending: Ending) {
    if hs == [] then true
    else match hs[0]
      case Marker => ending.Clean? && forall k :: 1 <= k < |hs| ==> !hs[k].Marker?
      case Noise => QuietAfterDone(hs[1..], ending)
      case Said(d, _) => d.Failure? || QuietAfterDone(hs[1..], ending)
  }

  lemma {:induction false} DrainQuiet(hs: seq<Heard>, ending: Ending)
    ensures DrainEvents(hs, ending) == [] <==> ending.Clean? && forall k :: 0 <= k < |hs| ==> !hs[k].Marker?
  {
    if hs != [] {
      DrainQuiet(hs[1..], ending);
      assert forall k :: 0 <= k < |hs[1..]| ==> hs[1..][k] == hs[k + 1];
      assert forall k :: 1 <= k < |hs| ==> hs[k] == hs[1..][k - 1];
    }
  }

  lemma {:induction false} ExtraQuiet(hs: seq<Heard>, ending: Ending)
    ensures Extra(hs, ending) == [] <==> QuietAfterDone(hs, ending)
  {
    if hs != [] {
      if hs[0].Marker? {
        DrainQuiet(hs[1..], ending);
        assert forall k :: 1 <= k < |hs| ==> hs[1..][k - 1] == hs[k];
        assert forall k :: 0 <= k < |hs[1..]| ==> hs[1..][k] == hs[k + 1];
      } else {
        ExtraQuiet(hs[1..], ending);
      }
    }
  }

  lemma {:induction false} ExtraIsTerminal(hs: seq<Heard>, ending: Ending)
    ensures forall k :: 0 <= k < |Extra(hs, ending)| ==> Extra(hs, ending)[k].IsTerminal()
  {
    if hs != [] {
      if hs[0].Marker? { DrainIsTerminal(hs[1..], ending); } else { ExtraIsTerminal(hs[1..], ending); }
    }
  }

  lemma {:induction false} DrainIsTerminal(hs: seq<Heard>, ending: Ending)
    ensures forall k :: 0 <= k < |DrainEvents(hs, ending)| ==> DrainEvents(hs, ending)[k].IsTerminal()
  {
    if hs != [] { DrainIsTerminal(hs[1..], ending); }
  }

  lemma TerminalFrames(es: EmitterState, evs: seq<Event>)
    requires evs != [] && evs[0].IsTerminal()
    ensures EmitAll(es, evs) != []
  {
    assert FramesFor(es, evs[0]) != [];
  }

  /** Cost tracking leaves the client's frames alone if and only if no `[DONE]` and
      no transport error follows the first `[DONE]`. */
  lemma TrackingIsInvisible(responseId: string, es: EmitterState, hs: seq<Heard>, ending: Ending)
    ensures EmitAll(es, Drive(true, Begin(responseId), hs, ending))
      == EmitAll(es, Drive(false, Begin(responseId), hs, ending))
      <==> QuietAfterDone(hs, ending)
  {
    var pr := Begin(responseId);
    var off, extra := Drive(false, pr, hs, ending), Extra(hs, ending);
    assert pr.(tally := NO_TALLY) == pr;
    TrackingOn(pr, hs, ending);
    ExtraQuiet(hs, ending);
    EmitAllAppend(es, off, extra);
    if extra != [] {
      ExtraIsTerminal(hs, ending);
      TerminalFrames(AfterAll(es, off), extra);
    } else {
      assert off + extra == off;
    }
  }

  /** A second `[DONE]`, and a transport error after the first, are passed on to the
      client when costs are tracked, and only then. */
  lemma TrackingSendsMore(responseId: string, message: string)
    ensures Drive(true, Begin(responseId), [Marker, Marker], Clean) == [Completed, Completed]
    ensures Drive(false, Begin(responseId), [Marker, Marker], Clean) == [Completed]
    ensures Drive(true, Begin(responseId), [Marker], Ending.Broken(message)) == [Completed, Error(message, 502)]
    ensures Drive(false, Begin(responseId), [Marker], Ending.Broken(message)) == [Completed]
  {
    assert [Marker, Marker][1..] == [Marker] && [Marker][1..] == [];
    DriveParts(responseId, true, [Marker, Marker], Clean);
    DriveParts(responseId, false, [Marker, Marker], Clean);
    DriveParts(responseId, true, [Marker], Ending.Broken(message));
    DriveParts(responseId, false, [Marker], Ending.Broken(message));
  }

  /** A stream of nothing but `[DONE]`: the Anthropic client is told how the message
      ended, but never that it started. */
  lemma DoneAlone(responseId: string)
    ensures AF.RunFrames(INIT, false, Drive(false, Begin(responseId), [Marker], Clean))
      == [Anthropic.MessageDelta("end_turn", Anthropic.Counts(0, 0, 0)), Anthropic.MessageStop]
  {
    MarkerAlone(responseId);
    OneEventFrames(INIT, false, Completed);
    IdleStep(INIT, Completed);
    assert Anthropic.RenderAll([]) == [];
  }

  lemma MarkerAlone(responseId: string)
    ensures Drive(false, Begin(responseId), [Marker], Clean) == [Completed]
  {
    assert [Marker][1..] == [];
    DriveParts(responseId, false, [Marker], Clean);
  }

  lemma OneEventFrames(s: State, started: bool, ev: Event)
    ensures AF.RunFrames(s, started, [ev]) == Anthropic.Frames(s, started, ev)
  {
    assert [ev][1..] == [];
    assert Anthropic.Frames(s, started, ev) + [] == Anthropic.Frames(s, started, ev);
  }

  // ----- what the client reads -----

  lemma {:induction false} ResponsesFrames(core: State, seqNo: nat, evs: seq<Event>)
    ensures EmitAll(RState(core, seqNo), evs) == RFrames(RF.RunFrames(core, seqNo, evs))
    decreases evs
  {
    if evs != [] {
      var es, now := RState(core, seqNo), Responses.Number(seqNo, Responses.Bodies(core, evs[0]));
      var core', next := Step(core, evs[0]).state, seqNo + |Responses.Bodies(core, evs[0])|;
      ResponsesFrames(core', next, evs[1..]);
      assert NextState(es, evs[0]) == RState(core', next) && FramesFor(es, evs[0]) == RFrames(now);
      RFramesAppend(now, RF.RunFrames(core', next, evs[1..]));
    }
  }

  lemma RFramesAppend(a: seq<Responses.Frame>, b: seq<Responses.Frame>)
    ensures RFrames(a + b) == RFrames(a) + RFrames(b)
  {
  }

  lemma AFramesAppend(a: seq<Anthropic.Frame>, b: seq<Anthropic.Frame>)
    ensures AFrames(a + b) == AFrames(a) + AFrames(b)
  {
  }

  lemma {:induction false} AnthropicFrames(core: State, started: bool, evs: seq<Event>)
    ensures EmitAll(AState(core, started), evs) == AFrames(AF.RunFrames(core, started, evs))
    decreases evs
  {
    if evs != [] {
      var es, now := AState(core, started), Anthropic.Frames(core, started, evs[0]);
      var core', started' := Step(core, evs[0]).state, started || Anthropic.Announces(evs[0]);
      AnthropicFrames(core', started', evs[1..]);
      assert NextState(es, evs[0]) == AState(core', started') && FramesFor(es, evs[0]) == AFrames(now);
      AFramesAppend(now, AF.RunFrames(core', started', evs[1..]));
    }
  }

  // ----- with or without tracking -----

  /** Nothing is open, as after every `Completed`. */
  ghost predicate Idle(s: State) {
    s.thinking.None? && s.prose.None? && s.calls == map[]
  }

  lemma FinishedIsIdle(s: State)
    ensures Idle(Finish(s).state)
  {
    CloseAllShape(CloseSpoken(s).state);
  }

  lemma IdleStep(s: State, ev: Event)
    requires Idle(s) && ev.IsTerminal()
    ensures Step(s, ev) == Out(s, [])
  {
    Assembly.CloseNothing(s, Ordered.Ascending(s.calls.Keys));
  }

  lemma {:induction false} IdleRun(s: State, evs: seq<Event>)
    requires Idle(s) && forall k :: 0 <= k < |evs| ==> evs[k].IsTerminal()
    ensures Run(s, evs) == Out(s, [])
    decreases evs
  {
    if evs != [] {
      IdleStep(s, evs[0]);
      assert forall k :: 0 <= k < |evs[1..]| ==> evs[1..][k] == evs[k + 1];
      IdleRun(s, evs[1..]);
    }
  }

  lemma {:induction false} ExtraAfterMarker(hs: seq<Heard>, ending: Ending)
    ensures Extra(hs, ending) != [] ==> Terminal(hs, ending).Completed?
  {
    if hs != [] && !hs[0].Marker? { ExtraAfterMarker(hs[1..], ending); }
  }

  /** What a run without tracking sends. */
  ghost function Untracked(responseId: string, hs: seq<Heard>, ending: Ending): seq<Event> {
    F.Feed(NewParser(responseId), Ordinary(hs)) + [Terminal(hs, ending)]
  }

  lemma DriveParts(responseId: string, track: bool, hs: seq<Heard>, ending: Ending)
    ensures Drive(track, Begin(responseId), hs, ending)
      == Untracked(responseId, hs, ending) + if track then Extra(hs, ending) else []
  {
    var pr := Begin(responseId);
    TrackingOff(pr, hs, ending);
    assert pr.(tally := NO_TALLY) == pr;
    if track { TrackingOn(pr, hs, ending); }
    assert Untracked(responseId, hs, ending) + [] == Untracked(responseId, hs, ending);
  }

  /** Whatever tracking adds, the machine makes the same blocks. */
  lemma SameBlocks(responseId: string, track: bool, hs: seq<Heard>, ending: Ending)
    ensures Run(INIT, Drive(track, Begin(responseId), hs, ending)) == Run(INIT, Untracked(responseId, hs, ending))
  {
    var off, extra := Untracked(responseId, hs, ending), Extra(hs, ending);
    DriveParts(responseId, track, hs, ending);
    if track && extra != [] {
      var fed := F.Feed(NewParser(responseId), Ordinary(hs));
      ExtraAfterMarker(hs, ending);
      ExtraIsTerminal(hs, ending);
      RunSnoc(INIT, fed, Completed);
      FinishedIsIdle(Run(INIT, fed).state);
      IdleRun(Run(INIT, off).state, extra);
      RunAppend(INIT, off, extra);
      assert Run(INIT, off).marks + [] == Run(INIT, off).marks;
    } else {
      assert off + [] == off;
    }
  }

  lemma NeverReopens(responseId: string, hs: seq<Heard>)
    ensures BL.NoReopen({}, F.Feed(NewParser(responseId), Ordinary(hs)))
  {
    F.FeedStartsOnce(NewParser(responseId), Ordinary(hs));
    F.StartsOnceNeverReopens({}, {}, F.Feed(NewParser(responseId), Ordinary(hs)));
  }

  /** End to end, whatever the upstream sends and whether or not costs are tracked: if
      the run completes, both dialects' frames are well bracketed, because the parser
      never reopens a call. */
  lemma CompletedRunsAreBracketed(responseId: string, track: bool, hs: seq<Heard>, ending: Ending)
    requires Terminal(hs, ending).Completed?
    ensures var evs := Drive(track, Begin(responseId), hs, ending);
      var next := Run(INIT, evs).state.next;
      && WellBracketed(RF.Signals(RF.RunBodies(INIT, evs)), next)
      && WellBracketed(AF.Signals(AF.RunFrames(INIT, false, evs)), next)
  {
    var evs := Drive(track, Begin(responseId), hs, ending);
    SameBlocks(responseId, track, hs, ending);
    NeverReopens(responseId, hs);
    BL.RunLedger(F.Feed(NewParser(responseId), Ordinary(hs)));
    RF.RunTracks(FRESH, INIT, evs);
    AF.RunTracks(FRESH, INIT, false, evs);
    LedgerDecides(RF.Signals(RF.RunBodies(INIT, evs)));
    LedgerDecides(AF.Signals(AF.RunFrames(INIT, false, evs)));
  }

  lemma ReportedText(evs: seq<Event>, ch: Channel)
    ensures BC.TextOf(RF.Reports(RF.RunBodies(INIT, evs)), ch) == BC.TextOf(Run(INIT, evs).marks, ch)
    ensures BC.TextOf(AF.Reports(AF.RunFrames(INIT, false, evs)), ch) == BC.TextOf(Run(INIT, evs).marks, ch)
  {
    RF.RunReports(INIT, evs);
    AF.RunReports(INIT, false, evs);
    AF.DeltasText(Run(INIT, evs).marks, ch, 0);
  }

  /** End to end, text and reasoning reach the client as the upstream sent them, with
      or without tracking, however the stream ends. */
  lemma TextReachesClient(responseId: string, track: bool, hs: seq<Heard>, ending: Ending, ch: Channel)
    requires ch != Arguments
    ensures var evs := Drive(track, Begin(responseId), hs, ending);
      && BC.TextOf(RF.Reports(RF.RunBodies(INIT, evs)), ch) == F.Fragments(Ordinary(hs), ch)
      && BC.TextOf(AF.Reports(AF.RunFrames(INIT, false, evs)), ch) == F.Fragments(Ordinary(hs), ch)
  {
    var p, ds, last := NewParser(responseId), Ordinary(hs), Terminal(hs, ending);
    SameBlocks(responseId, track, hs, ending);
    ReportedText(Drive(track, Begin(responseId), hs, ending), ch);
    BC.RunMoves(INIT, Untracked(responseId, hs, ending));
    F.FeedTold(p, ds, ch);
    BC.ToldAppend(F.Feed(p, ds), [last], ch);
    TerminalTold(hs, ending, ch);
    assert F.Fragments(ds, ch) + "" == F.Fragments(ds, ch);
  }

  lemma {:induction false} TerminalTold(hs: seq<Heard>, ending: Ending, ch: Channel)
    ensures BC.Told([Terminal(hs, ending)], ch) == "" && Terminal(hs, ending).IsTerminal()
  {
    TerminalIsTerminal(hs, ending);
    F.QuietTold([Terminal(hs, ending)], ch);
  }

  lemma {:induction false} TerminalIsTerminal(hs: seq<Heard>, ending: Ending)
    ensures Terminal(hs, ending).IsTerminal()
  {
    if hs != [] && !hs[0].Marker? { TerminalIsTerminal(hs[1..], ending); }
  }

  /** End to end, the arguments of a tool call reach the client in one block, as the
      upstream sent them up to the call's first finish chunk, with or without tracking;
      on a completed run the finished content holds that call, with the id and name it
      started with. */
  lemma ArgumentsReachClient(responseId: string, track: bool, hs: seq<Heard>, ending: Ending, x: nat) returns (b: nat)
    requires x in F.Starts(F.Feed(NewParser(responseId), Ordinary(hs)))
    ensures var evs := Drive(track, Begin(responseId), hs, ending);
      && BC.BlockText(RF.Reports(RF.RunBodies(INIT, evs)), b) == F.UpstreamArgs({}, Ordinary(hs), x)
      && BC.BlockText(AF.Reports(AF.RunFrames(INIT, false, evs)), b) == F.UpstreamArgs({}, Ordinary(hs), x)
      && var start := CallRuns.StartOf(F.Feed(NewParser(responseId), Ordinary(hs)), x);
      && Open(b, CallKind(start.callId, start.name)) in Run(INIT, evs).marks
      && (Terminal(hs, ending).Completed? ==>
            Sealed(b, Call(start.callId, start.name, F.UpstreamArgs({}, Ordinary(hs), x))) in Run(INIT, evs).state.done)
  {
    var evs := Drive(track, Begin(responseId), hs, ending);
    SameBlocks(responseId, track, hs, ending);
    TerminalTold(hs, ending, Speech);
    b := CallOfRun(NewParser(responseId), Ordinary(hs), Terminal(hs, ending), x);
    RF.RunReports(INIT, evs);
    AF.RunReports(INIT, false, evs);
    AF.DeltasText(Run(INIT, evs).marks, Speech, b);
  }

  lemma CallOfRun(p: Parser, ds: seq<Digest>, last: Event, x: nat) returns (b: nat)
    requires p.started == {} && x in F.Starts(F.Feed(p, ds)) && last.IsTerminal()
    ensures var out, start := Run(INIT, F.Feed(p, ds) + [last]), CallRuns.StartOf(F.Feed(p, ds), x);
      && BC.BlockText(out.marks, b) == F.UpstreamArgs({}, ds, x)
      && Open(b, CallKind(start.callId, start.name)) in out.marks
      && (last.Completed? ==> Sealed(b, Call(start.callId, start.name, F.UpstreamArgs({}, ds, x))) in out.state.done)
  {
    var fed := F.Feed(p, ds);
    F.FeedStartsOnce(p, ds);
    F.NoStartsOnce({} + F.Starts(fed), [last]);
    F.StartsOnceAppend({}, fed, [last]);
    b := CallRuns.CallStreamed(INIT, {}, fed + [last], x);
    F.FeedArgs(p, ds, x);
    LastAddsNothing(fed, last, x);
    CallRuns.StartOfPrefix(fed, [last], x);
  }

  lemma LastAddsNothing(fed: seq<Event>, last: Event, x: nat)
    requires last.IsTerminal()
    ensures F.CallArgs(fed + [last], x) == F.CallArgs(fed, x)
    ensures last.Completed? && x in F.Starts(fed) ==> F.CallEnds(fed + [last], x)
  {
    F.ArgsFromAppend({}, fed, [last], x);
    assert [last][1..] == [];
    assert BC.ArgsUntilDone([], x) == "" && F.CallArgs([], x) == "";
    assert BC.ArgsUntilDone([last], x) == "" && F.CallArgs([last], x) == "";
    assert F.CallArgs(fed, x) + "" == F.CallArgs(fed, x);
    assert {} + F.Starts(fed) == F.Starts(fed);
  }
}
