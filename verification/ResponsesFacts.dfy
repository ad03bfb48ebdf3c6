/** Whole runs of the Responses emitter. */
module ResponsesFacts {
  import opened Canonical
  import opened Lifecycle
  import opened Blocks
  import opened Responses
  import BL = BlockLifecycle
  import BC = BlockContent
  import Agreement
  import Assembly
  import MessageMeta
  import F = ChatStreamFacts
  import CS = ChatStream
  import Json

  /** Payloads of a whole run. */
  ghost function RunBodies(s: State, evs: seq<Event>): seq<Body>
    decreases evs
  {
    if evs == [] then [] else Bodies(s, evs[0]) + RunBodies(Step(s, evs[0]).state, evs[1..])
  }

  /** Frames of a whole run, as successive calls of the emitter number them. */
  ghost function RunFrames(s: State, seqNo: nat, evs: seq<Event>): seq<Frame>
    decreases evs
  {
    if evs == [] then [] else
      Number(seqNo, Bodies(s, evs[0])) + RunFrames(Step(s, evs[0]).state, seqNo + |Bodies(s, evs[0])|, evs[1..])
  }

  /** Frame k of a whole run carries sequence number k. */
  lemma {:induction false} SequenceNumbers(s: State, seqNo: nat, evs: seq<Event>)
    ensures RunFrames(s, seqNo, evs) == Number(seqNo, RunBodies(s, evs))
    decreases evs
  {
    if evs != [] {
      var now, next := Bodies(s, evs[0]), Step(s, evs[0]).state;
      var later := RunBodies(next, evs[1..]);
      SequenceNumbers(next, seqNo + |now|, evs[1..]);
      NumberAppend(seqNo, now, later);
      assert RunBodies(s, evs) == now + later;
      assert RunFrames(s, seqNo, evs) == Number(seqNo, now) + RunFrames(next, seqNo + |now|, evs[1..]);
    }
  }

  lemma NumberAppend(from: nat, a: seq<Body>, b: seq<Body>)
    ensures Number(from, a + b) == Number(from, a) + Number(from + |a|, b)
  {
  }

  // ----- life of an output item -----

  function SignalOf(b: Body): Signal {
    match b
    case ItemAdded(i, _) => Start(i)
    case PartAdded(_, i) => Within(i)
    case SummaryDelta(_, i, _) => Within(i)
    case OutputTextDelta(_, i, _) => Within(i)
    case ArgumentsDelta(_, i, _) => Within(i)
    case OutputTextDone(_, i, _) => Within(i)
    case PartDone(_, i, _) => Within(i)
    case ArgumentsDone(_, i, _) => Within(i)
    case ItemDone(i, _) => End(i)
    case _ => Outside
  }

  function Signals(bodies: seq<Body>): seq<Signal> {
    seq(|bodies|, k requires 0 <= k < |bodies| => SignalOf(bodies[k]))
  }

  lemma SignalsAppend(a: seq<Body>, b: seq<Body>)
    ensures Signals(a + b) == Signals(a) + Signals(b)
  {
  }

  lemma RenderTracks(l: Ledger, m: Mark)
    ensures Track(l, Signals(Render(m))) == Post(l, BL.SignalOf(m))
  {
    var i := m.i;
    TrackShort(l, Start(i), Within(i), Within(i));
    TrackShort(l, End(i), Within(i), Within(i));
    TrackShort(l, Within(i), End(i), Within(i));
    TrackShort(l, Within(i), Within(i), End(i));
    match m
    case Open(_, ReasoningKind) => assert Signals(Render(m)) == [Start(i)];
    case Open(_, ProseKind) => assert Signals(Render(m)) == [Start(i), Within(i)];
    case Open(_, CallKind(_, _)) => assert Signals(Render(m)) == [Start(i)];
    case Delta(_, _, _) => assert Signals(Render(m)) == [Within(i)];
    case Close(_, Reasoning(_)) => assert Signals(Render(m)) == [End(i)];
    case Close(_, Prose(_)) => assert Signals(Render(m)) == [Within(i), Within(i), End(i)];
    case Close(_, Call(_, _, _)) => assert Signals(Render(m)) == [Within(i), End(i)];
  }

  lemma {:induction false} RenderAllTracks(l: Ledger, marks: seq<Mark>)
    ensures Track(l, Signals(RenderAll(marks))) == BL.After(l, marks)
    decreases marks
  {
    if marks == [] {
      assert Signals([]) == [] && BL.Signals([]) == [];
    } else {
      var m := marks[0];
      RenderTracks(l, m);
      RenderAllTracks(Post(l, BL.SignalOf(m)), marks[1..]);
      SignalsAppend(Render(m), RenderAll(marks[1..]));
      TrackAppend(l, Signals(Render(m)), Signals(RenderAll(marks[1..])));
      assert BL.Signals(marks) == [BL.SignalOf(m)] + BL.Signals(marks[1..]);
    }
  }

  lemma BodiesTrack(l: Ledger, s: State, ev: Event)
    ensures Track(l, Signals(Bodies(s, ev))) == BL.After(l, Step(s, ev).marks)
  {
    match ev
    case Created(id, model) => OutsideTracks(l, ResponseCreated(id, model));
    case Error(message, status) => OutsideTracks(l, ResponseFailed(s.responseId, status, message));
    case Completed => CompletedTracks(l, Finish(s).marks, Final(Finish(s).state));
    case _ => RenderAllTracks(l, Step(s, ev).marks);
  }

  lemma OutsideTracks(l: Ledger, b: Body)
    requires SignalOf(b) == Outside
    ensures Track(l, Signals([b])) == l == BL.After(l, [])
  {
    assert Signals([b]) == [Outside] && BL.Signals([]) == [];
    TrackOne(l, Outside);
  }

  lemma CompletedTracks(l: Ledger, marks: seq<Mark>, response: Response)
    ensures Track(l, Signals(RenderAll(marks) + [ResponseCompleted(response)])) == BL.After(l, marks)
  {
    var last := [ResponseCompleted(response)];
    RenderAllTracks(l, marks);
    SignalsAppend(RenderAll(marks), last);
    TrackAppend(l, Signals(RenderAll(marks)), Signals(last));
    OutsideTracks(BL.After(l, marks), ResponseCompleted(response));
  }

  lemma {:induction false} RunTracks(l: Ledger, s: State, evs: seq<Event>)
    ensures Track(l, Signals(RunBodies(s, evs))) == BL.After(l, Run(s, evs).marks)
    decreases evs
  {
    if evs == [] {
      assert Signals([]) == [] && BL.Signals([]) == [];
    } else {
      var a := Step(s, evs[0]);
      BodiesTrack(l, s, evs[0]);
      RunTracks(BL.After(l, a.marks), a.state, evs[1..]);
      SignalsAppend(Bodies(s, evs[0]), RunBodies(a.state, evs[1..]));
      TrackAppend(l, Signals(Bodies(s, evs[0])), Signals(RunBodies(a.state, evs[1..])));
      BL.AfterAppend(l, a.marks, Run(a.state, evs[1..]).marks);
    }
  }

  /** Item lifecycle: on a run ending in `Completed`, each output index below
      `next_output_index` has one added and one done frame around everything else
      about it, and the done frames are a permutation of the added ones, if and
      only if no tool call was started while its index was open. */
  lemma ItemLifecycle(evs: seq<Event>)
    ensures var sigs := Signals(RunBodies(INIT, evs + [Completed]));
      var next := Run(INIT, evs + [Completed]).state.next;
      && (BL.NoReopen({}, evs) ==> WellBracketed(sigs, next) && multiset(Ends(sigs)) == multiset(Below(next)))
      && (!BL.NoReopen({}, evs) ==> forall n: nat :: !WellBracketed(sigs, n))
  {
    var sigs := Signals(RunBodies(INIT, evs + [Completed]));
    RunTracks(FRESH, INIT, evs + [Completed]);
    BL.RunLedger(evs);
    LedgerDecides(sigs);
    if BL.NoReopen({}, evs) { EndsArePermutation(sigs); }
  }

  // ----- what the frames say -----

  /** The machine mark that a frame reports, if it reports one. */
  function Report(b: Body): seq<Mark> {
    match b
    case ItemAdded(i, ReasoningItem(_, _)) => [Open(i, ReasoningKind)]
    case ItemAdded(i, MessageItem(_, _, _)) => [Open(i, ProseKind)]
    case ItemAdded(i, CallItem(_, callId, name, _, _)) => [Open(i, CallKind(callId, name))]
    case SummaryDelta(_, i, text) => [Delta(i, Thought, text)]
    case OutputTextDelta(_, i, text) => [Delta(i, Speech, text)]
    case ArgumentsDelta(_, i, text) => [Delta(i, Arguments, text)]
    case ItemDone(i, ReasoningItem(_, summary)) => if |summary| == 1 then [Close(i, Reasoning(summary[0]))] else []
    case ItemDone(i, MessageItem(_, _, content)) => if |content| == 1 then [Close(i, Prose(content[0]))] else []
    case ItemDone(i, CallItem(_, callId, name, args, _)) => [Close(i, Call(callId, name, args))]
    case _ => []
  }

  function Reports(bodies: seq<Body>): seq<Mark> {
    if bodies == [] then [] else Report(bodies[0]) + Reports(bodies[1..])
  }

  lemma {:induction false} ReportsAppend(a: seq<Body>, b: seq<Body>)
    ensures Reports(a + b) == Reports(a) + Reports(b)
  {
    if a == [] {
      assert a + b == b;
    } else {
      assert (a + b)[0] == a[0] && (a + b)[1..] == a[1..] + b;
      ReportsAppend(a[1..], b);
      assert Report(a[0]) + (Reports(a[1..]) + Reports(b)) == (Report(a[0]) + Reports(a[1..])) + Reports(b);
    }
  }

  lemma ReportsShort(a: Body, b: Body, c: Body)
    ensures Reports([]) == []
    ensures Reports([a]) == Report(a)
    ensures Reports([a, b]) == Report(a) + Report(b)
    ensures Reports([a, b, c]) == Report(a) + Report(b) + Report(c)
  {
    assert [a][1..] == [] && [b][1..] == [] && [c][1..] == [];
    assert Report(a) + [] == Report(a) && Report(b) + [] == Report(b) && Report(c) + [] == Report(c);
    assert [a, b] == [a] + [b] && [a, b, c] == [a, b] + [c];
    ReportsAppend([a], [b]);
    ReportsAppend([a, b], [c]);
  }

  lemma RenderReports(m: Mark)
    ensures Reports(Render(m)) == [m]
  {
    var r := Render(m);
    match m
    case Open(_, ProseKind) => ReportsShort(r[0], r[1], r[1]);
    case Open(_, _) => ReportsShort(r[0], r[0], r[0]);
    case Delta(_, _, _) => ReportsShort(r[0], r[0], r[0]);
    case Close(_, _) => CloseReports(m);
  }

  lemma CloseReports(m: Mark)
    requires m.Close?
    ensures Reports(Render(m)) == [m]
  {
    var r := Render(m);
    match m.part
    case Reasoning(_) => ReportsShort(r[0], r[0], r[0]);
    case Prose(_) => ReportsShort(r[0], r[1], r[2]);
    case Call(_, _, _) => ReportsShort(r[0], r[1], r[1]);
  }

  lemma {:induction false} RenderAllReports(marks: seq<Mark>)
    ensures Reports(RenderAll(marks)) == marks
  {
    if marks != [] {
      RenderReports(marks[0]);
      RenderAllReports(marks[1..]);
      ReportsAppend(Render(marks[0]), RenderAll(marks[1..]));
    }
  }

  lemma CompletedReports(marks: seq<Mark>, response: Response)
    ensures Reports(RenderAll(marks) + [ResponseCompleted(response)]) == marks
  {
    var last := ResponseCompleted(response);
    RenderAllReports(marks);
    ReportsShort(last, last, last);
    ReportsAppend(RenderAll(marks), [last]);
    assert marks + [] == marks;
  }

  lemma BodiesReport(s: State, ev: Event)
    ensures Reports(Bodies(s, ev)) == Step(s, ev).marks
  {
    match ev
    case Created(id, model) => var only := ResponseCreated(id, model); ReportsShort(only, only, only);
    case Error(message, status) =>
      var only := ResponseFailed(s.responseId, status, message);
      ReportsShort(only, only, only);
    case Completed => CompletedReports(Finish(s).marks, Final(Finish(s).state));
    case _ => RenderAllReports(Step(s, ev).marks);
  }

  /** A reader of the frames recovers the machine's marks exactly, so whatever is
      proved of the marks (text, reasoning and arguments conserved, finished parts
      carrying all deltas so far) holds of the frames. */
  lemma {:induction false} RunReports(s: State, evs: seq<Event>)
    ensures Reports(RunBodies(s, evs)) == Run(s, evs).marks
    decreases evs
  {
    if evs != [] {
      var a := Step(s, evs[0]);
      BodiesReport(s, evs[0]);
      RunReports(a.state, evs[1..]);
      ReportsAppend(Bodies(s, evs[0]), RunBodies(a.state, evs[1..]));
    }
  }

  /** Text in, text out: the delta frames of a run join to the texts of its events,
      and each done item reports all deltas of its kind before it. */
  lemma TextConserved(evs: seq<Event>)
    ensures var said := Reports(RunBodies(INIT, evs));
      && BC.TextOf(said, Thought) == BC.Told(evs, Thought)
      && BC.TextOf(said, Speech) == BC.Told(evs, Speech)
      && BC.Carries(said, "", "")
      && Final(Run(INIT, evs).state).output == Items(BC.SealedOf(said))
  {
    RunReports(INIT, evs);
    BC.RunMoves(INIT, evs);
    assert [] + BC.SealedOf(Run(INIT, evs).marks) == BC.SealedOf(Run(INIT, evs).marks);
  }

  /** Items without their generated ids. */
  function Anonymous(items: seq<Item>): seq<Item> {
    seq(|items|, k requires 0 <= k < |items| => Nameless(items[k]))
  }

  function Nameless(item: Item): Item {
    item.(id := Id("", 0))
  }

  function WithoutIds(r: Response): Response {
    r.(output := Anonymous(r.output))
  }

  lemma SameContentSameResponse(a: State, b: State)
    requires Agreement.SameMessage(a, b)
    ensures WithoutIds(Final(a)) == WithoutIds(Final(b))
  {
    assert |a.done| == |Assembly.Parts(a.done)| == |b.done|;
    forall k | 0 <= k < |a.done| ensures Nameless(Items(a.done)[k]) == Nameless(Items(b.done)[k]) {
      assert a.done[k].part == Assembly.Parts(a.done)[k] == Assembly.Parts(b.done)[k] == b.done[k].part;
    }
    assert Anonymous(Items(a.done)) == Anonymous(Items(b.done));
    assert MessageMeta.MetaOf(a) == MessageMeta.MetaOf(b);
  }

  /** Streaming and non-streaming produce the same response object, up to ids. */
  lemma SameResponse(responseId: string, chunks: seq<Json.Value>, resp: Json.Value)
    requires Agreement.Cuts(Agreement.ReadAll(chunks), Agreement.ReadWhole(resp))
    ensures var fed := F.Feed(CS.NewParser(responseId), Agreement.ReadAll(chunks));
      WithoutIds(Final(Run(INIT, fed + [Completed]).state))
      == WithoutIds(Final(Run(INIT, CS.CompletionSpec(resp, responseId)).state))
  {
    Agreement.StreamingAgrees(responseId, chunks, resp);
    SameContentSameResponse(
      Run(INIT, F.Feed(CS.NewParser(responseId), Agreement.ReadAll(chunks)) + [Completed]).state,
      Run(INIT, CS.CompletionSpec(resp, responseId)).state);
  }
}
