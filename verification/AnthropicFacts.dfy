/** Whole runs of the Anthropic emitter. */
module AnthropicFacts {
  import opened Canonical
  import opened Lifecycle
  import opened Blocks
  import opened Anthropic
  import BL = BlockLifecycle
  import BC = BlockContent
  import Agreement
  import Assembly
  import MessageMeta
  import Ordered
  import F = ChatStreamFacts
  import CS = ChatStream
  import Json

  /** Frames of a whole run, as successive calls of the emitter produce them. */
  ghost function RunFrames(s: State, started: bool, evs: seq<Event>): seq<Frame>
    decreases evs
  {
    if evs == [] then [] else
      Frames(s, started, evs[0]) + RunFrames(Step(s, evs[0]).state, started || Announces(evs[0]), evs[1..])
  }

  lemma {:induction false} RunAppends(s: State, started: bool, a: seq<Event>, b: seq<Event>) returns (started': bool)
    ensures RunFrames(s, started, a + b) == RunFrames(s, started, a) + RunFrames(Run(s, a).state, started', b)
    decreases a
  {
    if a == [] {
      assert a + b == b;
      started' := started;
    } else {
      var next, now := Step(s, a[0]).state, started || Announces(a[0]);
      assert (a + b)[0] == a[0] && (a + b)[1..] == a[1..] + b;
      started' := RunAppends(next, now, a[1..], b);
      Joined(Frames(s, started, a[0]), RunFrames(next, now, a[1..]), RunFrames(Run(s, a).state, started', b));
    }
  }

  lemma Joined(a: seq<Frame>, b: seq<Frame>, c: seq<Frame>)
    ensures a + (b + c) == (a + b) + c
  {
  }

  // ----- life of a content block -----

  function SignalOf(f: Frame): Signal {
    match f
    case ContentBlockStart(i, _) => Start(i)
    case ContentBlockDelta(i, _) => Within(i)
    case ContentBlockStop(i) => End(i)
    case _ => Outside
  }

  function Signals(frames: seq<Frame>): seq<Signal> {
    seq(|frames|, k requires 0 <= k < |frames| => SignalOf(frames[k]))
  }

  lemma SignalsAppend(a: seq<Frame>, b: seq<Frame>)
    ensures Signals(a + b) == Signals(a) + Signals(b)
  {
  }

  lemma RenderTracks(l: Ledger, m: Mark)
    ensures Track(l, Signals(Render(m))) == Post(l, BL.SignalOf(m))
  {
    var i := m.i;
    TrackShort(l, BL.SignalOf(m), Outside, Outside);
    TrackShort(l, Within(i), End(i), Outside);
    match m
    case Close(_, Reasoning(_)) => assert Signals(Render(m)) == [Within(i), End(i)];
    case _ => assert Signals(Render(m)) == [BL.SignalOf(m)];
  }

  lemma {:induction false} RenderAllTracks(l: Ledger, marks: seq<Mark>)
    ensures Track(l, Signals(RenderAll(marks))) == BL.After(l, marks)
    decreases marks
  {
    if marks == [] {
      assert Signals([]) == [] && BL.Signals([]) == [];
    } else {
      var m := marks[0];
      RenderTracks(l, m);
      RenderAllTracks(Post(l, BL.SignalOf(m)), marks[1..]);
      SignalsAppend(Render(m), RenderAll(marks[1..]));
      TrackAppend(l, Signals(Render(m)), Signals(RenderAll(marks[1..])));
      assert BL.Signals(marks) == [BL.SignalOf(m)] + BL.Signals(marks[1..]);
    }
  }

  predicate OnlyOutside(frames: seq<Frame>) {
    |frames| <= 2 && forall k :: 0 <= k < |frames| ==> SignalOf(frames[k]) == Outside
  }

  lemma OutsideTracks(l: Ledger, frames: seq<Frame>)
    requires OnlyOutside(frames)
    ensures Track(l, Signals(frames)) == l
  {
    TrackShort(l, Outside, Outside, Outside);
    assert Signals(frames) == if |frames| == 0 then [] else if |frames| == 1 then [Outside] else [Outside, Outside];
  }

  lemma FramesAroundBlocks(s: State, started: bool, ev: Event)
    ensures OnlyOutside(StartFrames(s, started, ev)) && OnlyOutside(EndFrames(s, ev))
  {
  }

  lemma OutsideAround(l: Ledger, a: seq<Frame>, b: seq<Frame>, c: seq<Frame>)
    requires OnlyOutside(a) && OnlyOutside(c)
    ensures Track(l, Signals(a + b + c)) == Track(l, Signals(b))
  {
    OutsideTracks(l, a);
    OutsideTracks(Track(l, Signals(b)), c);
    SignalsAppend(a, b);
    SignalsAppend(a + b, c);
    TrackAppend(l, Signals(a), Signals(b));
    TrackAppend(l, Signals(a + b), Signals(c));
  }

  lemma FramesTrack(l: Ledger, s: State, started: bool, ev: Event)
    ensures Track(l, Signals(Frames(s, started, ev))) == BL.After(l, Step(s, ev).marks)
  {
    var marks := Step(s, ev).marks;
    FramesAroundBlocks(s, started, ev);
    OutsideAround(l, StartFrames(s, started, ev), RenderAll(marks), EndFrames(s, ev));
    RenderAllTracks(l, marks);
  }

  lemma {:induction false} RunTracks(l: Ledger, s: State, started: bool, evs: seq<Event>)
    ensures Track(l, Signals(RunFrames(s, started, evs))) == BL.After(l, Run(s, evs).marks)
    decreases evs
  {
    if evs == [] {
      assert Signals([]) == [] && BL.Signals([]) == [];
    } else {
      var a, started' := Step(s, evs[0]), started || Announces(evs[0]);
      FramesTrack(l, s, started, evs[0]);
      RunTracks(BL.After(l, a.marks), a.state, started', evs[1..]);
      SignalsAppend(Frames(s, started, evs[0]), RunFrames(a.state, started', evs[1..]));
      TrackAppend(l, Signals(Frames(s, started, evs[0])), Signals(RunFrames(a.state, started', evs[1..])));
      BL.AfterAppend(l, a.marks, Run(a.state, evs[1..]).marks);
    }
  }

  /** Block lifecycle: on a run ending in `Completed`, the block indices are exactly
      those below `next_index`, each with one start, one later stop and every delta
      strictly between, if and only if no tool call was started while its index was
      open. */
  lemma BlockLifecycleExact(evs: seq<Event>)
    ensures var sigs := Signals(RunFrames(INIT, false, evs + [Completed]));
      var next := Run(INIT, evs + [Completed]).state.next;
      && (BL.NoReopen({}, evs) ==> WellBracketed(sigs, next) && multiset(Ends(sigs)) == multiset(Below(next)))
      && (!BL.NoReopen({}, evs) ==> forall n: nat :: !WellBracketed(sigs, n))
  {
    var sigs := Signals(RunFrames(INIT, false, evs + [Completed]));
    RunTracks(FRESH, INIT, false, evs + [Completed]);
    BL.RunLedger(evs);
    LedgerDecides(sigs);
    if BL.NoReopen({}, evs) { EndsArePermutation(sigs); }
  }

  /** Two starts on one index: the first call's block is announced and never stopped. */
  lemma RestartedCallStaysOpen(callId: string, name: string)
    ensures var evs := [ToolCallStart(0, callId, name), ToolCallStart(0, callId, name)];
      forall n: nat :: !WellBracketed(Signals(RunFrames(INIT, false, evs + [Completed])), n)
  {
    var start := ToolCallStart(0, callId, name);
    assert [start, start][1..] == [start];
    assert 0 in BL.OpenAfter({}, start);
    assert !BL.NoReopen(BL.OpenAfter({}, start), [start]);
    BlockLifecycleExact([start, start]);
  }

  // ----- message_start -----

  /** `message_start` comes at most once, and before every block frame. */
  predicate StartsFirst(started: bool, frames: seq<Frame>)
    decreases frames
  {
    frames == [] ||
    (if frames[0].MessageStart? then !started && StartsFirst(true, frames[1..])
     else (SignalOf(frames[0]) == Outside || started) && StartsFirst(started, frames[1..]))
  }

  predicate HasStart(frames: seq<Frame>) {
    exists k :: 0 <= k < |frames| && frames[k].MessageStart?
  }

  lemma {:induction false} StartsFirstAppend(started: bool, a: seq<Frame>, b: seq<Frame>)
    requires StartsFirst(started, a) && StartsFirst(started || HasStart(a), b)
    ensures StartsFirst(started, a + b)
    decreases a
  {
    if a == [] {
      assert a + b == b;
    } else {
      assert (a + b)[0] == a[0] && (a + b)[1..] == a[1..] + b;
      HasStartStep(a);
      StartsFirstAppend(started || a[0].MessageStart?, a[1..], b);
    }
  }

  lemma HasStartStep(a: seq<Frame>)
    requires a != []
    ensures HasStart(a) <==> a[0].MessageStart? || HasStart(a[1..])
  {
    if HasStart(a) {
      var k :| 0 <= k < |a| && a[k].MessageStart?;
      if k > 0 { assert a[1..][k - 1].MessageStart?; }
    }
    if HasStart(a[1..]) {
      var k :| 0 <= k < |a[1..]| && a[1..][k].MessageStart?;
      assert a[k + 1].MessageStart?;
    }
  }

  lemma {:induction false} BlockFramesStartFirst(frames: seq<Frame>)
    requires forall k :: 0 <= k < |frames| ==> !frames[k].MessageStart?
    ensures StartsFirst(true, frames) && !HasStart(frames)
    ensures (forall k :: 0 <= k < |frames| ==> SignalOf(frames[k]) == Outside) ==> StartsFirst(false, frames)
    decreases frames
  {
    if frames != [] {
      assert forall k :: 0 <= k < |frames[1..]| ==> frames[1..][k] == frames[k + 1];
      BlockFramesStartFirst(frames[1..]);
    }
  }

  lemma {:induction false} RenderAllNoStart(marks: seq<Mark>)
    ensures forall k :: 0 <= k < |RenderAll(marks)| ==> !RenderAll(marks)[k].MessageStart?
  {
    if marks != [] { RenderAllNoStart(marks[1..]); }
  }

  /** Nothing can be open before the message was announced. */
  ghost predicate Quiet(s: State) {
    s.thinking.None? && s.prose.None? && s.calls == map[]
  }

  lemma StartThenBlocks(start: Frame, blocks: seq<Frame>)
    requires start.MessageStart? && forall k :: 0 <= k < |blocks| ==> !blocks[k].MessageStart?
    ensures StartsFirst(false, [start] + blocks) && HasStart([start] + blocks)
  {
    BlockFramesStartFirst(blocks);
    assert ([start] + blocks)[0] == start && ([start] + blocks)[1..] == blocks;
  }

  lemma BlocksHaveNoStart(marks: seq<Mark>, s: State, ev: Event)
    ensures forall k :: 0 <= k < |RenderAll(marks) + EndFrames(s, ev)| ==>
      !(RenderAll(marks) + EndFrames(s, ev))[k].MessageStart?
  {
    RenderAllNoStart(marks);
  }

  lemma FramesStartFirst(s: State, started: bool, ev: Event)
    requires started || Quiet(s)
    ensures StartsFirst(started, Frames(s, started, ev))
    ensures HasStart(Frames(s, started, ev)) <==> !started && Announces(ev)
    ensures started || Announces(ev) || Quiet(Step(s, ev).state)
  {
    var a, b, c := StartFrames(s, started, ev), RenderAll(Step(s, ev).marks), EndFrames(s, ev);
    BlocksHaveNoStart(Step(s, ev).marks, s, ev);
    if started {
      assert a + b + c == b + c;
      BlockFramesStartFirst(b + c);
    } else if Announces(ev) {
      assert a + b + c == a + (b + c);
      StartThenBlocks(a[0], b + c);
    } else {
      QuietSteps(s, ev);
      FramesAroundBlocks(s, started, ev);
      assert a + b + c == c;
      BlockFramesStartFirst(c);
    }
  }

  lemma QuietSteps(s: State, ev: Event)
    requires Quiet(s) && !Announces(ev)
    ensures Step(s, ev).marks == [] && Quiet(Step(s, ev).state)
  {
    if ev.Completed? {
      Assembly.CloseNothing(s, Ordered.Ascending(s.calls.Keys));
    }
  }

  /** On every run `message_start` is emitted exactly when some event announces the
      message, at most once, and before every block frame. */
  lemma {:induction false} MessageStartOnce(s: State, started: bool, evs: seq<Event>)
    requires started || Quiet(s)
    ensures StartsFirst(started, RunFrames(s, started, evs))
    ensures HasStart(RunFrames(s, started, evs)) <==> !started && exists k :: 0 <= k < |evs| && Announces(evs[k])
    decreases evs
  {
    if evs != [] {
      var ev, rest := evs[0], evs[1..];
      var a, started' := Step(s, ev).state, started || Announces(ev);
      FramesStartFirst(s, started, ev);
      MessageStartOnce(a, started', rest);
      var f, g := Frames(s, started, ev), RunFrames(a, started', rest);
      StartsFirstAppend(started, f, g);
      HasStartAppend(f, g);
      if exists k :: 0 <= k < |evs| && Announces(evs[k]) {
        var k :| 0 <= k < |evs| && Announces(evs[k]);
        if k > 0 { assert Announces(rest[k - 1]); }
      }
      if exists k :: 0 <= k < |rest| && Announces(rest[k]) {
        var k :| 0 <= k < |rest| && Announces(rest[k]);
        assert Announces(evs[k + 1]);
      }
    }
  }

  /** In other words: with the first event that names the message or says something. */
  lemma MessageStartExactly(evs: seq<Event>)
    ensures HasStart(RunFrames(INIT, false, evs)) <==>
      exists k :: 0 <= k < |evs| &&
        (evs[k].Created? || evs[k].ReasoningDelta? || evs[k].TextDelta? || evs[k].ToolCallStart?)
  {
    MessageStartOnce(INIT, false, evs);
    assert forall ev: Event ::
      Announces(ev) <==> ev.Created? || ev.ReasoningDelta? || ev.TextDelta? || ev.ToolCallStart?;
  }

  lemma HasStartAppend(a: seq<Frame>, b: seq<Frame>)
    ensures HasStart(a + b) <==> HasStart(a) || HasStart(b)
  {
    if HasStart(a) { var k :| 0 <= k < |a| && a[k].MessageStart?; assert (a + b)[k].MessageStart?; }
    if HasStart(b) { var k :| 0 <= k < |b| && b[k].MessageStart?; assert (a + b)[|a| + k].MessageStart?; }
  }

  // ----- what the frames say -----

  /** The delta that a frame carries, signatures aside. */
  function Report(f: Frame): seq<Mark> {
    match f
    case ContentBlockDelta(i, ThinkingDelta(text)) => [Delta(i, Thought, text)]
    case ContentBlockDelta(i, TextPiece(text)) => [Delta(i, Speech, text)]
    case ContentBlockDelta(i, InputJsonDelta(text)) => [Delta(i, Arguments, text)]
    case _ => []
  }

  function Reports(frames: seq<Frame>): seq<Mark> {
    if frames == [] then [] else Report(frames[0]) + Reports(frames[1..])
  }

  function Deltas(marks: seq<Mark>): seq<Mark> {
    if marks == [] then [] else (if marks[0].Delta? then [marks[0]] else []) + Deltas(marks[1..])
  }

  lemma {:induction false} ReportsAppend(a: seq<Frame>, b: seq<Frame>)
    ensures Reports(a + b) == Reports(a) + Reports(b)
  {
    if a == [] {
      assert a + b == b;
    } else {
      assert (a + b)[0] == a[0] && (a + b)[1..] == a[1..] + b;
      ReportsAppend(a[1..], b);
      assert Report(a[0]) + (Reports(a[1..]) + Reports(b)) == (Report(a[0]) + Reports(a[1..])) + Reports(b);
    }
  }

  lemma {:induction false} DeltasAppend(a: seq<Mark>, b: seq<Mark>)
    ensures Deltas(a + b) == Deltas(a) + Deltas(b)
  {
    if a == [] {
      assert a + b == b;
    } else {
      assert (a + b)[0] == a[0] && (a + b)[1..] == a[1..] + b;
      DeltasAppend(a[1..], b);
      var head := if a[0].Delta? then [a[0]] else [];
      assert head + (Deltas(a[1..]) + Deltas(b)) == (head + Deltas(a[1..])) + Deltas(b);
    }
  }

  lemma {:induction false} SilentReports(frames: seq<Frame>)
    requires forall k :: 0 <= k < |frames| ==> Report(frames[k]) == []
    ensures Reports(frames) == []
  {
    if frames != [] {
      assert forall k :: 0 <= k < |frames[1..]| ==> frames[1..][k] == frames[k + 1];
      SilentReports(frames[1..]);
    }
  }

  lemma RenderReports(m: Mark)
    ensures Reports(Render(m)) == if m.Delta? then [m] else []
  {
    if m.Delta? {
      assert Render(m)[1..] == [];
      assert Report(Render(m)[0]) + [] == [m];
    } else {
      SilentReports(Render(m));
    }
  }

  lemma {:induction false} RenderAllReports(marks: seq<Mark>)
    ensures Reports(RenderAll(marks)) == Deltas(marks)
  {
    if marks != [] {
      RenderReports(marks[0]);
      RenderAllReports(marks[1..]);
      ReportsAppend(Render(marks[0]), RenderAll(marks[1..]));
    }
  }

  /** A reader of the frames recovers every delta the machine made, in order. */
  lemma {:induction false} RunReports(s: State, started: bool, evs: seq<Event>)
    ensures Reports(RunFrames(s, started, evs)) == Deltas(Run(s, evs).marks)
    decreases evs
  {
    if evs != [] {
      var a, started' := Step(s, evs[0]), started || Announces(evs[0]);
      FramesReport(s, started, evs[0]);
      RunReports(a.state, started', evs[1..]);
      ReportsAppend(Frames(s, started, evs[0]), RunFrames(a.state, started', evs[1..]));
      DeltasAppend(a.marks, Run(a.state, evs[1..]).marks);
    }
  }

  lemma FramesReport(s: State, started: bool, ev: Event)
    ensures Reports(Frames(s, started, ev)) == Deltas(Step(s, ev).marks)
  {
    var a, b, c := StartFrames(s, started, ev), RenderAll(Step(s, ev).marks), EndFrames(s, ev);
    SilentReports(a);
    SilentReports(c);
    RenderAllReports(Step(s, ev).marks);
    ReportsAppend(a, b);
    ReportsAppend(a + b, c);
  }

  lemma {:induction false} DeltasText(marks: seq<Mark>, ch: Channel, i: nat)
    ensures BC.TextOf(Deltas(marks), ch) == BC.TextOf(marks, ch)
    ensures BC.BlockText(Deltas(marks), i) == BC.BlockText(marks, i)
  {
    if marks != [] {
      DeltasText(marks[1..], ch, i);
      if marks[0].Delta? { assert Deltas(marks)[0] == marks[0] && Deltas(marks)[1..] == Deltas(marks[1..]); }
      else { assert Deltas(marks) == Deltas(marks[1..]); }
    }
  }

  /** Text in, text out: the delta frames of a run join to the texts of its events. */
  lemma TextConserved(evs: seq<Event>)
    ensures var said := Reports(RunFrames(INIT, false, evs));
      && BC.TextOf(said, Thought) == BC.Told(evs, Thought)
      && BC.TextOf(said, Speech) == BC.Told(evs, Speech)
  {
    RunReports(INIT, false, evs);
    BC.RunMoves(INIT, evs);
    DeltasText(Run(INIT, evs).marks, Thought, 0);
    DeltasText(Run(INIT, evs).marks, Speech, 0);
  }

  /** The finished content is the closed blocks in closing order, each thinking or
      text block holding all deltas of its kind so far. */
  lemma ContentIsWhatWasSaid(read: JsonReader, evs: seq<Event>)
    ensures var out := Run(INIT, evs);
      && Final(read, out.state).content == Content(read, BC.SealedOf(out.marks))
      && BC.Carries(out.marks, "", "")
  {
    BC.RunMoves(INIT, evs);
    assert [] + BC.SealedOf(Run(INIT, evs).marks) == BC.SealedOf(Run(INIT, evs).marks);
  }

  lemma SameContentSameMessage(read: JsonReader, a: State, b: State)
    requires Agreement.SameMessage(a, b)
    ensures Final(read, a) == Final(read, b)
  {
    assert |a.done| == |Assembly.Parts(a.done)| == |b.done|;
    forall k | 0 <= k < |a.done| ensures Content(read, a.done)[k] == Content(read, b.done)[k] {
      assert a.done[k].part == Assembly.Parts(a.done)[k] == Assembly.Parts(b.done)[k] == b.done[k].part;
    }
    assert Content(read, a.done) == Content(read, b.done);
    assert MessageMeta.MetaOf(a) == MessageMeta.MetaOf(b);
  }

  /** Streaming and non-streaming produce the same message object. */
  lemma SameMessage(read: JsonReader, responseId: string, chunks: seq<Json.Value>, resp: Json.Value)
    requires Agreement.Cuts(Agreement.ReadAll(chunks), Agreement.ReadWhole(resp))
    ensures Final(read, Run(INIT, F.Feed(CS.NewParser(responseId), Agreement.ReadAll(chunks)) + [Completed]).state)
      == Final(read, Run(INIT, CS.CompletionSpec(resp, responseId)).state)
  {
    Agreement.StreamingAgrees(responseId, chunks, resp);
    SameContentSameMessage(read,
      Run(INIT, F.Feed(CS.NewParser(responseId), Agreement.ReadAll(chunks)) + [Completed]).state,
      Run(INIT, CS.CompletionSpec(resp, responseId)).state);
  }
}
