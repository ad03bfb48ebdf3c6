/** Why an Anthropic message stops: a client runs tools exactly when it is told so. */
module AnthropicStop {
  import opened Canonical
  import opened Blocks
  import opened Anthropic
  import opened AnthropicFacts
  import Ordered

  predicate StartsTool(f: Frame) {
    f.ContentBlockStart? && f.block.ToolUse?
  }

  predicate AnyTool(frames: seq<Frame>) {
    exists k :: 0 <= k < |frames| && StartsTool(frames[k])
  }

  function Reason(tool: bool): string {
    if tool then "tool_use" else "end_turn"
  }

  /** Every stop reason says whether a tool was started before it. */
  predicate StopsRight(tool: bool, frames: seq<Frame>)
    decreases frames
  {
    frames == [] ||
    (&& (frames[0].MessageDelta? ==> frames[0].stopReason == Reason(tool))
     && StopsRight(tool || StartsTool(frames[0]), frames[1..]))
  }

  lemma AnyToolStep(frames: seq<Frame>)
    requires frames != []
    ensures AnyTool(frames) <==> StartsTool(frames[0]) || AnyTool(frames[1..])
  {
    if k :| 0 < k < |frames| && StartsTool(frames[k]) { assert StartsTool(frames[1..][k - 1]); }
    if k :| 0 <= k < |frames[1..]| && StartsTool(frames[1..][k]) { assert StartsTool(frames[k + 1]); }
  }

  lemma {:induction false} StopsAppend(tool: bool, a: seq<Frame>, b: seq<Frame>)
    ensures StopsRight(tool, a + b) <==> StopsRight(tool, a) && StopsRight(tool || AnyTool(a), b)
    decreases a
  {
    if a == [] {
      assert a + b == b;
    } else {
      assert (a + b)[0] == a[0] && (a + b)[1..] == a[1..] + b;
      AnyToolStep(a);
      StopsAppend(tool || StartsTool(a[0]), a[1..], b);
    }
  }

  lemma AnyToolAppend(a: seq<Frame>, b: seq<Frame>)
    ensures AnyTool(a + b) <==> AnyTool(a) || AnyTool(b)
  {
    if k :| 0 <= k < |a| && StartsTool(a[k]) { assert StartsTool((a + b)[k]); }
    if k :| 0 <= k < |b| && StartsTool(b[k]) { assert StartsTool((a + b)[|a| + k]); }
  }

  // ----- the machine -----

  predicate OpensCall(marks: seq<Mark>) {
    exists k :: 0 <= k < |marks| && marks[k].Open? && marks[k].kind.CallKind?
  }

  lemma {:induction false} RenderedTools(marks: seq<Mark>)
    ensures AnyTool(RenderAll(marks)) <==> OpensCall(marks)
    ensures forall tool :: StopsRight(tool, RenderAll(marks))
  {
    if marks != [] {
      var first, rest := Render(marks[0]), RenderAll(marks[1..]);
      RenderedTools(marks[1..]);
      AnyToolAppend(first, rest);
      OneRendered(marks[0]);
      OpensStep(marks);
      forall tool ensures StopsRight(tool, RenderAll(marks)) { StopsAppend(tool, first, rest); }
    }
  }

  lemma OneRendered(m: Mark)
    ensures AnyTool(Render(m)) <==> m.Open? && m.kind.CallKind?
    ensures forall tool :: StopsRight(tool, Render(m))
  {
    var r := Render(m);
    if m.Open? && m.kind.CallKind? { assert StartsTool(r[0]); }
    forall tool ensures StopsRight(tool, r) { NoDeltaStops(tool, r); }
  }

  lemma {:induction false} NoDeltaStops(tool: bool, frames: seq<Frame>)
    requires forall k :: 0 <= k < |frames| ==> !frames[k].MessageDelta?
    ensures StopsRight(tool, frames)
    decreases frames
  {
    if frames != [] {
      assert forall k :: 0 <= k < |frames[1..]| ==> frames[1..][k] == frames[k + 1];
      NoDeltaStops(tool || StartsTool(frames[0]), frames[1..]);
    }
  }

  lemma OpensStep(marks: seq<Mark>)
    requires marks != []
    ensures OpensCall(marks) <==> (marks[0].Open? && marks[0].kind.CallKind?) || OpensCall(marks[1..])
  {
    if k :| 0 < k < |marks| && marks[k].Open? && marks[k].kind.CallKind? { assert marks[1..][k - 1] == marks[k]; }
    if k :| 0 <= k < |marks[1..]| && marks[1..][k].Open? && marks[1..][k].kind.CallKind? {
      assert marks[k + 1] == marks[1..][k];
    }
  }

  lemma {:induction false} ClosingOpensNothing(s: State, order: seq<nat>)
    ensures var out := CloseCalls(s, order);
      out.state.called == s.called && forall k :: 0 <= k < |out.marks| ==> out.marks[k].Close?
    decreases order
  {
    if order != [] { ClosingOpensNothing(CloseCall(s, order[0]).state, order[1..]); }
  }

  /** A call has been started exactly when a mark said so. */
  lemma StepCalled(s: State, ev: Event)
    ensures Step(s, ev).state.called <==> s.called || OpensCall(Step(s, ev).marks)
  {
    if ev.ToolCallStart? {
      var marks := Step(s, ev).marks;
      assert marks[|marks| - 1] == Open(CloseSpoken(s).state.next, CallKind(ev.callId, ev.name));
    }
    if ev.Completed? {
      var a := CloseSpoken(s).state;
      ClosingOpensNothing(a, Ordered.Ascending(a.calls.Keys));
    }
  }

  lemma FramesStop(s: State, started: bool, ev: Event)
    ensures StopsRight(s.called, Frames(s, started, ev))
    ensures Step(s, ev).state.called <==> s.called || AnyTool(Frames(s, started, ev))
  {
    var a, b, c := StartFrames(s, started, ev), RenderAll(Step(s, ev).marks), EndFrames(s, ev);
    StepCalled(s, ev);
    RenderedTools(Step(s, ev).marks);
    EdgesStop(s, started, ev);
    StopsAppend(s.called, a, b);
    StopsAppend(s.called, a + b, c);
    AnyToolAppend(a, b);
    AnyToolAppend(a + b, c);
  }

  lemma EdgesStop(s: State, started: bool, ev: Event)
    ensures StopsRight(s.called, StartFrames(s, started, ev)) && !AnyTool(StartFrames(s, started, ev))
    ensures StopsRight(Step(s, ev).state.called, EndFrames(s, ev)) && !AnyTool(EndFrames(s, ev))
  {
    NoDeltaStops(s.called, StartFrames(s, started, ev));
    EndStops(s, ev);
  }

  lemma EndStops(s: State, ev: Event)
    ensures StopsRight(Step(s, ev).state.called, EndFrames(s, ev))
  {
    if ev.Completed? { assert EndFrames(s, ev)[1..] == [MessageStop] && [MessageStop][1..] == []; }
    else { NoDeltaStops(Step(s, ev).state.called, EndFrames(s, ev)); }
  }

  lemma {:induction false} RunStops(s: State, started: bool, evs: seq<Event>)
    ensures StopsRight(s.called, RunFrames(s, started, evs))
    decreases evs
  {
    if evs != [] {
      var next, now := Step(s, evs[0]).state, started || Announces(evs[0]);
      FramesStop(s, started, evs[0]);
      RunStops(next, now, evs[1..]);
      StopsAppend(s.called, Frames(s, started, evs[0]), RunFrames(next, now, evs[1..]));
    }
  }

  lemma {:induction false} StopsAt(tool: bool, frames: seq<Frame>, p: nat)
    requires StopsRight(tool, frames) && p < |frames| && frames[p].MessageDelta?
    ensures frames[p].stopReason == if tool || AnyTool(frames[..p]) then "tool_use" else "end_turn"
    decreases p
  {
    if p == 0 {
      assert frames[..p] == [];
    } else {
      assert frames[..p][1..] == frames[1..][..p - 1];
      AnyToolStep(frames[..p]);
      StopsAt(tool || StartsTool(frames[0]), frames[1..], p - 1);
    }
  }

  /** On every run a `message_delta` says "tool_use" if some frame before it started a tool
      block, and "end_turn" if none did. */
  lemma StopReasonExactly(evs: seq<Event>, p: nat)
    requires p < |RunFrames(INIT, false, evs)| && RunFrames(INIT, false, evs)[p].MessageDelta?
    ensures var frames := RunFrames(INIT, false, evs);
      var told := exists k :: 0 <= k < p && frames[k].ContentBlockStart? && frames[k].block.ToolUse?;
      frames[p].stopReason == if told then "tool_use" else "end_turn"
  {
    var frames := RunFrames(INIT, false, evs);
    RunStops(INIT, false, evs);
    StopsAt(false, frames, p);
    if k :| 0 <= k < p && frames[k].ContentBlockStart? && frames[k].block.ToolUse? {
      assert StartsTool(frames[..p][k]);
    }
  }

  // ----- the finished message -----

  predicate HasCall(done: seq<Sealed>) {
    exists k :: 0 <= k < |done| && done[k].part.Call?
  }

  /** A started call is still open or already finished, even if its index was restarted. */
  ghost predicate Kept(s: State) {
    s.called <==> s.calls != map[] || HasCall(s.done)
  }

  lemma HasCallSnoc(done: seq<Sealed>, d: Sealed)
    ensures HasCall(done + [d]) <==> HasCall(done) || d.part.Call?
  {
    if k :| 0 <= k < |done| && done[k].part.Call? { assert (done + [d])[k].part.Call?; }
    if d.part.Call? { assert (done + [d])[|done|].part.Call?; }
  }

  lemma CloseSpokenKept(s: State)
    requires Kept(s)
    ensures Kept(CloseSpoken(s).state) && CloseSpoken(s).state.calls == s.calls && Kept(CloseThinking(s).state)
  {
    var a := CloseThinking(s).state;
    if s.thinking.Some? { HasCallSnoc(s.done, Sealed(s.thinking.value, Reasoning(s.thinkingText))); }
    if a.prose.Some? { HasCallSnoc(a.done, Sealed(a.prose.value, Prose(a.proseText))); }
  }

  lemma CloseCallKept(s: State, index: nat)
    requires Kept(s)
    ensures Kept(CloseCall(s, index).state)
  {
    if index in s.calls {
      var c := s.calls[index];
      HasCallSnoc(s.done, Sealed(c.i, c.Finished()));
    }
  }

  lemma {:induction false} CloseCallsKept(s: State, order: seq<nat>)
    requires Kept(s)
    ensures Kept(CloseCalls(s, order).state)
    decreases order
  {
    if order != [] {
      CloseCallKept(s, order[0]);
      CloseCallsKept(CloseCall(s, order[0]).state, order[1..]);
    }
  }

  lemma StepKept(s: State, ev: Event)
    requires Kept(s)
    ensures Kept(Step(s, ev).state)
    ensures ev.Completed? ==> Step(s, ev).state.calls == map[]
  {
    CloseSpokenKept(s);
    match ev
    case ToolCallStart(index, _, _) => assert index in Step(s, ev).state.calls;
    case ToolCallArgsDelta(index, _) => if index in s.calls { assert index in Step(s, ev).state.calls; }
    case ToolCallDone(index) => CloseCallKept(s, index);
    case Completed =>
      var a := CloseSpoken(s).state;
      CloseCallsKept(a, Ordered.Ascending(a.calls.Keys));
      CloseAllShape(a);
    case _ =>
  }

  lemma {:induction false} RunKept(s: State, evs: seq<Event>)
    requires Kept(s)
    ensures Kept(Run(s, evs).state)
    decreases evs
  {
    if evs != [] {
      StepKept(s, evs[0]);
      RunKept(Step(s, evs[0]).state, evs[1..]);
    }
  }

  /** On every run ending in `Completed` the final message says "tool_use" if its content
      lists a tool block, and "end_turn" if it lists none. */
  lemma FinalStopExactly(read: JsonReader, evs: seq<Event>)
    ensures var message := Final(read, Run(INIT, evs + [Completed]).state);
      var lists := exists k :: 0 <= k < |message.content| && message.content[k].ToolUse?;
      message.stopReason == if lists then "tool_use" else "end_turn"
  {
    var s, s' := Run(INIT, evs).state, Run(INIT, evs + [Completed]).state;
    RunKept(INIT, evs);
    RunSnoc(INIT, evs, Completed);
    StepKept(s, Completed);
    var content := Content(read, s'.done);
    assert forall k :: 0 <= k < |content| ==> (content[k].ToolUse? <==> s'.done[k].part.Call?);
  }
}
