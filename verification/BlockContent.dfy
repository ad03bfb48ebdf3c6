/** What the content machine says is what it was told: text, reasoning and call
    arguments pass through unchanged, and every finished block reports them. */
module BlockContent {
  import opened Wrappers
  import opened Canonical
  import opened Blocks
  import Ordered

  function TextOf(marks: seq<Mark>, ch: Channel): string {
    if marks == [] then "" else
      (if marks[0].Delta? && marks[0].channel == ch then marks[0].text else "") + TextOf(marks[1..], ch)
  }

  lemma {:induction false} TextOfAppend(a: seq<Mark>, b: seq<Mark>, ch: Channel)
    ensures TextOf(a + b, ch) == TextOf(a, ch) + TextOf(b, ch)
  {
    if a == [] {
      assert a + b == b;
    } else {
      assert (a + b)[1..] == a[1..] + b;
      TextOfAppend(a[1..], b, ch);
    }
  }

  /** The reasoning (or text) fragments among the events, joined. */
  function Told(evs: seq<Event>, ch: Channel): string {
    if evs == [] then "" else ToldBy(evs[0], ch) + Told(evs[1..], ch)
  }

  function ToldBy(ev: Event, ch: Channel): string {
    match ev
    case ReasoningDelta(text) => if ch == Thought then text else ""
    case TextDelta(text) => if ch == Speech then text else ""
    case _ => ""
  }

  lemma {:induction false} ToldAppend(a: seq<Event>, b: seq<Event>, ch: Channel)
    ensures Told(a + b, ch) == Told(a, ch) + Told(b, ch)
  {
    if a == [] {
      assert a + b == b;
    } else {
      assert (a + b)[1..] == a[1..] + b;
      ToldAppend(a[1..], b, ch);
    }
  }

  function SealedOf(marks: seq<Mark>): seq<Sealed> {
    if marks == [] then [] else
      (if marks[0].Close? then [Sealed(marks[0].i, marks[0].part)] else []) + SealedOf(marks[1..])
  }

  lemma {:induction false} SealedOfAppend(a: seq<Mark>, b: seq<Mark>)
    ensures SealedOf(a + b) == SealedOf(a) + SealedOf(b)
  {
    if a == [] {
      assert a + b == b;
    } else {
      assert (a + b)[0] == a[0] && (a + b)[1..] == a[1..] + b;
      SealedOfAppend(a[1..], b);
      var head := if a[0].Close? then [Sealed(a[0].i, a[0].part)] else [];
      assert head + (SealedOf(a[1..]) + SealedOf(b)) == (head + SealedOf(a[1..])) + SealedOf(b);
    }
  }

  /** Each closing reasoning (text) part carries `thought` (`speech`) plus every
      delta of its kind before it. */
  ghost predicate Carries(marks: seq<Mark>, thought: string, speech: string) {
    forall p: nat :: p < |marks| ==> CarriesAt(marks[p], marks[..p], thought, speech)
  }

  ghost predicate CarriesAt(m: Mark, before: seq<Mark>, thought: string, speech: string) {
    && (m.Close? && m.part.Reasoning? ==> m.part.text == thought + TextOf(before, Thought))
    && (m.Close? && m.part.Prose? ==> m.part.text == speech + TextOf(before, Speech))
  }

  lemma CarriesAppend(a: seq<Mark>, b: seq<Mark>, thought: string, speech: string)
    requires Carries(a, thought, speech)
    requires Carries(b, thought + TextOf(a, Thought), speech + TextOf(a, Speech))
    ensures Carries(a + b, thought, speech)
  {
    forall p: nat | p < |a + b| ensures CarriesAt((a + b)[p], (a + b)[..p], thought, speech) {
      if p < |a| {
        assert (a + b)[..p] == a[..p];
        assert CarriesAt(a[p], a[..p], thought, speech);
      } else {
        CarriesLater(a, b, p - |a|, thought, speech);
        assert (a + b)[..p] == a + b[..p - |a|];
      }
    }
  }

  lemma CarriesLater(a: seq<Mark>, b: seq<Mark>, p: nat, thought: string, speech: string)
    requires p < |b| && CarriesAt(b[p], b[..p], thought + TextOf(a, Thought), speech + TextOf(a, Speech))
    ensures CarriesAt(b[p], a + b[..p], thought, speech)
  {
    TextOfAppend(a, b[..p], Thought);
    TextOfAppend(a, b[..p], Speech);
    Joined(thought, TextOf(a, Thought), TextOf(b[..p], Thought));
    Joined(speech, TextOf(a, Speech), TextOf(b[..p], Speech));
  }

  lemma Joined(a: string, b: string, c: string)
    ensures (a + b) + c == a + (b + c)
  {
  }

  /** How a piece of the machine moves: `out` follows `s`, hearing `thought` and `speech`. */
  ghost predicate Moves(s: State, out: Out, thought: string, speech: string) {
    && TextOf(out.marks, Thought) == thought && TextOf(out.marks, Speech) == speech
    && out.state.thinkingText == s.thinkingText + thought
    && out.state.proseText == s.proseText + speech
    && out.state.done == s.done + SealedOf(out.marks)
    && Carries(out.marks, s.thinkingText, s.proseText)
  }

  lemma MovesThen(s: State, a: Out, b: Out, t1: string, p1: string, t2: string, p2: string)
    requires Moves(s, a, t1, p1) && Moves(a.state, b, t2, p2)
    ensures Moves(s, Out(b.state, a.marks + b.marks), t1 + t2, p1 + p2)
  {
    TextOfAppend(a.marks, b.marks, Thought);
    TextOfAppend(a.marks, b.marks, Speech);
    SealedOfAppend(a.marks, b.marks);
    CarriesAppend(a.marks, b.marks, s.thinkingText, s.proseText);
    Joined(s.thinkingText, t1, t2);
    Joined(s.proseText, p1, p2);
    assert (s.done + SealedOf(a.marks)) + SealedOf(b.marks) == s.done + (SealedOf(a.marks) + SealedOf(b.marks));
  }

  lemma OneMark(m: Mark, ch: Channel)
    ensures TextOf([m], ch) == if m.Delta? && m.channel == ch then m.text else ""
    ensures SealedOf([m]) == if m.Close? then [Sealed(m.i, m.part)] else []
  {
    assert [m][1..] == [];
    assert TextOf([m][1..], ch) == "";
  }

  lemma QuietMove(s: State, s': State)
    requires s'.thinkingText == s.thinkingText && s'.proseText == s.proseText && s'.done == s.done
    ensures Moves(s, Out(s', []), "", "")
  {
  }

  lemma OpeningMove(s: State, s': State, i: nat, kind: Kind)
    requires s'.thinkingText == s.thinkingText && s'.proseText == s.proseText && s'.done == s.done
    ensures Moves(s, Out(s', [Open(i, kind)]), "", "")
  {
    OneMark(Open(i, kind), Thought);
    OneMark(Open(i, kind), Speech);
  }

  lemma ClosingMove(s: State, s': State, i: nat, part: Part)
    requires s'.thinkingText == s.thinkingText && s'.proseText == s.proseText && s'.done == s.done + [Sealed(i, part)]
    requires (part.Reasoning? ==> part.text == s.thinkingText) && (part.Prose? ==> part.text == s.proseText)
    ensures Moves(s, Out(s', [Close(i, part)]), "", "")
  {
    var m := Close(i, part);
    OneMark(m, Thought);
    OneMark(m, Speech);
    assert [m][..0] == [];
    assert s.thinkingText + "" == s.thinkingText && s.proseText + "" == s.proseText;
  }

  lemma DeltaMove(s: State, s': State, i: nat, ch: Channel, text: string)
    requires s'.done == s.done
    requires s'.thinkingText == s.thinkingText + if ch == Thought then text else ""
    requires s'.proseText == s.proseText + if ch == Speech then text else ""
    ensures Moves(s, Out(s', [Delta(i, ch, text)]),
      if ch == Thought then text else "", if ch == Speech then text else "")
  {
    OneMark(Delta(i, ch, text), Thought);
    OneMark(Delta(i, ch, text), Speech);
  }

  lemma CloseSpokenMoves(s: State)
    ensures Moves(s, CloseSpoken(s), "", "")
  {
    CloseThinkingMoves(s);
    var a := CloseThinking(s);
    CloseProseMoves(a.state);
    MovesThen(s, a, CloseProse(a.state), "", "", "", "");
  }

  lemma CloseThinkingMoves(s: State)
    ensures Moves(s, CloseThinking(s), "", "")
  {
    if s.thinking.Some? {
      ClosingMove(s, CloseThinking(s).state, s.thinking.value, Reasoning(s.thinkingText));
    } else {
      QuietMove(s, s);
    }
  }

  lemma CloseProseMoves(s: State)
    ensures Moves(s, CloseProse(s), "", "")
  {
    if s.prose.Some? {
      ClosingMove(s, CloseProse(s).state, s.prose.value, Prose(s.proseText));
    } else {
      QuietMove(s, s);
    }
  }

  lemma CloseCallMoves(s: State, index: nat)
    ensures Moves(s, CloseCall(s, index), "", "")
  {
    if index in s.calls {
      var c := s.calls[index];
      ClosingMove(s, CloseCall(s, index).state, c.i, c.Finished());
    } else {
      QuietMove(s, s);
    }
  }

  lemma {:induction false} CloseCallsMoves(s: State, order: seq<nat>)
    ensures Moves(s, CloseCalls(s, order), "", "")
    decreases order
  {
    if order == [] {
      QuietMove(s, s);
    } else {
      CloseCallMoves(s, order[0]);
      var a := CloseCall(s, order[0]);
      CloseCallsMoves(a.state, order[1..]);
      MovesThen(s, a, CloseCalls(a.state, order[1..]), "", "", "", "");
    }
  }

  lemma ReasoningMoves(s: State, text: string)
    ensures Moves(s, Think(s, text), text, "")
  {
    var a := OpenThinking(s);
    if s.thinking.None? { OpeningMove(s, a.state, s.next, ReasoningKind); } else { QuietMove(s, s); }
    var i := a.state.thinking.value;
    var s' := a.state.(thinkingText := s.thinkingText + text);
    DeltaMove(a.state, s', i, Thought, text);
    MovesThen(s, a, Out(s', [Delta(i, Thought, text)]), "", "", text, "");
    assert "" + text == text;
  }

  lemma TextMoves(s: State, text: string)
    ensures Moves(s, Speak(s, text), "", text)
  {
    CloseThinkingMoves(s);
    var a := CloseThinking(s);
    var b := OpenProse(a.state);
    if a.state.prose.None? {
      OpeningMove(a.state, b.state, a.state.next, ProseKind);
    } else {
      QuietMove(a.state, a.state);
    }
    MovesThen(s, a, b, "", "", "", "");
    var i := b.state.prose.value;
    var s' := b.state.(proseText := s.proseText + text);
    DeltaMove(b.state, s', i, Speech, text);
    MovesThen(s, Out(b.state, a.marks + b.marks), Out(s', [Delta(i, Speech, text)]), "", "", "", text);
    assert "" + text == text;
  }

  lemma StepMoves(s: State, ev: Event)
    ensures Moves(s, Step(s, ev), ToldBy(ev, Thought), ToldBy(ev, Speech))
  {
    match ev
    case ReasoningDelta(text) => ReasoningMoves(s, text);
    case TextDelta(text) => TextMoves(s, text);
    case ToolCallStart(index, callId, name) =>
      CloseSpokenMoves(s);
      var a := CloseSpoken(s);
      var b := OpenNewCall(a.state, index, callId, name);
      OpeningMove(a.state, b.state, a.state.next, CallKind(callId, name));
      MovesThen(s, a, b, "", "", "", "");
    case ToolCallArgsDelta(index, delta) =>
      if index in s.calls {
        DeltaMove(s, Step(s, ev).state, s.calls[index].i, Arguments, delta);
      } else {
        QuietMove(s, s);
      }
    case ToolCallDone(index) => CloseCallMoves(s, index);
    case Completed =>
      CloseSpokenMoves(s);
      var a := CloseSpoken(s);
      var order := Ordered.Ascending(a.state.calls.Keys);
      CloseCallsMoves(a.state, order);
      MovesThen(s, a, CloseCalls(a.state, order), "", "", "", "");
    case _ => QuietMove(s, Step(s, ev).state);
  }

  /** Nothing lost, invented or reordered: the deltas a run emits on the reasoning
      and text channels join to what its events carried, every finished reasoning
      or text part reports all deltas of its kind so far, and the finished content
      is the sequence of closed parts. */
  lemma {:induction false} RunMoves(s: State, evs: seq<Event>)
    ensures Moves(s, Run(s, evs), Told(evs, Thought), Told(evs, Speech))
    decreases evs
  {
    if evs == [] {
      QuietMove(s, s);
    } else {
      StepMoves(s, evs[0]);
      var a := Step(s, evs[0]);
      RunMoves(a.state, evs[1..]);
      MovesThen(s, a, Run(a.state, evs[1..]), ToldBy(evs[0], Thought), ToldBy(evs[0], Speech),
        Told(evs[1..], Thought), Told(evs[1..], Speech));
    }
  }

  lemma StepHears(s: State, ev: Event)
    ensures Step(s, ev).state.thinkingText == s.thinkingText + ToldBy(ev, Thought)
    ensures Step(s, ev).state.proseText == s.proseText + ToldBy(ev, Speech)
  {
    assert s.thinkingText + "" == s.thinkingText && s.proseText + "" == s.proseText;
    if ev.Completed? { CloseAllShape(CloseSpoken(s).state); }
  }

  /** The text buffers hold everything that was told. */
  lemma {:induction false} RunHears(s: State, evs: seq<Event>)
    ensures Run(s, evs).state.thinkingText == s.thinkingText + Told(evs, Thought)
    ensures Run(s, evs).state.proseText == s.proseText + Told(evs, Speech)
    decreases evs
  {
    if evs == [] {
      assert s.thinkingText + "" == s.thinkingText && s.proseText + "" == s.proseText;
    } else {
      StepHears(s, evs[0]);
      RunHears(Step(s, evs[0]).state, evs[1..]);
      Joined(s.thinkingText, ToldBy(evs[0], Thought), Told(evs[1..], Thought));
      Joined(s.proseText, ToldBy(evs[0], Speech), Told(evs[1..], Speech));
    }
  }

  // ----- arguments of one call -----

  /** Text of the deltas that name block `i`. */
  function BlockText(marks: seq<Mark>, i: nat): string {
    if marks == [] then "" else
      (if marks[0].Delta? && marks[0].i == i then marks[0].text else "") + BlockText(marks[1..], i)
  }

  lemma {:induction false} BlockTextAppend(a: seq<Mark>, b: seq<Mark>, i: nat)
    ensures BlockText(a + b, i) == BlockText(a, i) + BlockText(b, i)
  {
    if a == [] {
      assert a + b == b;
    } else {
      assert (a + b)[1..] == a[1..] + b;
      BlockTextAppend(a[1..], b, i);
    }
  }

  /** Argument fragments for upstream index `x` up to the first end of its call. */
  function ArgsUntilDone(evs: seq<Event>, x: nat): string {
    if evs == [] || Ends(evs[0], x) then "" else ArgsBy(evs[0], x) + ArgsUntilDone(evs[1..], x)
  }

  predicate Ends(ev: Event, x: nat) {
    ev.Completed? || ev == ToolCallDone(x)
  }

  function ArgsBy(ev: Event, x: nat): string {
    if ev.ToolCallArgsDelta? && ev.index == x then ev.delta else ""
  }

  /** No delta among `marks` names block `i`. */
  ghost predicate Silent(marks: seq<Mark>, i: nat) {
    forall p :: 0 <= p < |marks| && marks[p].Delta? ==> marks[p].i != i
  }

  lemma {:induction false} SilentText(marks: seq<Mark>, i: nat)
    requires Silent(marks, i)
    ensures BlockText(marks, i) == ""
  {
    if marks != [] {
      assert forall p :: 0 <= p < |marks[1..]| ==> marks[1..][p] == marks[p + 1];
      SilentText(marks[1..], i);
    }
  }

  lemma {:induction false} CloseCallsSilent(s: State, order: seq<nat>, i: nat)
    ensures Silent(CloseCalls(s, order).marks, i)
    decreases order
  {
    if order != [] { CloseCallsSilent(CloseCall(s, order[0]).state, order[1..], i); }
  }

  ghost predicate Dead(s: State, i: nat) {
    i < s.next && s.thinking != Some(i) && s.prose != Some(i) && forall x :: x in s.calls ==> s.calls[x].i != i
  }

  lemma CloseAllSilent(s: State, i: nat)
    requires Dead(s, i)
    ensures Silent(CloseAllCalls(s).marks, i) && Dead(CloseAllCalls(s).state, i)
  {
    var order := Ordered.Ascending(s.calls.Keys);
    CloseCallsSilent(s, order, i);
    CloseCallsShape(s, order);
  }

  lemma CompletedSilent(s: State, i: nat)
    requires Dead(s, i)
    ensures Silent(Finish(s).marks, i) && Dead(Finish(s).state, i)
  {
    CloseAllSilent(CloseSpoken(s).state, i);
  }

  /** A block that is allocated and no longer open gets no further delta. */
  lemma StepSilent(s: State, ev: Event, i: nat)
    requires Dead(s, i)
    ensures Silent(Step(s, ev).marks, i) && Dead(Step(s, ev).state, i)
  {
    if ev.Completed? { CompletedSilent(s, i); }
  }

  lemma {:induction false} DeadBlock(s: State, evs: seq<Event>, i: nat)
    requires Dead(s, i)
    ensures BlockText(Run(s, evs).marks, i) == ""
    decreases evs
  {
    if evs != [] {
      StepSilent(s, evs[0], i);
      var a := Step(s, evs[0]);
      DeadBlock(a.state, evs[1..], i);
      SilentText(a.marks, i);
      BlockTextAppend(a.marks, Run(a.state, evs[1..]).marks, i);
    }
  }

  /** Call `x` is open and no other open thing uses its block. */
  ghost predicate Owns(s: State, x: nat) {
    && x in s.calls && s.calls[x].i < s.next
    && s.thinking != Some(s.calls[x].i) && s.prose != Some(s.calls[x].i)
    && forall y :: y in s.calls && y != x ==> s.calls[y].i != s.calls[x].i
  }

  /** Call `x` does not start again before it ends. */
  predicate NoRestart(evs: seq<Event>, x: nat) {
    evs == [] || Ends(evs[0], x) || (!(evs[0].ToolCallStart? && evs[0].index == x) && NoRestart(evs[1..], x))
  }

  predicate HasEnd(evs: seq<Event>, x: nat) {
    evs != [] && (Ends(evs[0], x) || HasEnd(evs[1..], x))
  }

  lemma {:induction false} CloseCallsSeals(s: State, order: seq<nat>, x: nat)
    requires Owns(s, x) && x in order
    ensures Sealed(s.calls[x].i, s.calls[x].Finished()) in CloseCalls(s, order).state.done
    ensures Dead(CloseCalls(s, order).state, s.calls[x].i)
    decreases order
  {
    var a := CloseCall(s, order[0]).state;
    if order[0] == x {
      CloseCallsShape(a, order[1..]);
      CloseCallsMoves(a, order[1..]);
      assert Sealed(s.calls[x].i, s.calls[x].Finished()) in a.done;
    } else {
      CloseCallsSeals(a, order[1..], x);
    }
  }

  lemma CloseAllSeals(s: State, x: nat)
    requires Owns(s, x)
    ensures var i, out := s.calls[x].i, CloseAllCalls(s);
      Silent(out.marks, i) && Dead(out.state, i) && Sealed(i, s.calls[x].Finished()) in out.state.done
  {
    var order := Ordered.Ascending(s.calls.Keys);
    CloseCallsSilent(s, order, s.calls[x].i);
    assert x in Ordered.Elements(order);
    CloseCallsSeals(s, order, x);
  }

  lemma SpokenKeepsCall(s: State, x: nat)
    requires Owns(s, x)
    ensures var out := CloseSpoken(s);
      out.state.calls == s.calls && Owns(out.state, x) && Silent(out.marks, s.calls[x].i)
  {
  }

  lemma CompletedSeals(s: State, x: nat)
    requires Owns(s, x)
    ensures var i, out := s.calls[x].i, Finish(s);
      Silent(out.marks, i) && Dead(out.state, i) && Sealed(i, s.calls[x].Finished()) in out.state.done
  {
    var a := CloseSpoken(s);
    SpokenKeepsCall(s, x);
    CloseAllSeals(a.state, x);
  }

  lemma EndSeals(s: State, ev: Event, x: nat)
    requires Owns(s, x) && Ends(ev, x)
    ensures var i, out := s.calls[x].i, Step(s, ev);
      Silent(out.marks, i) && Dead(out.state, i) && Sealed(i, s.calls[x].Finished()) in out.state.done
  {
    if ev.Completed? { CompletedSeals(s, x); }
  }

  lemma StepKeepsCall(s: State, ev: Event, x: nat)
    requires Owns(s, x) && !Ends(ev, x) && !(ev.ToolCallStart? && ev.index == x)
    ensures var c, out := s.calls[x], Step(s, ev);
      && Owns(out.state, x) && out.state.calls[x] == c.(args := c.args + ArgsBy(ev, x))
      && BlockText(out.marks, c.i) == ArgsBy(ev, x)
  {
    if ev.ToolCallArgsDelta? && ev.index == x {
      FeedKeepsCall(s, x, ev.delta);
    } else {
      var c := s.calls[x];
      assert c.args + "" == c.args;
      OtherKeepsCall(s, ev, x);
      SilentText(Step(s, ev).marks, c.i);
    }
  }

  lemma FeedKeepsCall(s: State, x: nat, delta: string)
    requires Owns(s, x)
    ensures var c, out := s.calls[x], FeedCall(s, x, delta);
      && Owns(out.state, x) && out.state.calls[x] == c.(args := c.args + delta)
      && BlockText(out.marks, c.i) == delta
  {
    var c := s.calls[x];
    assert [Delta(c.i, Arguments, delta)][1..] == [];
    assert BlockText([], c.i) == "" && delta + "" == delta;
  }

  /** Any other event leaves the call as it is and says nothing about its block. */
  lemma OtherKeepsCall(s: State, ev: Event, x: nat)
    requires Owns(s, x) && !Ends(ev, x) && !(ev.ToolCallStart? && ev.index == x)
    requires !(ev.ToolCallArgsDelta? && ev.index == x)
    ensures var out := Step(s, ev);
      Owns(out.state, x) && out.state.calls[x] == s.calls[x] && Silent(out.marks, s.calls[x].i)
  {
    match ev
    case ReasoningDelta(text) =>
    case TextDelta(text) =>
    case ToolCallStart(index, callId, name) => SpokenKeepsCall(s, x);
    case ToolCallArgsDelta(index, delta) =>
    case ToolCallDone(index) =>
    case _ =>
  }

  /** The run's first event ends the call: later fragments are dropped. */
  lemma EndedCall(s: State, evs: seq<Event>, x: nat)
    requires Owns(s, x) && evs != [] && Ends(evs[0], x)
    ensures var c, out := s.calls[x], Run(s, evs);
      BlockText(out.marks, c.i) == "" && Sealed(c.i, c.Finished()) in out.state.done
  {
    var c, a := s.calls[x], Step(s, evs[0]);
    var b := Run(a.state, evs[1..]);
    EndSeals(s, evs[0], x);
    SilentText(a.marks, c.i);
    DeadBlock(a.state, evs[1..], c.i);
    BlockTextAppend(a.marks, b.marks, c.i);
    RunMoves(a.state, evs[1..]);
  }

  /** The run's first event leaves the call open and passes its fragment on. */
  lemma ContinuedCall(s: State, evs: seq<Event>, x: nat)
    requires Owns(s, x) && evs != [] && !Ends(evs[0], x) && !(evs[0].ToolCallStart? && evs[0].index == x)
    ensures var c, next := s.calls[x], Step(s, evs[0]).state;
      && Owns(next, x) && next.calls[x] == c.(args := c.args + ArgsBy(evs[0], x))
      && Run(s, evs).state == Run(next, evs[1..]).state
      && BlockText(Run(s, evs).marks, c.i) == ArgsBy(evs[0], x) + BlockText(Run(next, evs[1..]).marks, c.i)
  {
    var a := Step(s, evs[0]);
    StepKeepsCall(s, evs[0], x);
    BlockTextAppend(a.marks, Run(a.state, evs[1..]).marks, s.calls[x].i);
  }

  /** An open call's deltas join to the upstream argument fragments up to the first
      end of that call, later ones are dropped, and the call is finished with
      exactly what was streamed. */
  lemma {:induction false} CallConserved(s: State, evs: seq<Event>, x: nat)
    requires Owns(s, x) && NoRestart(evs, x)
    ensures var c, out := s.calls[x], Run(s, evs);
      && BlockText(out.marks, c.i) == ArgsUntilDone(evs, x)
      && (HasEnd(evs, x) ==>
            Sealed(c.i, Call(c.callId, c.name, c.args + ArgsUntilDone(evs, x))) in out.state.done)
    decreases evs
  {
    var c := s.calls[x];
    if evs != [] {
      if Ends(evs[0], x) {
        EndedCall(s, evs, x);
        assert c.args + "" == c.args;
      } else {
        ContinuedCall(s, evs, x);
        CallConserved(Step(s, evs[0]).state, evs[1..], x);
        Joined(c.args, ArgsBy(evs[0], x), ArgsUntilDone(evs[1..], x));
      }
    }
  }
}
