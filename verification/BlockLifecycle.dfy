/** Every run of the content machine keeps its blocks bracketed, exactly when no
    tool call starts on an upstream index whose call is still open. */
module BlockLifecycle {
  import opened Wrappers
  import opened Canonical
  import opened Lifecycle
  import opened Blocks
  import Ordered

  function SignalOf(m: Mark): Signal {
    match m
    case Open(i, _) => Start(i)
    case Delta(i, _, _) => Within(i)
    case Close(i, _) => End(i)
  }

  function Signals(marks: seq<Mark>): seq<Signal> {
    seq(|marks|, k requires 0 <= k < |marks| => SignalOf(marks[k]))
  }

  function LiveBlocks(s: State): set<nat> {
    (if s.thinking.Some? then {s.thinking.value} else {})
    + (if s.prose.Some? then {s.prose.value} else {})
    + set x | x in s.calls :: s.calls[x].i
  }

  /** No two open things share a block number, and all numbers were allocated. */
  ghost predicate Distinct(s: State) {
    && (s.thinking.Some? ==> s.thinking.value < s.next)
    && (s.prose.Some? ==> s.prose.value < s.next && s.prose != s.thinking)
    && (forall x :: x in s.calls ==>
          s.calls[x].i < s.next && Some(s.calls[x].i) != s.thinking && Some(s.calls[x].i) != s.prose)
    && (forall x, y :: x in s.calls && y in s.calls && x != y ==> s.calls[x].i != s.calls[y].i)
  }

  /** The ledger's live blocks are the machine's open ones plus those it lost. */
  ghost predicate Agrees(s: State, l: Ledger, lost: set<nat>) {
    && l.Ledger? && l.next == s.next && Distinct(s)
    && l.live == LiveBlocks(s) + lost && lost !! LiveBlocks(s)
    && forall i :: i in l.live ==> i < s.next
  }

  function After(l: Ledger, marks: seq<Mark>): Ledger {
    Track(l, Signals(marks))
  }

  lemma AfterAppend(l: Ledger, a: seq<Mark>, b: seq<Mark>)
    ensures After(l, a + b) == After(After(l, a), b)
  {
    assert Signals(a + b) == Signals(a) + Signals(b);
    TrackAppend(l, Signals(a), Signals(b));
  }

  lemma AfterOne(l: Ledger, m: Mark)
    ensures After(l, []) == l
    ensures After(l, [m]) == Post(l, SignalOf(m))
  {
    assert Signals([]) == [];
    assert Signals([m]) == [SignalOf(m)];
    TrackOne(l, SignalOf(m));
  }

  lemma OpenThinkingAgrees(s: State, l: Ledger, lost: set<nat>)
    requires Agrees(s, l, lost)
    ensures Agrees(OpenThinking(s).state, After(l, OpenThinking(s).marks), lost)
  {
    AfterOne(l, Open(s.next, ReasoningKind));
    if s.thinking.None? {
      assert LiveBlocks(OpenThinking(s).state) == LiveBlocks(s) + {s.next};
    }
  }

  lemma OpenProseAgrees(s: State, l: Ledger, lost: set<nat>)
    requires Agrees(s, l, lost)
    ensures Agrees(OpenProse(s).state, After(l, OpenProse(s).marks), lost)
  {
    AfterOne(l, Open(s.next, ProseKind));
    if s.prose.None? {
      assert LiveBlocks(OpenProse(s).state) == LiveBlocks(s) + {s.next};
    }
  }

  lemma CloseThinkingAgrees(s: State, l: Ledger, lost: set<nat>)
    requires Agrees(s, l, lost)
    ensures Agrees(CloseThinking(s).state, After(l, CloseThinking(s).marks), lost)
  {
    if s.thinking.Some? {
      AfterOne(l, Close(s.thinking.value, Reasoning(s.thinkingText)));
      assert LiveBlocks(CloseThinking(s).state) == LiveBlocks(s) - {s.thinking.value};
    } else {
      assert Signals([]) == [];
    }
  }

  lemma CloseProseAgrees(s: State, l: Ledger, lost: set<nat>)
    requires Agrees(s, l, lost)
    ensures Agrees(CloseProse(s).state, After(l, CloseProse(s).marks), lost)
  {
    if s.prose.Some? {
      AfterOne(l, Close(s.prose.value, Prose(s.proseText)));
      assert LiveBlocks(CloseProse(s).state) == LiveBlocks(s) - {s.prose.value};
    } else {
      assert Signals([]) == [];
    }
  }

  lemma CloseCallAgrees(s: State, index: nat, l: Ledger, lost: set<nat>)
    requires Agrees(s, l, lost)
    ensures Agrees(CloseCall(s, index).state, After(l, CloseCall(s, index).marks), lost)
  {
    if index in s.calls {
      var c := s.calls[index];
      AfterOne(l, Close(c.i, c.Finished()));
      assert c.i in LiveBlocks(s);
      var s' := CloseCall(s, index).state;
      forall i ensures i in LiveBlocks(s') <==> i in LiveBlocks(s) - {c.i} {
        if i in LiveBlocks(s) - {c.i} && Some(i) != s.thinking && Some(i) != s.prose {
          var x :| x in s.calls && s.calls[x].i == i;
          assert x in s'.calls && s'.calls[x].i == i;
        }
      }
      assert LiveBlocks(s') == LiveBlocks(s) - {c.i};
    } else {
      assert Signals([]) == [];
    }
  }

  lemma CloseSpokenAgrees(s: State, l: Ledger, lost: set<nat>)
    requires Agrees(s, l, lost)
    ensures Agrees(CloseSpoken(s).state, After(l, CloseSpoken(s).marks), lost)
  {
    var a := CloseThinking(s);
    CloseThinkingAgrees(s, l, lost);
    CloseProseAgrees(a.state, After(l, a.marks), lost);
    AfterAppend(l, a.marks, CloseProse(a.state).marks);
  }

  lemma {:induction false} CloseCallsAgrees(s: State, order: seq<nat>, l: Ledger, lost: set<nat>)
    requires Agrees(s, l, lost)
    ensures Agrees(CloseCalls(s, order).state, After(l, CloseCalls(s, order).marks), lost)
    decreases order
  {
    if order == [] {
      assert Signals([]) == [];
    } else {
      var a := CloseCall(s, order[0]);
      CloseCallAgrees(s, order[0], l, lost);
      CloseCallsAgrees(a.state, order[1..], After(l, a.marks), lost);
      AfterAppend(l, a.marks, CloseCalls(a.state, order[1..]).marks);
    }
  }

  /** The block of a call that is still open. */
  function HeldBy(s: State, index: nat): set<nat> {
    if index in s.calls then {s.calls[index].i} else {}
  }

  lemma OpenNewCallBlocks(s: State, index: nat, callId: string, name: string)
    requires Distinct(s)
    ensures LiveBlocks(OpenNewCall(s, index, callId, name).state) == LiveBlocks(s) - HeldBy(s, index) + {s.next}
  {
    var s', gone := OpenNewCall(s, index, callId, name).state, HeldBy(s, index);
    forall i ensures i in LiveBlocks(s') <==> i in LiveBlocks(s) - gone + {s.next} {
      if i in LiveBlocks(s) - gone && Some(i) != s.thinking && Some(i) != s.prose {
        var x :| x in s.calls && s.calls[x].i == i;
        assert x != index && x in s'.calls && s'.calls[x].i == i;
      }
      assert index in s'.calls && s'.calls[index].i == s.next;
    }
  }

  lemma OpenNewCallAgrees(s: State, index: nat, callId: string, name: string, l: Ledger, lost: set<nat>)
    requires Agrees(s, l, lost)
    ensures var out := OpenNewCall(s, index, callId, name);
      Agrees(out.state, After(l, out.marks), lost + HeldBy(s, index))
  {
    AfterOne(l, Open(s.next, CallKind(callId, name)));
    OpenNewCallBlocks(s, index, callId, name);
    assert HeldBy(s, index) <= LiveBlocks(s);
  }

  /** The block that an event makes unreachable: that of a call restarted while open. */
  function LostBy(s: State, ev: Event): set<nat> {
    if ev.ToolCallStart? then HeldBy(s, ev.index) else {}
  }

  lemma DeltaAgrees(s: State, s': State, m: Mark, l: Ledger, lost: set<nat>)
    requires Agrees(s, l, lost) && m.Delta? && m.i in LiveBlocks(s)
    requires Distinct(s') && s'.next == s.next && LiveBlocks(s') == LiveBlocks(s)
    ensures Agrees(s', After(l, [m]), lost)
  {
    AfterOne(l, m);
  }

  lemma ReasoningAgrees(s: State, text: string, l: Ledger, lost: set<nat>)
    requires Agrees(s, l, lost)
    ensures var out := Think(s, text); Agrees(out.state, After(l, out.marks), lost)
  {
    var a := OpenThinking(s);
    OpenThinkingAgrees(s, l, lost);
    var m := Delta(a.state.thinking.value, Thought, text);
    DeltaAgrees(a.state, a.state.(thinkingText := s.thinkingText + text), m, After(l, a.marks), lost);
    AfterAppend(l, a.marks, [m]);
  }

  lemma TextAgrees(s: State, text: string, l: Ledger, lost: set<nat>)
    requires Agrees(s, l, lost)
    ensures var out := Speak(s, text); Agrees(out.state, After(l, out.marks), lost)
  {
    var a := CloseThinking(s);
    CloseThinkingAgrees(s, l, lost);
    var b := OpenProse(a.state);
    OpenProseAgrees(a.state, After(l, a.marks), lost);
    AfterAppend(l, a.marks, b.marks);
    var m := Delta(b.state.prose.value, Speech, text);
    DeltaAgrees(b.state, b.state.(proseText := s.proseText + text), m, After(l, a.marks + b.marks), lost);
    AfterAppend(l, a.marks + b.marks, [m]);
  }

  lemma ArgsAgrees(s: State, index: nat, delta: string, l: Ledger, lost: set<nat>)
    requires Agrees(s, l, lost) && index in s.calls
    ensures var out := FeedCall(s, index, delta); Agrees(out.state, After(l, out.marks), lost)
  {
    var s' := FeedCall(s, index, delta).state;
    forall i ensures i in LiveBlocks(s') <==> i in LiveBlocks(s) {
      if i in LiveBlocks(s) && Some(i) != s.thinking && Some(i) != s.prose {
        var x :| x in s.calls && s.calls[x].i == i;
        assert x in s'.calls && s'.calls[x].i == i;
      }
    }
    assert s.calls[index].i in LiveBlocks(s);
    DeltaAgrees(s, s', Delta(s.calls[index].i, Arguments, delta), l, lost);
  }

  lemma CompletedAgrees(s: State, l: Ledger, lost: set<nat>)
    requires Agrees(s, l, lost)
    ensures var out := Finish(s); Agrees(out.state, After(l, out.marks), lost) && LiveBlocks(out.state) == {}
  {
    var a := CloseSpoken(s);
    CloseSpokenAgrees(s, l, lost);
    var order := Ordered.Ascending(a.state.calls.Keys);
    CloseCallsAgrees(a.state, order, After(l, a.marks), lost);
    AfterAppend(l, a.marks, CloseCalls(a.state, order).marks);
    CloseAllShape(a.state);
  }

  lemma StartCallAgrees(s: State, index: nat, callId: string, name: string, l: Ledger, lost: set<nat>)
    requires Agrees(s, l, lost)
    ensures var out := StartCall(s, index, callId, name);
      Agrees(out.state, After(l, out.marks), lost + HeldBy(s, index))
  {
    var a := CloseSpoken(s);
    CloseSpokenAgrees(s, l, lost);
    OpenNewCallAgrees(a.state, index, callId, name, After(l, a.marks), lost);
    AfterAppend(l, a.marks, OpenNewCall(a.state, index, callId, name).marks);
    assert HeldBy(a.state, index) == HeldBy(s, index);
  }

  lemma StepAgrees(s: State, ev: Event, l: Ledger, lost: set<nat>)
    requires Agrees(s, l, lost)
    ensures Agrees(Step(s, ev).state, After(l, Step(s, ev).marks), lost + LostBy(s, ev))
    ensures ev.Completed? ==> LiveBlocks(Step(s, ev).state) == {}
  {
    assert lost + {} == lost;
    match ev
    case ReasoningDelta(text) => ReasoningAgrees(s, text, l, lost);
    case TextDelta(text) => TextAgrees(s, text, l, lost);
    case ToolCallStart(index, callId, name) => StartCallAgrees(s, index, callId, name, l, lost);
    case ToolCallArgsDelta(index, delta) =>
      if index in s.calls { ArgsAgrees(s, index, delta, l, lost); } else { assert Signals([]) == []; }
    case ToolCallDone(index) => CloseCallAgrees(s, index, l, lost);
    case Completed => CompletedAgrees(s, l, lost);
    case _ => assert Signals([]) == [];
  }

  function OpenAfter(open: set<nat>, ev: Event): set<nat> {
    match ev
    case ToolCallStart(x, _, _) => open + {x}
    case ToolCallDone(x) => open - {x}
    case Completed => {}
    case _ => open
  }

  /** No tool call starts on an index whose previous call has not ended. */
  predicate NoReopen(open: set<nat>, evs: seq<Event>)
    decreases evs
  {
    evs == [] ||
    (!(evs[0].ToolCallStart? && evs[0].index in open) && NoReopen(OpenAfter(open, evs[0]), evs[1..]))
  }

  lemma {:induction false} StepKeys(s: State, ev: Event)
    ensures Step(s, ev).state.calls.Keys == OpenAfter(s.calls.Keys, ev)
  {
    match ev
    case Completed =>
      CloseAllShape(CloseSpoken(s).state);
    case _ =>
  }

  lemma {:induction false} RunAgrees(s: State, evs: seq<Event>, l: Ledger, lost: set<nat>) returns (lost': set<nat>)
    requires Agrees(s, l, lost)
    ensures Agrees(Run(s, evs).state, After(l, Run(s, evs).marks), lost')
    ensures lost <= lost' && (lost' == lost <==> NoReopen(s.calls.Keys, evs))
    decreases evs
  {
    if evs == [] {
      lost' := lost;
      assert Signals([]) == [];
    } else {
      var a := Step(s, evs[0]);
      StepAgrees(s, evs[0], l, lost);
      StepKeys(s, evs[0]);
      lost' := RunAgrees(a.state, evs[1..], After(l, a.marks), lost + LostBy(s, evs[0]));
      AfterAppend(l, a.marks, Run(a.state, evs[1..]).marks);
      if LostBy(s, evs[0]) != {} {
        var i := s.calls[evs[0].index].i;
        assert i in LiveBlocks(s) && i in lost' && i !in lost;
      }
    }
  }

  /** The ledger after a run that ends with `Completed`: never broken, and with
      something left live if and only if some call was reopened. */
  lemma RunLedger(evs: seq<Event>)
    ensures var out := Run(INIT, evs + [Completed]); var l := After(FRESH, out.marks);
      l.Ledger? && l.next == out.state.next && (l.live == {} <==> NoReopen({}, evs))
  {
    assert INIT.calls.Keys == {};
    var lost := RunAgrees(INIT, evs + [Completed], FRESH, {});
    NoReopenSnoc({}, evs);
    CompletedLeavesNothing(evs);
    assert After(FRESH, Run(INIT, evs + [Completed]).marks).live == lost;
  }

  /** At any moment of any run the ledger stands: no frame touches a block that is
      not open, and no start skips or repeats a number. */
  lemma RunNeverBreaks(evs: seq<Event>)
    ensures var out := Run(INIT, evs); var l := After(FRESH, out.marks);
      l.Ledger? && l.next == out.state.next && LiveBlocks(out.state) <= l.live
  {
    var lost := RunAgrees(INIT, evs, FRESH, {});
  }

  lemma CompletedLeavesNothing(evs: seq<Event>)
    ensures LiveBlocks(Run(INIT, evs + [Completed]).state) == {}
  {
    var mid := Run(INIT, evs).state;
    var lost := RunAgrees(INIT, evs, FRESH, {});
    RunSnoc(INIT, evs, Completed);
    StepAgrees(mid, Completed, After(FRESH, Run(INIT, evs).marks), lost);
  }

  lemma {:induction false} NoReopenSnoc(open: set<nat>, evs: seq<Event>)
    ensures NoReopen(open, evs + [Completed]) <==> NoReopen(open, evs)
    decreases evs
  {
    if evs == [] {
      assert [Completed][1..] == [];
    } else {
      assert (evs + [Completed])[1..] == evs[1..] + [Completed];
      NoReopenSnoc(OpenAfter(open, evs[0]), evs[1..]);
    }
  }
}
