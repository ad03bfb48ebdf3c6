/** The dialect-independent content machine behind both emitters: which numbered
    block each canonical event opens, extends or closes, and what the finished
    message contains. The Responses and Anthropic emitters are proved to be
    renderings of this machine, so what is proved here holds of both. */
module Blocks {
  import opened Wrappers
  import opened Canonical
  import Ordered

  datatype Part =
    | Reasoning(text: string)
    | Prose(text: string)
    | Call(callId: string, name: string, args: string)

  datatype Kind = ReasoningKind | ProseKind | CallKind(callId: string, name: string)

  datatype Channel = Thought | Speech | Arguments

  datatype Mark =
    | Open(i: nat, kind: Kind)
    | Delta(i: nat, channel: Channel, text: string)
    | Close(i: nat, part: Part)

  datatype OpenCall = OpenCall(i: nat, callId: string, name: string, args: string)
  {
    function Finished(): Part { Call(callId, name, args) }
  }

  datatype Sealed = Sealed(i: nat, part: Part)

  /** `thinkingText` and `proseText` are never reset when a block closes. */
  datatype State = State(
    responseId: string,
    model: string,
    usage: Option<Usage>,
    next: nat,
    thinking: Option<nat>,
    thinkingText: string,
    prose: Option<nat>,
    proseText: string,
    calls: map<nat, OpenCall>,
    called: bool,
    done: seq<Sealed>
  )

  const INIT := State("", "", None, 0, None, "", None, "", map[], false, [])

  datatype Out = Out(state: State, marks: seq<Mark>)

  function OpenThinking(s: State): Out {
    if s.thinking.Some? then Out(s, []) else
      Out(s.(thinking := Some(s.next), next := s.next + 1), [Open(s.next, ReasoningKind)])
  }

  function OpenProse(s: State): Out {
    if s.prose.Some? then Out(s, []) else
      Out(s.(prose := Some(s.next), next := s.next + 1), [Open(s.next, ProseKind)])
  }

  function CloseThinking(s: State): Out {
    if s.thinking.None? then Out(s, []) else
      var part := Reasoning(s.thinkingText);
      Out(s.(thinking := None, done := s.done + [Sealed(s.thinking.value, part)]), [Close(s.thinking.value, part)])
  }

  function CloseProse(s: State): Out {
    if s.prose.None? then Out(s, []) else
      var part := Prose(s.proseText);
      Out(s.(prose := None, done := s.done + [Sealed(s.prose.value, part)]), [Close(s.prose.value, part)])
  }

  function CloseCall(s: State, index: nat): Out {
    if index !in s.calls then Out(s, []) else
      var c := s.calls[index];
      Out(s.(calls := s.calls - {index}, done := s.done + [Sealed(c.i, c.Finished())]), [Close(c.i, c.Finished())])
  }

  function CloseCalls(s: State, order: seq<nat>): Out
    decreases order
  {
    if order == [] then Out(s, []) else
      var a := CloseCall(s, order[0]);
      var b := CloseCalls(a.state, order[1..]);
      Out(b.state, a.marks + b.marks)
  }

  function CloseSpoken(s: State): Out {
    var a := CloseThinking(s);
    var b := CloseProse(a.state);
    Out(b.state, a.marks + b.marks)
  }

  function OpenNewCall(s: State, index: nat, callId: string, name: string): Out {
    Out(s.(calls := s.calls[index := OpenCall(s.next, callId, name, "")], next := s.next + 1, called := true),
        [Open(s.next, CallKind(callId, name))])
  }

  function Think(s: State, text: string): Out {
    var a := OpenThinking(s);
    Out(a.state.(thinkingText := s.thinkingText + text), a.marks + [Delta(a.state.thinking.value, Thought, text)])
  }

  function Speak(s: State, text: string): Out {
    var a := CloseThinking(s);
    var b := OpenProse(a.state);
    Out(b.state.(proseText := s.proseText + text), a.marks + b.marks + [Delta(b.state.prose.value, Speech, text)])
  }

  function StartCall(s: State, index: nat, callId: string, name: string): Out {
    var a := CloseSpoken(s);
    var b := OpenNewCall(a.state, index, callId, name);
    Out(b.state, a.marks + b.marks)
  }

  function FeedCall(s: State, index: nat, delta: string): Out {
    if index !in s.calls then Out(s, []) else
      var c := s.calls[index];
      Out(s.(calls := s.calls[index := c.(args := c.args + delta)]), [Delta(c.i, Arguments, delta)])
  }

  ghost function CloseAllCalls(s: State): Out {
    CloseCalls(s, Ordered.Ascending(s.calls.Keys))
  }

  ghost function Finish(s: State): Out {
    var a := CloseSpoken(s);
    var b := CloseAllCalls(a.state);
    Out(b.state, a.marks + b.marks)
  }

  ghost function Step(s: State, ev: Event): Out {
    match ev
    case Created(responseId, model) => Out(s.(responseId := responseId, model := model), [])
    case ReasoningDelta(text) => Think(s, text)
    case TextDelta(text) => Speak(s, text)
    case ToolCallStart(index, callId, name) => StartCall(s, index, callId, name)
    case ToolCallArgsDelta(index, delta) => FeedCall(s, index, delta)
    case ToolCallDone(index) => CloseCall(s, index)
    case UsageReport(usage) => Out(s.(usage := Some(usage)), [])
    case Completed => Finish(s)
    case Error(_, _) => Out(s, [])
  }

  ghost function Run(s: State, evs: seq<Event>): Out
    decreases evs
  {
    if evs == [] then Out(s, []) else
      var a := Step(s, evs[0]);
      var b := Run(a.state, evs[1..]);
      Out(b.state, a.marks + b.marks)
  }

  lemma {:induction false} CloseCallsShape(s: State, order: seq<nat>)
    ensures var s' := CloseCalls(s, order).state;
      && s'.thinking == s.thinking && s'.prose == s.prose && s'.next == s.next
      && s'.calls == s.calls - Ordered.Elements(order)
    decreases order
  {
    if order == [] {
      assert Ordered.Elements(order) == {};
    } else {
      var a := CloseCall(s, order[0]).state;
      CloseCallsShape(a, order[1..]);
      assert order == [order[0]] + order[1..];
      assert Ordered.Elements(order) == {order[0]} + Ordered.Elements(order[1..]);
    }
  }

  lemma {:induction false} CloseCallsKeeps(s: State, order: seq<nat>)
    ensures var s' := CloseCalls(s, order).state;
      && s'.responseId == s.responseId && s'.model == s.model && s'.usage == s.usage && s'.called == s.called
      && s'.thinkingText == s.thinkingText && s'.proseText == s.proseText
    decreases order
  {
    if order != [] { CloseCallsKeeps(CloseCall(s, order[0]).state, order[1..]); }
  }

  /** Closing all calls changes only what is open and what is done. */
  lemma CloseAllShape(s: State)
    ensures var s' := CloseAllCalls(s).state;
      && s'.responseId == s.responseId && s'.model == s.model && s'.usage == s.usage && s'.called == s.called
      && s'.next == s.next && s'.thinking == s.thinking && s'.thinkingText == s.thinkingText
      && s'.prose == s.prose && s'.proseText == s.proseText && s'.calls == map[]
  {
    var order := Ordered.Ascending(s.calls.Keys);
    CloseCallsShape(s, order);
    CloseCallsKeeps(s, order);
    assert s.calls - s.calls.Keys == map[];
  }

  lemma {:induction false} CloseCallsSnoc(s: State, order: seq<nat>, x: nat)
    ensures var a := CloseCalls(s, order); var b := CloseCall(a.state, x);
      CloseCalls(s, order + [x]) == Out(b.state, a.marks + b.marks)
    decreases order
  {
    if order == [] {
      assert (order + [x])[1..] == [];
      var b := CloseCall(s, x);
      assert b.marks + [] == b.marks;
    } else {
      assert (order + [x])[0] == order[0] && (order + [x])[1..] == order[1..] + [x];
      var first := CloseCall(s, order[0]);
      CloseCallsSnoc(first.state, order[1..], x);
      var a := CloseCalls(first.state, order[1..]);
      Regroup(first, a, CloseCall(a.state, x));
    }
  }

  lemma CloseOneMore(s: State, order: seq<nat>, k: nat)
    requires k < |order| && Ordered.Increasing(order) && order[k] in s.calls
    ensures var a, c := CloseCalls(s, order[..k]), s.calls[order[k]];
      && CloseCalls(s, order[..k + 1]).state.done == a.state.done + [Sealed(c.i, c.Finished())]
      && CloseCalls(s, order[..k + 1]).marks == a.marks + [Close(c.i, c.Finished())]
  {
    CloseCallsShape(s, order[..k]);
    assert order[k] !in Ordered.Elements(order[..k]);
    CloseCallsSnoc(s, order[..k], order[k]);
    assert order[..k + 1] == order[..k] + [order[k]];
  }

  lemma {:induction false} RunAppend(s: State, a: seq<Event>, b: seq<Event>)
    ensures var x := Run(s, a); var y := Run(x.state, b);
      Run(s, a + b) == Out(y.state, x.marks + y.marks)
    decreases a
  {
    if a == [] {
      assert a + b == b;
    } else {
      assert (a + b)[0] == a[0] && (a + b)[1..] == a[1..] + b;
      var first := Step(s, a[0]);
      RunAppend(first.state, a[1..], b);
      Regroup(first, Run(first.state, a[1..]), Run(Run(first.state, a[1..]).state, b));
    }
  }

  lemma Regroup(x: Out, y: Out, z: Out)
    ensures x.marks + (y.marks + z.marks) == (x.marks + y.marks) + z.marks
  {
  }

  lemma RunSnoc(s: State, evs: seq<Event>, ev: Event)
    ensures var a := Run(s, evs); var b := Step(a.state, ev);
      Run(s, evs + [ev]) == Out(b.state, a.marks + b.marks)
  {
    RunAppend(s, evs, [ev]);
    var mid := Run(s, evs).state;
    assert [ev][1..] == [];
    assert Run(mid, [ev]).marks == Step(mid, ev).marks + [] == Step(mid, ev).marks;
  }
}
