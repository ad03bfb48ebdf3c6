/** One tool call over a whole run, from its start event to its finished part. */
module CallRuns {
  import opened Canonical
  import opened Blocks
  import BL = BlockLifecycle
  import BC = BlockContent
  import F = ChatStreamFacts
  import Lifecycle
  import Ordered

  lemma StepDistinct(s: State, ev: Event)
    requires BL.Distinct(s)
    ensures BL.Distinct(Step(s, ev).state)
  {
    BL.StepAgrees(s, ev, Lifecycle.Ledger(s.next, BL.LiveBlocks(s)), {});
  }

  lemma {:induction false} CloseCallsNext(s: State, order: seq<nat>)
    ensures CloseCalls(s, order).state.next == s.next
    decreases order
  {
    if order != [] { CloseCallsNext(CloseCall(s, order[0]).state, order[1..]); }
  }

  /** Blocks not yet allocated after a step were not written by it. */
  lemma StepBelow(s: State, ev: Event, b: nat)
    requires BL.Distinct(s) && Step(s, ev).state.next <= b
    ensures BC.Silent(Step(s, ev).marks, b) && s.next <= b
  {
    match ev
    case Completed =>
      var a := CloseSpoken(s).state;
      CloseAllShape(a);
      BC.CloseCallsSilent(a, Ordered.Ascending(a.calls.Keys), b);
    case ToolCallArgsDelta(index, _) =>
      if index in s.calls { assert s.calls[index].i < b; }
    case _ =>
  }

  lemma {:induction false} StartedOnceNotAgain(seen: set<nat>, evs: seq<Event>, x: nat)
    requires F.StartsOnce(seen, evs) && x in seen
    ensures BC.NoRestart(evs, x)
    decreases evs
  {
    if evs != [] {
      StartedOnceNotAgain(if evs[0].ToolCallStart? then seen + {evs[0].index} else seen, evs[1..], x);
    }
  }

  /** The call of `x` in this run: the id and name of its start event. */
  function StartOf(evs: seq<Event>, x: nat): (start: Event)
    requires x in F.Starts(evs)
    ensures start.ToolCallStart? && start.index == x
  {
    if evs[0].ToolCallStart? && evs[0].index == x then evs[0] else StartOf(evs[1..], x)
  }

  lemma {:induction false} StartOfPrefix(a: seq<Event>, b: seq<Event>, x: nat)
    requires x in F.Starts(a)
    ensures x in F.Starts(a + b) && StartOf(a + b, x) == StartOf(a, x)
  {
    F.StartsOnceAppend({}, a, b);
    assert (a + b)[0] == a[0] && (a + b)[1..] == a[1..] + b;
    if !(a[0].ToolCallStart? && a[0].index == x) { StartOfPrefix(a[1..], b, x); }
  }

  lemma StartStep(s: State, ev: Event)
    requires BL.Distinct(s) && ev.ToolCallStart?
    ensures var out := Step(s, ev);
      && BC.Owns(out.state, ev.index)
      && out.state.calls[ev.index] == OpenCall(s.next, ev.callId, ev.name, "")
      && BC.Silent(out.marks, s.next)
      && Open(s.next, CallKind(ev.callId, ev.name)) in out.marks
  {
  }

  /** On a run that starts each index once, the call of `x` gets one block; that
      block's deltas join to the argument fragments between the call's start and its
      first end, and once ended the finished content holds the whole call. */
  lemma {:induction false} CallStreamed(s: State, seen: set<nat>, evs: seq<Event>, x: nat) returns (b: nat)
    requires BL.Distinct(s) && F.StartsOnce(seen, evs) && x in F.Starts(evs)
    ensures s.next <= b
    ensures var out, start := Run(s, evs), StartOf(evs, x);
      && Open(b, CallKind(start.callId, start.name)) in out.marks
      && BC.BlockText(out.marks, b) == F.CallArgs(evs, x)
      && (F.CallEnds(evs, x) ==> Sealed(b, Call(start.callId, start.name, F.CallArgs(evs, x))) in out.state.done)
    decreases evs
  {
    var ev, rest := evs[0], evs[1..];
    var a := Step(s, ev);
    StepDistinct(s, ev);
    var seen' := if ev.ToolCallStart? then seen + {ev.index} else seen;
    if ev.ToolCallStart? && ev.index == x {
      b := s.next;
      StartStep(s, ev);
      StartedOnceNotAgain(seen', rest, x);
      BC.CallConserved(a.state, rest, x);
      BC.SilentText(a.marks, b);
      assert "" + F.CallArgs(evs, x) == F.CallArgs(evs, x);
    } else {
      b := CallStreamed(a.state, seen', rest, x);
      StepBelow(s, ev, b);
      BC.SilentText(a.marks, b);
    }
    BC.BlockTextAppend(a.marks, Run(a.state, rest).marks, b);
  }
}
