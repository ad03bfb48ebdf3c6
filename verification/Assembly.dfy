/** How the machine assembles a message from reasoning, text and tool fragments, and
    that an orderly chunk keeps it on course. */
module Assembly {
  import opened Canonical
  import opened ChatStream
  import opened Blocks
  import F = ChatStreamFacts
  import Ordered

  function Parts(done: seq<Sealed>): seq<Part> {
    seq(|done|, k requires 0 <= k < |done| => done[k].part)
  }

  /** The first entry of index `x`: the one whose id and name are used. */
  function FirstEntry(es: seq<ToolEntry>, x: nat): ToolEntry
    requires x in Indices(es)
  {
    IndicesStep(es);
    if es[0].index == x then es[0] else FirstEntry(es[1..], x)
  }

  function CallOf(es: seq<ToolEntry>, x: nat): Part
    requires x in Indices(es)
  {
    Call(FirstEntry(es, x).callId, FirstEntry(es, x).name, F.EntryArgs(es, x))
  }

  function Spoken(r: string, t: string): seq<Part> {
    (if r == "" then [] else [Reasoning(r)]) + (if t == "" then [] else [Prose(t)])
  }

  function Assembled(es: seq<ToolEntry>, order: seq<nat>): seq<Part>
    requires forall k :: 0 <= k < |order| ==> order[k] in Indices(es)
  {
    seq(|order|, k requires 0 <= k < |order| => CallOf(es, order[k]))
  }

  /** Where the machine stands after reasoning `r`, text `t` and tool fragments `es`. */
  ghost predicate Shape(s: State, r: string, t: string, es: seq<ToolEntry>, finished: bool) {
    && s.thinkingText == r && s.proseText == t && (s.called <==> es != [])
    && if es == [] then SpeakingShape(s, r, t) else CallingShape(s, r, t, es, finished)
  }

  ghost predicate SpeakingShape(s: State, r: string, t: string) {
    && s.calls == map[]
    && (s.prose.Some? <==> t != "")
    && (s.thinking.Some? <==> r != "" && t == "")
    && Parts(s.done) == if t == "" then [] else Spoken(r, "")
  }

  ghost predicate CallingShape(s: State, r: string, t: string, es: seq<ToolEntry>, finished: bool) {
    && s.thinking.None? && s.prose.None?
    && if finished then s.calls == map[] && Parts(s.done) == Spoken(r, t) + Assembled(es, InOrder(es))
       else Parts(s.done) == Spoken(r, t) && Holds(s.calls, es)
  }

  ghost function InOrder(es: seq<ToolEntry>): (order: seq<nat>)
    ensures forall k :: 0 <= k < |order| ==> order[k] in Indices(es)
  {
    var order := Ordered.Ascending(Indices(es));
    assert forall k :: 0 <= k < |order| ==> order[k] in Ordered.Elements(order);
    order
  }

  ghost predicate Holds(calls: map<nat, OpenCall>, es: seq<ToolEntry>) {
    && calls.Keys == Indices(es)
    && forall x :: x in calls ==> calls[x].Finished() == CallOf(es, x)
  }

  lemma PartsAppend(a: seq<Sealed>, b: seq<Sealed>)
    ensures Parts(a + b) == Parts(a) + Parts(b)
  {
  }

  // ----- one step at a time -----

  lemma ThinkShape(s: State, r: string, text: string)
    requires Shape(s, r, "", [], false) && text != ""
    ensures Shape(Think(s, text).state, r + text, "", [], false)
  {
  }

  lemma SpeakShape(s: State, r: string, t: string, text: string)
    requires Shape(s, r, t, [], false) && text != ""
    ensures Shape(Speak(s, text).state, r, t + text, [], false)
  {
  }

  lemma CloseSpokenShape(s: State, r: string, t: string)
    requires s.thinkingText == r && s.proseText == t && SpeakingShape(s, r, t)
    ensures var s' := CloseSpoken(s).state;
      s'.thinking.None? && s'.prose.None? && s'.calls == map[] && Parts(s'.done) == Spoken(r, t)
  {
    var a := CloseThinking(s).state;
    if s.thinking.Some? { PartsAppend(s.done, [Sealed(s.thinking.value, Reasoning(r))]); }
    assert Parts(a.done) == Spoken(r, "");
    if a.prose.Some? { PartsAppend(a.done, [Sealed(a.prose.value, Prose(t))]); }
    assert Spoken(r, "") + [Prose(t)] == if t == "" then Spoken(r, "") + [Prose(t)] else Spoken(r, t);
  }

  /** The state after the start, if the entry needs one: the call is open with
      what its earlier entries gave it. */
  ghost predicate Begun(s: State, r: string, t: string, es: seq<ToolEntry>, e: ToolEntry) {
    && s.thinkingText == r && s.proseText == t && s.called
    && s.thinking.None? && s.prose.None? && Parts(s.done) == Spoken(r, t)
    && s.calls.Keys == Indices(es) + {e.index}
    && (forall x :: x in Indices(es) ==> s.calls[x].Finished() == CallOf(es, x))
    && (e.index !in Indices(es) ==> s.calls[e.index].Finished() == Call(e.callId, e.name, ""))
  }

  lemma StartBegins(s: State, r: string, t: string, es: seq<ToolEntry>, e: ToolEntry)
    requires Shape(s, r, t, es, false) && e.index !in Indices(es)
    ensures Begun(StartCall(s, e.index, e.callId, e.name).state, r, t, es, e)
  {
    if es == [] {
      CloseSpokenShape(s, r, t);
      NoEntries({});
    }
  }

  lemma FeedBegun(s: State, r: string, t: string, es: seq<ToolEntry>, e: ToolEntry)
    requires Begun(s, r, t, es, e)
    ensures Shape(if e.args == "" then s else FeedCall(s, e.index, e.args).state, r, t, es + [e], false)
  {
    IndicesSnoc(es, e);
    var s' := if e.args == "" then s else FeedCall(s, e.index, e.args).state;
    forall x | x in s'.calls ensures s'.calls[x].Finished() == CallOf(es + [e], x) {
      CallOfSnoc(es, e, x);
    }
  }

  lemma EntryShape(s: State, r: string, t: string, es: seq<ToolEntry>, e: ToolEntry)
    requires Shape(s, r, t, es, false)
    ensures Shape(Run(s, EntryEvents(Indices(es), e)).state, r, t, es + [e], false)
  {
    EntryRuns(s, Indices(es), e);
    if e.index !in Indices(es) {
      StartBegins(s, r, t, es, e);
      FeedBegun(StartCall(s, e.index, e.callId, e.name).state, r, t, es, e);
    } else {
      assert Indices(es) + {e.index} == Indices(es);
      FeedBegun(s, r, t, es, e);
    }
  }

  /** What an entry does: its start if the index is new, then its arguments if any. */
  lemma EntryRuns(s: State, started: set<nat>, e: ToolEntry)
    ensures var a := if e.index in started then s else StartCall(s, e.index, e.callId, e.name).state;
      Run(s, EntryEvents(started, e)).state == if e.args == "" then a else FeedCall(a, e.index, e.args).state
  {
    var start, feed := ToolCallStart(e.index, e.callId, e.name), ToolCallArgsDelta(e.index, e.args);
    RunShort(s, start, feed);
    assert [] + [feed] == [feed] && [start] + [] == [start];
  }

  lemma RunShort(s: State, a: Event, b: Event)
    ensures Run(s, []).state == s
    ensures Run(s, [a]).state == Step(s, a).state
    ensures Run(s, [b]).state == Step(s, b).state
    ensures Run(s, [a] + [b]).state == Step(Step(s, a).state, b).state
  {
    RunSnoc(s, [], a);
    RunSnoc(s, [], b);
    RunSnoc(s, [a], b);
    assert [] + [a] == [a] && [] + [b] == [b];
  }

  lemma {:induction false} CallOfSnoc(es: seq<ToolEntry>, e: ToolEntry, x: nat)
    requires x in Indices(es + [e])
    ensures F.EntryArgs(es + [e], x) == F.EntryArgs(es, x) + if e.index == x then e.args else ""
    ensures x in Indices(es) ==> FirstEntry(es + [e], x) == FirstEntry(es, x)
    ensures x !in Indices(es) ==> e.index == x && FirstEntry(es + [e], x) == e && F.EntryArgs(es, x) == ""
  {
    IndicesSnoc(es, e);
    EntryArgsSnoc(es, e, x);
    if x !in Indices(es) { NoEntryNoArgs(es, x); }
    FirstEntrySnoc(es, e, x);
  }

  lemma {:induction false} EntryArgsSnoc(es: seq<ToolEntry>, e: ToolEntry, x: nat)
    ensures F.EntryArgs(es + [e], x) == F.EntryArgs(es, x) + if e.index == x then e.args else ""
  {
    if es == [] {
      assert (es + [e])[1..] == [];
    } else {
      assert (es + [e])[0] == es[0] && (es + [e])[1..] == es[1..] + [e];
      EntryArgsSnoc(es[1..], e, x);
      var head := if es[0].index == x then es[0].args else "";
      assert (head + F.EntryArgs(es[1..], x)) + (if e.index == x then e.args else "")
        == head + (F.EntryArgs(es[1..], x) + if e.index == x then e.args else "");
    }
  }

  lemma {:induction false} NoEntryNoArgs(es: seq<ToolEntry>, x: nat)
    requires x !in Indices(es)
    ensures F.EntryArgs(es, x) == ""
  {
    if es != [] {
      IndicesStep(es);
      NoEntryNoArgs(es[1..], x);
    }
  }

  lemma {:induction false} FirstEntrySnoc(es: seq<ToolEntry>, e: ToolEntry, x: nat)
    requires x in Indices(es + [e])
    ensures FirstEntry(es + [e], x) == if x in Indices(es) then FirstEntry(es, x) else e
  {
    var all := es + [e];
    IndicesStep(all);
    if es != [] {
      assert all[0] == es[0] && all[1..] == es[1..] + [e];
      IndicesStep(es);
      if es[0].index != x { FirstEntrySnoc(es[1..], e, x); }
    } else {
      assert all == [e] && Indices([]) == {};
      IndicesSnoc([], e);
    }
  }

  // ----- closing calls -----

  lemma {:induction false} RunDones(s: State, order: seq<nat>)
    ensures Run(s, DoneEvents(order)) == CloseCalls(s, order)
    decreases order
  {
    if order != [] {
      assert DoneEvents(order)[1..] == DoneEvents(order[1..]);
      RunDones(CloseCall(s, order[0]).state, order[1..]);
    }
  }

  lemma CloseCallPart(s: State, index: nat)
    requires index in s.calls
    ensures Parts(CloseCall(s, index).state.done) == Parts(s.done) + [s.calls[index].Finished()]
  {
    PartsAppend(s.done, [Sealed(s.calls[index].i, s.calls[index].Finished())]);
  }

  /** Every listed call is open and holds what its entries gave it. */
  ghost predicate Ready(calls: map<nat, OpenCall>, es: seq<ToolEntry>, order: seq<nat>) {
    forall k :: 0 <= k < |order| ==>
      order[k] in Indices(es) && order[k] in calls && calls[order[k]].Finished() == CallOf(es, order[k])
  }

  lemma {:induction false} ClosedParts(s: State, es: seq<ToolEntry>, order: seq<nat>)
    requires Ordered.Increasing(order) && Ready(s.calls, es, order)
    ensures Parts(CloseCalls(s, order).state.done) == Parts(s.done) + Assembled(es, order)
    decreases order
  {
    if order != [] {
      var x, rest := order[0], order[1..];
      var a := CloseCall(s, x).state;
      CloseCallPart(s, x);
      assert forall k :: 0 <= k < |rest| ==> rest[k] == order[k + 1];
      ClosedParts(a, es, rest);
      assert Assembled(es, order) == [CallOf(es, x)] + Assembled(es, rest);
      assert Parts(s.done) + ([CallOf(es, x)] + Assembled(es, rest))
        == (Parts(s.done) + [CallOf(es, x)]) + Assembled(es, rest);
    }
  }

  lemma CloseCallsParts(s: State, es: seq<ToolEntry>, order: seq<nat>)
    requires Ordered.Increasing(order) && Ordered.Elements(order) == s.calls.Keys && Holds(s.calls, es)
    requires forall k :: 0 <= k < |order| ==> order[k] in Indices(es)
    ensures var s' := CloseCalls(s, order).state;
      && s'.calls == map[] && Parts(s'.done) == Parts(s.done) + Assembled(es, order)
      && s'.thinking == s.thinking && s'.prose == s.prose
      && s'.thinkingText == s.thinkingText && s'.proseText == s.proseText
      && s'.called == s.called
  {
    CloseCallsShape(s, order);
    CloseCallsKeeps(s, order);
    ClosedParts(s, es, order);
  }

  // ----- several fragments -----

  lemma EntriesSplit(started: set<nat>, started': set<nat>, es: seq<ToolEntry>)
    requires es != [] && started' == started + {es[0].index}
    ensures EntriesEvents(started, es) == EntryEvents(started, es[0]) + EntriesEvents(started', es[1..])
  {
  }

  /** The first fragment's events come first. */
  lemma EntriesFirst(s: State, seen: seq<ToolEntry>, es: seq<ToolEntry>)
    requires es != []
    ensures Run(s, EntriesEvents(Indices(seen), es)).state ==
      Run(Run(s, EntryEvents(Indices(seen), es[0])).state, EntriesEvents(Indices(seen + [es[0]]), es[1..])).state
    ensures seen + [es[0]] + es[1..] == seen + es
  {
    var head, tail := EntryEvents(Indices(seen), es[0]), EntriesEvents(Indices(seen + [es[0]]), es[1..]);
    IndicesSnoc(seen, es[0]);
    EntriesSplit(Indices(seen), Indices(seen + [es[0]]), es);
    RunAppend(s, head, tail);
  }

  lemma {:induction false} CloseNothing(s: State, order: seq<nat>)
    requires s.calls == map[]
    ensures CloseCalls(s, order) == Out(s, [])
    decreases order
  {
    if order != [] { CloseNothing(s, order[1..]); }
  }

  lemma FinishShape(s: State, r: string, t: string, es: seq<ToolEntry>, finished: bool)
    requires Shape(s, r, t, es, finished)
    ensures Shape(CloseCalls(s, Ordered.Ascending(Indices(es))).state, r, t, es, true)
  {
    if es == [] || finished {
      CloseNothing(s, Ordered.Ascending(Indices(es)));
    } else {
      CloseCallsParts(s, es, InOrder(es));
    }
  }

  lemma {:induction false} IndicesAppend(a: seq<ToolEntry>, b: seq<ToolEntry>)
    ensures Indices(a + b) == Indices(a) + Indices(b)
  {
    if a == [] {
      assert a + b == b && Indices(a) == {};
    } else {
      assert (a + b)[0] == a[0] && (a + b)[1..] == a[1..] + b;
      IndicesStep(a);
      IndicesStep(a + b);
      IndicesAppend(a[1..], b);
    }
  }
}
