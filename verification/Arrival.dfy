/** In which order the blocks of a cut-up message open: reasoning, text, and then the
    calls as their first fragments arrive. */
module Arrival {
  import opened Canonical
  import opened ChatStream
  import opened Blocks
  import opened Assembly
  import Ordered

  /** The indices of tool fragments, each where it is first seen. */
  function FirstSeen(es: seq<ToolEntry>): (order: seq<nat>)
    ensures forall k :: 0 <= k < |order| ==> order[k] in Indices(es)
  {
    if es == [] then [] else
      var before, e := es[..|es| - 1], es[|es| - 1];
      assert es == before + [e];
      IndicesSnoc(before, e);
      FirstSeen(before) + if e.index in Indices(before) then [] else [e.index]
  }

  predicate Distinct(order: seq<nat>) {
    forall i, j :: 0 <= i < j < |order| ==> order[i] != order[j]
  }

  lemma FirstSeenSnoc(es: seq<ToolEntry>, e: ToolEntry)
    ensures FirstSeen(es + [e]) == FirstSeen(es) + if e.index in Indices(es) then [] else [e.index]
  {
    assert (es + [e])[..|es|] == es;
  }

  lemma {:induction false} FirstSeenOnce(es: seq<ToolEntry>)
    ensures Ordered.Elements(FirstSeen(es)) == Indices(es) && Distinct(FirstSeen(es))
  {
    if es == [] {
      NoEntries({});
    } else {
      var before, e := es[..|es| - 1], es[|es| - 1];
      assert es == before + [e];
      FirstSeenOnce(before);
      IndicesSnoc(before, e);
      FirstSeenSnoc(before, e);
      if e.index !in Indices(before) { AddOne(FirstSeen(before), e.index); }
      else { assert FirstSeen(before) + [] == FirstSeen(before); }
    }
  }

  lemma AddOne(order: seq<nat>, x: nat)
    requires Distinct(order) && x !in Ordered.Elements(order)
    ensures Ordered.Elements(order + [x]) == Ordered.Elements(order) + {x} && Distinct(order + [x])
  {
    assert forall k :: 0 <= k < |order| ==> order[k] in Ordered.Elements(order);
  }

  /** The parts in the order their blocks open. */
  function Places(r: string, t: string, es: seq<ToolEntry>): seq<Part> {
    Spoken(r, t) + Assembled(es, FirstSeen(es))
  }

  predicate InPlace(d: Sealed, places: seq<Part>) {
    d.i < |places| && d.part == places[d.i]
  }

  /** Blocks are numbered in that order, and finished parts are in their places. */
  ghost predicate Placed(s: State, r: string, t: string, es: seq<ToolEntry>) {
    && s.next == |Places(r, t, es)|
    && (s.thinking.Some? ==> s.thinking.value == 0)
    && (s.prose.Some? ==> s.prose.value == |Spoken(r, "")|)
    && NumberedFrom(s.calls, |Spoken(r, t)|, FirstSeen(es))
    && forall d :: d in s.done ==> InPlace(d, Places(r, t, es))
  }

  predicate NumberedFrom(calls: map<nat, OpenCall>, base: nat, order: seq<nat>) {
    forall p :: 0 <= p < |order| && order[p] in calls ==> calls[order[p]].i == base + p
  }

  /** On course: assembled as said, and in place. */
  ghost predicate OnCourse(s: State, r: string, t: string, es: seq<ToolEntry>, finished: bool) {
    Shape(s, r, t, es, finished) && Placed(s, r, t, es)
  }

  // ----- one step at a time -----

  lemma DoneSpoken(s: State, parts: seq<Part>, d: Sealed)
    requires Parts(s.done) == parts && d in s.done
    ensures d.part in parts
  {
    var k :| 0 <= k < |s.done| && s.done[k] == d;
    assert Parts(s.done)[k] == d.part;
  }

  lemma ThinkPlaced(s: State, r: string, text: string)
    requires OnCourse(s, r, "", [], false) && text != ""
    ensures OnCourse(Think(s, text).state, r + text, "", [], false)
  {
    ThinkShape(s, r, text);
    assert |Parts(s.done)| == 0;
  }

  lemma SpeakPlaced(s: State, r: string, t: string, text: string)
    requires OnCourse(s, r, t, [], false) && text != ""
    ensures OnCourse(Speak(s, text).state, r, t + text, [], false)
  {
    SpeakShape(s, r, t, text);
    var s' := Speak(s, text).state;
    forall d | d in s'.done ensures InPlace(d, Places(r, t + text, [])) {
      if d in s.done {
        assert InPlace(d, Places(r, t, []));
        DoneSpoken(s, if t == "" then [] else Spoken(r, ""), d);
      }
    }
  }

  lemma CloseSpokenPlaced(s: State, r: string, t: string)
    requires OnCourse(s, r, t, [], false)
    ensures var s' := CloseSpoken(s).state;
      s'.next == |Spoken(r, t)| && forall d :: d in s'.done ==> InPlace(d, Spoken(r, t)) && !d.part.Call?
  {
    assert Places(r, t, []) == Spoken(r, t);
    var a := CloseThinking(s).state;
    forall d | d in CloseSpoken(s).state.done ensures InPlace(d, Spoken(r, t)) && !d.part.Call? {
      if d in s.done { assert InPlace(d, Places(r, t, [])); }
    }
  }

  /** Spoken parts stay in place whatever the fragments. */
  lemma SpokenStays(d: Sealed, r: string, t: string, es: seq<ToolEntry>, es': seq<ToolEntry>)
    requires InPlace(d, Places(r, t, es)) && !d.part.Call?
    ensures InPlace(d, Places(r, t, es')) && InPlace(d, Spoken(r, t))
  {
  }

  lemma StillSpeaking(s: State, r: string, t: string, es: seq<ToolEntry>, es': seq<ToolEntry>)
    requires Parts(s.done) == Spoken(r, t) && forall d :: d in s.done ==> InPlace(d, Places(r, t, es))
    ensures forall d :: d in s.done ==> InPlace(d, Places(r, t, es'))
  {
    forall d | d in s.done ensures InPlace(d, Places(r, t, es')) {
      DoneSpoken(s, Spoken(r, t), d);
      SpokenStays(d, r, t, es, es');
    }
  }

  lemma StartPlaced(s: State, r: string, t: string, es: seq<ToolEntry>, e: ToolEntry)
    requires OnCourse(s, r, t, es, false) && e.index !in Indices(es)
    ensures Placed(StartCall(s, e.index, e.callId, e.name).state, r, t, es + [e])
  {
    var a := CloseSpoken(s).state;
    var s' := StartCall(s, e.index, e.callId, e.name).state;
    FirstSeenSnoc(es, e);
    FirstSeenOnce(es);
    if es == [] {
      CloseSpokenPlaced(s, r, t);
      CloseSpokenShape(s, r, t);
      NoEntries({});
      forall d | d in a.done ensures InPlace(d, Places(r, t, [])) { assert InPlace(d, Spoken(r, t)); }
    }
    assert Parts(a.done) == Spoken(r, t);
    StillSpeaking(a, r, t, es, es + [e]);
    NumberedMore(a.calls, s'.calls[e.index], |Spoken(r, t)|, FirstSeen(es), e.index);
  }

  lemma NumberedMore(calls: map<nat, OpenCall>, c: OpenCall, base: nat, order: seq<nat>, x: nat)
    requires NumberedFrom(calls, base, order) && c.i == base + |order| && x !in Ordered.Elements(order)
    ensures NumberedFrom(calls[x := c], base, order + [x])
  {
    assert forall k :: 0 <= k < |order| ==> order[k] in Ordered.Elements(order);
  }

  lemma FeedPlaced(s: State, r: string, t: string, es: seq<ToolEntry>, e: ToolEntry)
    requires OnCourse(s, r, t, es, false) && e.index in Indices(es)
    ensures Placed(FeedCall(s, e.index, e.args).state, r, t, es + [e]) && Placed(s, r, t, es + [e])
  {
    FirstSeenSnoc(es, e);
    assert FirstSeen(es + [e]) == FirstSeen(es);
    StillSpeaking(s, r, t, es, es + [e]);
  }

  lemma EntryPlaced(s: State, r: string, t: string, es: seq<ToolEntry>, e: ToolEntry)
    requires OnCourse(s, r, t, es, false)
    ensures OnCourse(Run(s, EntryEvents(Indices(es), e)).state, r, t, es + [e], false)
  {
    EntryShape(s, r, t, es, e);
    RunShort(s, ToolCallStart(e.index, e.callId, e.name), ToolCallArgsDelta(e.index, e.args));
    if e.index in Indices(es) {
      FeedPlaced(s, r, t, es, e);
    } else {
      StartPlaced(s, r, t, es, e);
      ArgsStayPlaced(StartCall(s, e.index, e.callId, e.name).state, r, t, es + [e], e.index, e.args);
    }
  }

  lemma ArgsStayPlaced(s: State, r: string, t: string, es: seq<ToolEntry>, x: nat, args: string)
    requires Placed(s, r, t, es)
    ensures Placed(FeedCall(s, x, args).state, r, t, es)
  {
  }

  // ----- closing calls -----

  lemma {:induction false} CloseCallsDone(s: State, order: seq<nat>)
    ensures forall d :: d in CloseCalls(s, order).state.done ==>
      d in s.done || exists x :: x in s.calls && d == Sealed(s.calls[x].i, s.calls[x].Finished())
    decreases order
  {
    if order != [] {
      var a := CloseCall(s, order[0]).state;
      CloseCallsDone(a, order[1..]);
      forall d | d in CloseCalls(s, order).state.done && d !in s.done
        ensures exists x :: x in s.calls && d == Sealed(s.calls[x].i, s.calls[x].Finished())
      {
        if d !in a.done {
          var x :| x in a.calls && d == Sealed(a.calls[x].i, a.calls[x].Finished());
          assert x in s.calls && s.calls[x] == a.calls[x];
        }
      }
    }
  }

  lemma CallInPlace(calls: map<nat, OpenCall>, r: string, t: string, es: seq<ToolEntry>, x: nat)
    requires Holds(calls, es) && NumberedFrom(calls, |Spoken(r, t)|, FirstSeen(es)) && x in calls
    ensures InPlace(Sealed(calls[x].i, calls[x].Finished()), Places(r, t, es))
  {
    var p := SeenAt(es, x);
    assert calls[x].i == |Spoken(r, t)| + p;
    assert Assembled(es, FirstSeen(es))[p] == CallOf(es, x);
  }

  lemma SeenAt(es: seq<ToolEntry>, x: nat) returns (p: nat)
    requires x in Indices(es)
    ensures p < |FirstSeen(es)| && FirstSeen(es)[p] == x
  {
    FirstSeenOnce(es);
    var order := FirstSeen(es);
    assert x in Ordered.Elements(order);
    p :| p < |order| && order[p] == x;
  }

  lemma ClosingPlaced(s: State, r: string, t: string, es: seq<ToolEntry>, order: seq<nat>)
    requires OnCourse(s, r, t, es, false) && es != []
    ensures Placed(CloseCalls(s, order).state, r, t, es)
  {
    CloseCallsShape(s, order);
    CloseCallsDone(s, order);
    forall d | d in CloseCalls(s, order).state.done ensures InPlace(d, Places(r, t, es)) {
      if d !in s.done {
        var x :| x in s.calls && d == Sealed(s.calls[x].i, s.calls[x].Finished());
        CallInPlace(s.calls, r, t, es, x);
      }
    }
  }

  lemma FinishCallsPlaced(s: State, r: string, t: string, es: seq<ToolEntry>, finished: bool)
    requires OnCourse(s, r, t, es, finished)
    ensures OnCourse(CloseCalls(s, Ordered.Ascending(Indices(es))).state, r, t, es, true)
  {
    FinishShape(s, r, t, es, finished);
    if es == [] || finished {
      CloseNothing(s, Ordered.Ascending(Indices(es)));
    } else {
      ClosingPlaced(s, r, t, es, Ordered.Ascending(Indices(es)));
    }
  }

  // ----- one chunk -----

  lemma HeadPlaced(p: Parser, d: Digest, s: State, r: string, t: string, es: seq<ToolEntry>, finished: bool)
    requires d.Content? && OnCourse(s, r, t, es, finished)
    requires (t != "" ==> d.reasoning == "") && (es != [] ==> d.reasoning == "" && d.content == "")
    ensures OnCourse(Run(s, HeadEvents(p, d)).state, r + d.reasoning, t + d.content, es, finished)
  {
    var s1 := Run(s, CreatedEvents(p, d.model)).state;
    RunShort(s, Created(p.responseId, d.model), Completed);
    assert OnCourse(s1, r, t, es, finished);
    TextPlaced(s1, r, t, es, finished, d.reasoning, d.content);
    RunAppend(s, CreatedEvents(p, d.model), TextEvents(d.reasoning, d.content));
  }

  lemma TextPlaced(s: State, r: string, t: string, es: seq<ToolEntry>, finished: bool, reasoning: string,
                   content: string)
    requires OnCourse(s, r, t, es, finished)
    requires (t != "" ==> reasoning == "") && (es != [] ==> reasoning == "" && content == "")
    ensures OnCourse(Run(s, TextEvents(reasoning, content)).state, r + reasoning, t + content, es, finished)
  {
    var a := if reasoning == "" then [] else [ReasoningDelta(reasoning)];
    var b := if content == "" then [] else [TextDelta(content)];
    assert r + "" == r && t + "" == t;
    RunShort(s, ReasoningDelta(reasoning), Completed);
    var s1 := Run(s, a).state;
    if reasoning != "" { ThinkPlaced(s, r, reasoning); }
    assert OnCourse(s1, r + reasoning, t, es, finished);
    RunShort(s1, TextDelta(content), Completed);
    if content != "" { SpeakPlaced(s1, r + reasoning, t, content); }
    RunAppend(s, a, b);
  }

  lemma {:induction false} EntriesPlaced(s: State, r: string, t: string, seen: seq<ToolEntry>, es: seq<ToolEntry>)
    requires OnCourse(s, r, t, seen, false)
    ensures OnCourse(Run(s, EntriesEvents(Indices(seen), es)).state, r, t, seen + es, false)
    decreases es
  {
    if es == [] {
      assert seen + es == seen;
    } else {
      EntryPlaced(s, r, t, seen, es[0]);
      EntriesPlaced(Run(s, EntryEvents(Indices(seen), es[0])).state, r, t, seen + [es[0]], es[1..]);
      EntriesFirst(s, seen, es);
    }
  }

  lemma TailPlaced(d: Digest, s: State, r: string, t: string, es: seq<ToolEntry>, finished: bool)
    requires d.Content? && OnCourse(s, r, t, es, finished)
    ensures OnCourse(Run(s, TailEvents(Indices(es), d)).state, r, t, es, finished || d.finishes)
  {
    var order := Ordered.Ascending(Indices(es));
    var c, u := FinishEvents(Indices(es), d.finishes), UsageEvents(d.usage);
    RunAppend(s, c, u);
    var s1 := Run(s, c).state;
    if d.finishes {
      RunDones(s, order);
      FinishCallsPlaced(s, r, t, es, finished);
    }
    assert OnCourse(s1, r, t, es, finished || d.finishes);
    if d.usage.Some? { RunShort(s1, UsageReport(d.usage.value), Completed); }
  }

  lemma EmitPlaced(p: Parser, d: Digest, s: State, r: string, t: string, es: seq<ToolEntry>, finished: bool)
    requires d.Content? && p.started == Indices(es) && OnCourse(s, r, t, es, finished)
    requires (t != "" ==> d.reasoning == "") && (es != [] ==> d.reasoning == "" && d.content == "")
    requires finished ==> d.entries == []
    ensures OnCourse(Run(s, Emit(p, d)).state, r + d.reasoning, t + d.content, es + d.entries, finished || d.finishes)
    ensures Advance(p, d).started == Indices(es + d.entries)
  {
    var r', t', es' := r + d.reasoning, t + d.content, es + d.entries;
    IndicesAppend(es, d.entries);
    EmitParts(p, d);
    var head, mid, tail := HeadEvents(p, d), EntriesEvents(p.started, d.entries), TailEvents(Indices(es'), d);
    HeadPlaced(p, d, s, r, t, es, finished);
    var s1 := Run(s, head).state;
    if finished {
      NoEntries(p.started);
      assert es' == es && Run(s1, mid).state == s1;
    } else {
      EntriesPlaced(s1, r', t', es, d.entries);
    }
    var s2 := Run(s1, mid).state;
    TailPlaced(d, s2, r', t', es', finished);
    RunAppend(s1, mid, tail);
    RunAppend(s, head, mid + tail);
  }

  // ----- the end of the run -----

  lemma FinishPlaced(s: State, r: string, t: string, es: seq<ToolEntry>, finished: bool)
    requires OnCourse(s, r, t, es, finished)
    ensures var s' := Finish(s).state;
      s'.next == |Places(r, t, es)| && forall d :: d in s'.done ==> InPlace(d, Places(r, t, es))
  {
    var a := CloseSpoken(s).state;
    var order := Ordered.Ascending(a.calls.Keys);
    CloseCallsShape(a, order);
    if es == [] {
      CloseSpokenPlaced(s, r, t);
      CloseNothing(a, order);
      assert Places(r, t, es) == Spoken(r, t);
    } else if finished {
      CloseNothing(a, order);
    } else {
      assert a == s;
      ClosingPlaced(s, r, t, es, order);
    }
  }
}
