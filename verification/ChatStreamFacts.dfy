/** What every run of the stream parser guarantees to the emitters. */
module ChatStreamFacts {
  import opened Canonical
  import opened ChatStream
  import opened Blocks
  import BL = BlockLifecycle
  import BC = BlockContent
  import Ordered

  /** Events of a run over several chunks. */
  ghost function Feed(p: Parser, ds: seq<Digest>): seq<Event>
    decreases ds
  {
    if ds == [] then [] else Emit(p, ds[0]) + Feed(Advance(p, ds[0]), ds[1..])
  }

  function Starts(evs: seq<Event>): set<nat> {
    if evs == [] then {} else
      (if evs[0].ToolCallStart? then {evs[0].index} else {}) + Starts(evs[1..])
  }

  /** No index in `seen` starts, and none starts twice. */
  predicate StartsOnce(seen: set<nat>, evs: seq<Event>)
    decreases evs
  {
    evs == [] ||
    (if evs[0].ToolCallStart? then evs[0].index !in seen && StartsOnce(seen + {evs[0].index}, evs[1..])
     else StartsOnce(seen, evs[1..]))
  }

  lemma {:induction false} StartsOnceAppend(seen: set<nat>, a: seq<Event>, b: seq<Event>)
    ensures StartsOnce(seen, a + b) <==> StartsOnce(seen, a) && StartsOnce(seen + Starts(a), b)
    ensures Starts(a + b) == Starts(a) + Starts(b)
    decreases a
  {
    if a == [] {
      assert a + b == b && seen + Starts(a) == seen;
    } else {
      assert (a + b)[0] == a[0] && (a + b)[1..] == a[1..] + b;
      var seen' := if a[0].ToolCallStart? then seen + {a[0].index} else seen;
      StartsOnceAppend(seen', a[1..], b);
      assert seen' + Starts(a[1..]) == seen + Starts(a);
    }
  }

  /** Starting each index once is more than the emitters need. */
  lemma {:induction false} StartsOnceNeverReopens(seen: set<nat>, open: set<nat>, evs: seq<Event>)
    requires StartsOnce(seen, evs) && open <= seen
    ensures BL.NoReopen(open, evs)
    decreases evs
  {
    if evs != [] {
      var seen' := if evs[0].ToolCallStart? then seen + {evs[0].index} else seen;
      StartsOnceNeverReopens(seen', BL.OpenAfter(open, evs[0]), evs[1..]);
    }
  }

  predicate NoStarts(evs: seq<Event>) {
    forall k :: 0 <= k < |evs| ==> !evs[k].ToolCallStart?
  }

  lemma {:induction false} NoStartsOnce(seen: set<nat>, evs: seq<Event>)
    requires NoStarts(evs)
    ensures StartsOnce(seen, evs) && Starts(evs) == {}
    decreases evs
  {
    if evs != [] {
      assert forall k :: 0 <= k < |evs[1..]| ==> evs[1..][k] == evs[k + 1];
      NoStartsOnce(seen, evs[1..]);
    }
  }

  lemma {:induction false} EntriesStartOnce(started: set<nat>, es: seq<ToolEntry>)
    ensures StartsOnce(started, EntriesEvents(started, es))
    ensures started + Starts(EntriesEvents(started, es)) == started + Indices(es)
    decreases es
  {
    if es == [] {
      NoEntries(started);
    } else {
      var head, tail := EntryEvents(started, es[0]), EntriesEvents(started + {es[0].index}, es[1..]);
      EntriesStartOnce(started + {es[0].index}, es[1..]);
      EntryStartsOnce(started, es[0]);
      StartsOnceAppend(started, head, tail);
      IndicesStep(es);
    }
  }

  lemma EntryStartsOnce(started: set<nat>, e: ToolEntry)
    ensures StartsOnce(started, EntryEvents(started, e))
    ensures started + Starts(EntryEvents(started, e)) == started + {e.index}
  {
    var args := if e.args == "" then [] else [ToolCallArgsDelta(e.index, e.args)];
    NoStartsOnce(started, args);
    NoStartsOnce(started + {e.index}, args);
    var start := ToolCallStart(e.index, e.callId, e.name);
    assert ([start] + args)[1..] == args;
    if e.index !in started { assert EntryEvents(started, e) == [start] + args; }
    else { assert EntryEvents(started, e) == args; }
  }

  /** Starts in the middle part only. */
  lemma MiddleStarts(seen: set<nat>, a: seq<Event>, b: seq<Event>, c: seq<Event>)
    requires NoStarts(a) && NoStarts(c) && StartsOnce(seen, b)
    ensures StartsOnce(seen, a + (b + c)) && Starts(a + (b + c)) == Starts(b)
  {
    NoStartsOnce(seen, a);
    NoStartsOnce(seen + Starts(b), c);
    StartsOnceAppend(seen, b, c);
    StartsOnceAppend(seen, a, b + c);
    assert seen + Starts(a) == seen;
  }

  lemma HeadStartsNothing(p: Parser, d: Digest)
    requires d.Content?
    ensures NoStarts(HeadEvents(p, d))
  {
    assert NoStarts(CreatedEvents(p, d.model)) && NoStarts(TextEvents(d.reasoning, d.content));
  }

  lemma TailStartsNothing(started: set<nat>, d: Digest)
    requires d.Content?
    ensures NoStarts(TailEvents(started, d))
  {
    assert NoStarts(FinishEvents(started, d.finishes)) && NoStarts(UsageEvents(d.usage));
  }

  lemma EmitStartsOnce(p: Parser, d: Digest)
    ensures StartsOnce(p.started, Emit(p, d))
    ensures p.started + Starts(Emit(p, d)) == Advance(p, d).started
  {
    if d.Failure? {
      NoStartsOnce(p.started, Emit(p, d));
    } else {
      var started' := p.started + Indices(d.entries);
      var head, tail := HeadEvents(p, d), TailEvents(started', d);
      EmitParts(p, d);
      HeadStartsNothing(p, d);
      TailStartsNothing(started', d);
      EntriesStartOnce(p.started, d.entries);
      MiddleStarts(p.started, head, EntriesEvents(p.started, d.entries), tail);
    }
  }

  /** Over any chunks, a parser never starts an index twice. */
  lemma {:induction false} FeedStartsOnce(p: Parser, ds: seq<Digest>)
    ensures StartsOnce(p.started, Feed(p, ds))
    decreases ds
  {
    if ds != [] {
      EmitStartsOnce(p, ds[0]);
      FeedStartsOnce(Advance(p, ds[0]), ds[1..]);
      StartsOnceAppend(p.started, Emit(p, ds[0]), Feed(Advance(p, ds[0]), ds[1..]));
    }
  }

  // ----- text and reasoning pass through -----

  /** The fragment of a channel that a chunk carries; an error chunk carries none. */
  function Fragment(d: Digest, ch: Channel): string {
    if d.Failure? then "" else
      match ch
      case Thought => d.reasoning
      case Speech => d.content
      case Arguments => ""
  }

  function Fragments(ds: seq<Digest>, ch: Channel): string {
    if ds == [] then "" else Fragment(ds[0], ch) + Fragments(ds[1..], ch)
  }

  lemma {:induction false} QuietTold(evs: seq<Event>, ch: Channel)
    requires forall k :: 0 <= k < |evs| ==> !evs[k].ReasoningDelta? && !evs[k].TextDelta?
    ensures BC.Told(evs, ch) == ""
  {
    if evs != [] {
      assert forall k :: 0 <= k < |evs[1..]| ==> evs[1..][k] == evs[k + 1];
      QuietTold(evs[1..], ch);
    }
  }

  predicate IsToolEvent(ev: Event) {
    ev.ToolCallStart? || ev.ToolCallArgsDelta? || ev.ToolCallDone?
  }

  lemma {:induction false} EntriesAreToolEvents(started: set<nat>, es: seq<ToolEntry>)
    ensures forall k :: 0 <= k < |EntriesEvents(started, es)| ==> IsToolEvent(EntriesEvents(started, es)[k])
    decreases es
  {
    if es != [] { EntriesAreToolEvents(started + {es[0].index}, es[1..]); }
  }

  lemma TextEventsTold(reasoning: string, content: string)
    ensures BC.Told(TextEvents(reasoning, content), Thought) == reasoning
    ensures BC.Told(TextEvents(reasoning, content), Speech) == content
  {
    TextEventsToldOn(reasoning, content, Thought);
    TextEventsToldOn(reasoning, content, Speech);
  }

  lemma TextEventsToldOn(reasoning: string, content: string, ch: Channel)
    ensures BC.Told(TextEvents(reasoning, content), ch)
      == match ch case Thought => reasoning case Speech => content case Arguments => ""
  {
    var r := if reasoning == "" then [] else [ReasoningDelta(reasoning)];
    var c := if content == "" then [] else [TextDelta(content)];
    OneTold(ReasoningDelta(reasoning), ch);
    OneTold(TextDelta(content), ch);
    BC.ToldAppend(r, c, ch);
    assert reasoning + "" == reasoning && "" + content == content;
  }

  lemma OneTold(ev: Event, ch: Channel)
    ensures BC.Told([], ch) == "" && BC.Told([ev], ch) == BC.ToldBy(ev, ch)
  {
    assert [ev][1..] == [] && BC.ToldBy(ev, ch) + "" == BC.ToldBy(ev, ch);
  }

  lemma TailTold(started: set<nat>, d: Digest, ch: Channel)
    requires d.Content?
    ensures BC.Told(TailEvents(started, d), ch) == ""
  {
    var evs := TailEvents(started, d);
    forall k | 0 <= k < |evs| ensures !evs[k].ReasoningDelta? && !evs[k].TextDelta? {
      assert evs[k] == if k < |FinishEvents(started, d.finishes)| then FinishEvents(started, d.finishes)[k]
        else UsageEvents(d.usage)[k - |FinishEvents(started, d.finishes)|];
    }
    QuietTold(evs, ch);
  }

  /** Told in the first part only. */
  lemma HeadAloneTold(a: seq<Event>, b: seq<Event>, c: seq<Event>, ch: Channel)
    requires BC.Told(b, ch) == "" && BC.Told(c, ch) == ""
    ensures BC.Told(a + (b + c), ch) == BC.Told(a, ch)
  {
    BC.ToldAppend(b, c, ch);
    BC.ToldAppend(a, b + c, ch);
  }

  lemma EmitTold(p: Parser, d: Digest, ch: Channel)
    ensures BC.Told(Emit(p, d), ch) == Fragment(d, ch)
  {
    if d.Failure? {
      QuietTold(Emit(p, d), ch);
    } else {
      var a, b, c := HeadEvents(p, d), EntriesEvents(p.started, d.entries),
        TailEvents(p.started + Indices(d.entries), d);
      EmitParts(p, d);
      HeadTold(p, d, ch);
      EntriesAreToolEvents(p.started, d.entries);
      QuietTold(b, ch);
      TailTold(p.started + Indices(d.entries), d, ch);
      HeadAloneTold(a, b, c, ch);
    }
  }

  lemma HeadTold(p: Parser, d: Digest, ch: Channel)
    requires d.Content?
    ensures BC.Told(HeadEvents(p, d), ch) == Fragment(d, ch)
  {
    var a, b := CreatedEvents(p, d.model), TextEvents(d.reasoning, d.content);
    QuietTold(a, ch);
    if ch == Arguments { ArgumentsNeverTold(b); } else { TextEventsTold(d.reasoning, d.content); }
    BC.ToldAppend(a, b, ch);
    assert "" + Fragment(d, ch) == Fragment(d, ch);
  }

  lemma {:induction false} ArgumentsNeverTold(evs: seq<Event>)
    ensures BC.Told(evs, Arguments) == ""
  {
    if evs != [] { ArgumentsNeverTold(evs[1..]); }
  }

  /** The parser's text (reasoning) events join to the upstream fragments. */
  lemma {:induction false} FeedTold(p: Parser, ds: seq<Digest>, ch: Channel)
    ensures BC.Told(Feed(p, ds), ch) == Fragments(ds, ch)
    decreases ds
  {
    if ds != [] {
      EmitTold(p, ds[0], ch);
      FeedTold(Advance(p, ds[0]), ds[1..], ch);
      BC.ToldAppend(Emit(p, ds[0]), Feed(Advance(p, ds[0]), ds[1..]), ch);
    }
  }

  // ----- arguments of one call, up to its first finish chunk -----

  function EntryArgs(es: seq<ToolEntry>, x: nat): string {
    if es == [] then "" else (if es[0].index == x then es[0].args else "") + EntryArgs(es[1..], x)
  }

  /** The chunk finishes call `x`, which `started` or this chunk has begun. */
  predicate Finishing(started: set<nat>, d: Digest, x: nat) {
    d.Content? && d.finishes && x in started + Indices(d.entries)
  }

  /** Upstream argument fragments of index `x`, through the first chunk that
      finishes it. */
  function UpstreamArgs(started: set<nat>, ds: seq<Digest>, x: nat): string
    decreases ds
  {
    if ds == [] then "" else
      var d := ds[0];
      if d.Failure? then UpstreamArgs(started, ds[1..], x) else
        EntryArgs(d.entries, x)
        + if Finishing(started, d, x) then "" else UpstreamArgs(started + Indices(d.entries), ds[1..], x)
  }

  /** Argument events of `x` between its start and its first end. */
  function CallArgs(evs: seq<Event>, x: nat): string {
    if evs == [] then "" else
      if evs[0].ToolCallStart? && evs[0].index == x then BC.ArgsUntilDone(evs[1..], x) else CallArgs(evs[1..], x)
  }

  /** `ArgsUntilDone` once `x` has started, `CallArgs` before. */
  function ArgsFrom(started: set<nat>, evs: seq<Event>, x: nat): string {
    if x in started then BC.ArgsUntilDone(evs, x) else CallArgs(evs, x)
  }

  /** Whether the call ends within `evs`, given what has started. */
  predicate EndsWithin(started: set<nat>, evs: seq<Event>, x: nat) {
    if x in started then BC.HasEnd(evs, x) else CallEnds(evs, x)
  }

  predicate CallEnds(evs: seq<Event>, x: nat) {
    evs != [] &&
    if evs[0].ToolCallStart? && evs[0].index == x then BC.HasEnd(evs[1..], x) else CallEnds(evs[1..], x)
  }

  lemma {:induction false} ArgsUntilDoneAppend(a: seq<Event>, b: seq<Event>, x: nat)
    ensures BC.ArgsUntilDone(a + b, x)
      == BC.ArgsUntilDone(a, x) + if BC.HasEnd(a, x) then "" else BC.ArgsUntilDone(b, x)
    ensures BC.HasEnd(a + b, x) <==> BC.HasEnd(a, x) || BC.HasEnd(b, x)
  {
    if a == [] {
      assert a + b == b;
    } else {
      assert (a + b)[0] == a[0] && (a + b)[1..] == a[1..] + b;
      ArgsUntilDoneAppend(a[1..], b, x);
    }
  }

  lemma {:induction false} ArgsFromAppend(started: set<nat>, a: seq<Event>, b: seq<Event>, x: nat)
    ensures ArgsFrom(started, a + b, x) == ArgsFrom(started, a, x)
      + if EndsWithin(started, a, x) then "" else ArgsFrom(started + Starts(a), b, x)
    ensures EndsWithin(started, a + b, x) <==> EndsWithin(started, a, x) || EndsWithin(started + Starts(a), b, x)
    decreases a
  {
    if x in started {
      ArgsUntilDoneAppend(a, b, x);
    } else if a == [] {
      assert a + b == b && started + Starts(a) == started;
    } else {
      assert (a + b)[0] == a[0] && (a + b)[1..] == a[1..] + b;
      if a[0].ToolCallStart? && a[0].index == x {
        ArgsUntilDoneAppend(a[1..], b, x);
      } else {
        ArgsFromAppend(started, a[1..], b, x);
      }
    }
  }

  lemma {:induction false} EntriesArgs(started: set<nat>, es: seq<ToolEntry>, x: nat)
    ensures ArgsFrom(started, EntriesEvents(started, es), x) == EntryArgs(es, x)
    ensures !EndsWithin(started, EntriesEvents(started, es), x)
    decreases es
  {
    if es == [] {
      NoEntries(started);
    } else {
      var head, tail := EntryEvents(started, es[0]), EntriesEvents(started + {es[0].index}, es[1..]);
      EntriesArgs(started + {es[0].index}, es[1..], x);
      EntryStartsOnce(started, es[0]);
      OneEntryArgs(started, es[0], x);
      ArgsFromAppend(started, head, tail, x);
    }
  }

  lemma OneEntryArgs(started: set<nat>, e: ToolEntry, x: nat)
    ensures ArgsFrom(started, EntryEvents(started, e), x) == if e.index == x then e.args else ""
    ensures !EndsWithin(started, EntryEvents(started, e), x)
  {
    ArgsAlone(e, x);
    if e.index in started {
      assert EntryEvents(started, e) == ArgEvents(e);
    } else {
      assert EntryEvents(started, e) == [ToolCallStart(e.index, e.callId, e.name)] + ArgEvents(e);
      StartThenArgs(ToolCallStart(e.index, e.callId, e.name), ArgEvents(e), x);
    }
  }

  function ArgEvents(e: ToolEntry): seq<Event> {
    if e.args == "" then [] else [ToolCallArgsDelta(e.index, e.args)]
  }

  lemma ArgsAlone(e: ToolEntry, x: nat)
    ensures BC.ArgsUntilDone(ArgEvents(e), x) == if e.index == x then e.args else ""
    ensures CallArgs(ArgEvents(e), x) == "" && !BC.HasEnd(ArgEvents(e), x) && !CallEnds(ArgEvents(e), x)
  {
    var ev := ToolCallArgsDelta(e.index, e.args);
    assert [ev][1..] == [];
    assert BC.ArgsUntilDone([], x) == "" && CallArgs([], x) == "" && !BC.HasEnd([], x) && !CallEnds([], x);
    if e.args != "" {
      assert ArgEvents(e) == [ev];
      assert BC.ArgsUntilDone([ev], x) == BC.ArgsBy(ev, x) + "" == BC.ArgsBy(ev, x);
    }
  }

  lemma StartThenArgs(start: Event, rest: seq<Event>, x: nat)
    requires start.ToolCallStart?
    ensures BC.ArgsUntilDone([start] + rest, x) == BC.ArgsUntilDone(rest, x)
    ensures BC.HasEnd([start] + rest, x) <==> BC.HasEnd(rest, x)
    ensures CallArgs([start] + rest, x) == if start.index == x then BC.ArgsUntilDone(rest, x) else CallArgs(rest, x)
    ensures CallEnds([start] + rest, x) <==> if start.index == x then BC.HasEnd(rest, x) else CallEnds(rest, x)
  {
    assert ([start] + rest)[0] == start && ([start] + rest)[1..] == rest;
    assert "" + BC.ArgsUntilDone(rest, x) == BC.ArgsUntilDone(rest, x);
  }

  predicate Inert(evs: seq<Event>) {
    forall k :: 0 <= k < |evs| ==> !IsToolEvent(evs[k]) && !evs[k].Completed?
  }

  lemma {:induction false} InertArgs(started: set<nat>, evs: seq<Event>, x: nat)
    requires Inert(evs)
    ensures ArgsFrom(started, evs, x) == "" && !EndsWithin(started, evs, x) && Starts(evs) == {}
  {
    if evs != [] {
      assert forall k :: 0 <= k < |evs[1..]| ==> evs[1..][k] == evs[k + 1];
      InertArgs(started, evs[1..], x);
    }
  }

  lemma {:induction false} DonesArgs(started: set<nat>, order: seq<nat>, x: nat)
    ensures ArgsFrom(started, DoneEvents(order), x) == "" && Starts(DoneEvents(order)) == {}
    ensures EndsWithin(started, DoneEvents(order), x) <==> x in started && x in order
  {
    if order != [] {
      assert DoneEvents(order)[1..] == DoneEvents(order[1..]);
      DonesArgs(started, order[1..], x);
    }
  }

  /** Arguments come from the middle part only, and ends from the middle or the last. */
  lemma MiddleArgs(started: set<nat>, a: seq<Event>, b: seq<Event>, c: seq<Event>, x: nat)
    requires Inert(a) && !EndsWithin(started, b, x) && ArgsFrom(started + Starts(b), c, x) == ""
    ensures ArgsFrom(started, a + (b + c), x) == ArgsFrom(started, b, x)
    ensures EndsWithin(started, a + (b + c), x) <==> EndsWithin(started + Starts(b), c, x)
  {
    InertArgs(started, a, x);
    ArgsFromAppend(started, b, c, x);
    ArgsFromAppend(started, a, b + c, x);
    assert started + Starts(a) == started;
  }

  lemma HeadInert(p: Parser, d: Digest)
    requires d.Content?
    ensures Inert(HeadEvents(p, d))
  {
    assert Inert(CreatedEvents(p, d.model)) && Inert(TextEvents(d.reasoning, d.content));
  }

  lemma EmitArgs(p: Parser, d: Digest, x: nat)
    requires d.Content?
    ensures ArgsFrom(p.started, Emit(p, d), x) == EntryArgs(d.entries, x)
    ensures EndsWithin(p.started, Emit(p, d), x) <==> Finishing(p.started, d, x)
  {
    var started' := p.started + Indices(d.entries);
    var a, b, c := HeadEvents(p, d), EntriesEvents(p.started, d.entries), TailEvents(started', d);
    EmitParts(p, d);
    HeadInert(p, d);
    EntriesArgs(p.started, d.entries, x);
    EntriesStartOnce(p.started, d.entries);
    FinishArgs(started', d, x);
    MiddleArgs(p.started, a, b, c, x);
  }

  lemma FinishArgs(started: set<nat>, d: Digest, x: nat)
    requires d.Content?
    ensures var evs := TailEvents(started, d);
      ArgsFrom(started, evs, x) == "" && (EndsWithin(started, evs, x) <==> d.finishes && x in started)
  {
    var order := Ordered.Ascending(started);
    var c, u := FinishEvents(started, d.finishes), UsageEvents(d.usage);
    assert x in order <==> x in Ordered.Elements(order);
    DonesArgs(started, order, x);
    InertArgs(started, [], x);
    InertArgs(started, u, x);
    ArgsFromAppend(started, c, u, x);
    assert started + Starts(c) == started;
  }

  /** The argument events of a call, from its start to its first end, join to the
      upstream fragments up to the call's first finish chunk. */
  lemma {:induction false} FeedArgs(p: Parser, ds: seq<Digest>, x: nat)
    ensures ArgsFrom(p.started, Feed(p, ds), x) == UpstreamArgs(p.started, ds, x)
    decreases ds
  {
    if ds != [] {
      var p' := Advance(p, ds[0]);
      FeedArgs(p', ds[1..], x);
      EmitStartsOnce(p, ds[0]);
      ArgsFromAppend(p.started, Emit(p, ds[0]), Feed(p', ds[1..]), x);
      if ds[0].Content? { EmitArgs(p, ds[0], x); } else { InertArgs(p.started, Emit(p, ds[0]), x); }
    }
  }
}
