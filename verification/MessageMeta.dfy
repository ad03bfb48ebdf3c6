/** Which identity, model and usage a run ends with. */
module MessageMeta {
  import opened Wrappers
  import opened Canonical
  import opened ChatStream
  import opened Blocks
  import F = ChatStreamFacts
  import Ordered

  function LastUsage(prior: Option<Usage>, ds: seq<Digest>): Option<Usage>
    decreases ds
  {
    if ds == [] then prior else LastUsage(if ds[0].Content? then OrElse(ds[0].usage, prior) else prior, ds[1..])
  }

  datatype Meta = Meta(responseId: string, model: string, usage: Option<Usage>)

  function MetaBy(m: Meta, ev: Event): Meta {
    match ev
    case Created(responseId, model) => Meta(responseId, model, m.usage)
    case UsageReport(usage) => m.(usage := Some(usage))
    case _ => m
  }

  function MetaAfter(m: Meta, evs: seq<Event>): Meta
    decreases evs
  {
    if evs == [] then m else MetaAfter(MetaBy(m, evs[0]), evs[1..])
  }

  function MetaOf(s: State): Meta {
    Meta(s.responseId, s.model, s.usage)
  }

  lemma {:induction false} CloseCallsMeta(s: State, order: seq<nat>)
    ensures MetaOf(CloseCalls(s, order).state) == MetaOf(s)
    decreases order
  {
    if order != [] { CloseCallsMeta(CloseCall(s, order[0]).state, order[1..]); }
  }

  lemma StepMeta(s: State, ev: Event)
    ensures MetaOf(Step(s, ev).state) == MetaBy(MetaOf(s), ev)
  {
    CloseSpokenMeta(s);
    if ev.Completed? {
      var a := CloseSpoken(s).state;
      CloseCallsMeta(a, Ordered.Ascending(a.calls.Keys));
    }
  }

  lemma CloseSpokenMeta(s: State)
    ensures MetaOf(CloseSpoken(s).state) == MetaOf(CloseThinking(s).state) == MetaOf(s)
  {
  }

  lemma {:induction false} RunMeta(s: State, evs: seq<Event>)
    ensures MetaOf(Run(s, evs).state) == MetaAfter(MetaOf(s), evs)
    decreases evs
  {
    if evs != [] {
      StepMeta(s, evs[0]);
      RunMeta(Step(s, evs[0]).state, evs[1..]);
    }
  }

  lemma {:induction false} MetaAppend(m: Meta, a: seq<Event>, b: seq<Event>)
    ensures MetaAfter(m, a + b) == MetaAfter(MetaAfter(m, a), b)
    decreases a
  {
    if a == [] {
      assert a + b == b;
    } else {
      assert (a + b)[0] == a[0] && (a + b)[1..] == a[1..] + b;
      MetaAppend(MetaBy(m, a[0]), a[1..], b);
    }
  }

  predicate Plain(ev: Event) {
    !ev.Created? && !ev.UsageReport?
  }

  lemma {:induction false} PlainMeta(m: Meta, evs: seq<Event>)
    requires forall k :: 0 <= k < |evs| ==> Plain(evs[k])
    ensures MetaAfter(m, evs) == m
  {
    if evs != [] {
      assert forall k :: 0 <= k < |evs[1..]| ==> evs[1..][k] == evs[k + 1];
      PlainMeta(m, evs[1..]);
    }
  }

  lemma OneMeta(m: Meta, ev: Event)
    ensures MetaAfter(m, [ev]) == MetaBy(m, ev)
  {
    assert [ev][1..] == [];
    assert MetaAfter(MetaBy(m, ev), []) == MetaBy(m, ev);
  }

  lemma HeadMeta(p: Parser, d: Digest, m: Meta)
    requires d.Content?
    ensures MetaAfter(m, HeadEvents(p, d)) == if p.created then m else Meta(p.responseId, d.model, m.usage)
  {
    var a, b := CreatedEvents(p, d.model), TextEvents(d.reasoning, d.content);
    MetaAppend(m, a, b);
    if !p.created { OneMeta(m, Created(p.responseId, d.model)); }
    PlainMeta(MetaAfter(m, a), b);
  }

  lemma UsageMeta(usage: Option<Usage>, m: Meta)
    ensures MetaAfter(m, UsageEvents(usage)) == m.(usage := OrElse(usage, m.usage))
  {
    if usage.Some? { OneMeta(m, UsageReport(usage.value)); }
  }

  lemma EmitMeta(p: Parser, d: Digest, m: Meta)
    requires d.Content?
    ensures MetaAfter(m, Emit(p, d)) ==
      (if p.created then m else Meta(p.responseId, d.model, m.usage)).(usage := OrElse(d.usage, m.usage))
  {
    EmitParts(p, d);
    var started := p.started + Indices(d.entries);
    var a, b, c, u := HeadEvents(p, d), EntriesEvents(p.started, d.entries), FinishEvents(started, d.finishes),
      UsageEvents(d.usage);
    HeadMeta(p, d, m);
    var m1 := MetaAfter(m, a);
    F.EntriesAreToolEvents(p.started, d.entries);
    PlainMeta(m1, b);
    PlainMeta(m1, c);
    UsageMeta(d.usage, m1);
    MetaAppend(m1, c, u);
    MetaAppend(m1, b, c + u);
    MetaAppend(m, a, b + (c + u));
  }

  lemma {:induction false} FeedMeta(p: Parser, ds: seq<Digest>, m: Meta)
    requires forall k :: 0 <= k < |ds| ==> ds[k].Content?
    ensures MetaAfter(m, F.Feed(p, ds)) ==
      (if p.created || ds == [] then m else Meta(p.responseId, ds[0].model, m.usage)).(usage := LastUsage(m.usage, ds))
    decreases ds
  {
    if ds != [] {
      EmitMeta(p, ds[0], m);
      FeedMeta(Advance(p, ds[0]), ds[1..], MetaAfter(m, Emit(p, ds[0])));
      MetaAppend(m, Emit(p, ds[0]), F.Feed(Advance(p, ds[0]), ds[1..]));
    }
  }

  lemma {:induction false} CallsPlain(from: nat, es: seq<ToolEntry>)
    ensures forall k :: 0 <= k < |CallsEvents(from, es)| ==> Plain(CallsEvents(from, es)[k])
    decreases es
  {
    if es != [] { CallsPlain(from + 1, es[1..]); }
  }
}
