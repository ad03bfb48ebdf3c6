/** How the frames of a Responses stream hang together: one response id, every frame under
    the id of its item, and closing frames that repeat one another. */
module ResponsesGrammar {
  import opened Canonical
  import opened Blocks
  import opened Responses
  import opened BlockReading
  import opened ResponsesFacts
  import CS = ChatStream
  import F = ChatStreamFacts
  import MessageMeta
  import P = Pipeline
  import PF = PipelineFacts

  // ----- the ids of items -----

  /** The item id and output index that a frame names, if it continues or ends an item. */
  datatype Mention = NoItem | Mention(id: Id, index: nat)

  function MentionOf(b: Body): Mention {
    match b
    case PartAdded(id, i) => Mention(id, i)
    case SummaryDelta(id, i, _) => Mention(id, i)
    case OutputTextDelta(id, i, _) => Mention(id, i)
    case ArgumentsDelta(id, i, _) => Mention(id, i)
    case OutputTextDone(id, i, _) => Mention(id, i)
    case PartDone(id, i, _) => Mention(id, i)
    case ArgumentsDone(id, i, _) => Mention(id, i)
    case ItemDone(i, item) => Mention(item.id, i)
    case _ => NoItem
  }

  /** The item named is among those with these ids. */
  predicate Knows(ids: seq<Id>, m: Mention) {
    match m case NoItem => true case Mention(id, i) => i < |ids| && ids[i] == id
  }

  /** `ids` are those of the items added so far: new items take the next index, and every
      other frame names an item by its index and its id. */
  predicate Named(ids: seq<Id>, bodies: seq<Body>)
    decreases bodies
  {
    bodies == [] ||
    (match bodies[0]
     case ItemAdded(i, item) => i == |ids| && item.id !in ids && Named(ids + [item.id], bodies[1..])
     case b => Knows(ids, MentionOf(b)) && Named(ids, bodies[1..]))
  }

  function After(ids: seq<Id>, bodies: seq<Body>): seq<Id>
    decreases bodies
  {
    if bodies == [] then ids
    else After(if bodies[0].ItemAdded? then ids + [bodies[0].item.id] else ids, bodies[1..])
  }

  lemma {:induction false} NamedAppend(ids: seq<Id>, a: seq<Body>, b: seq<Body>)
    ensures Named(ids, a + b) <==> Named(ids, a) && Named(After(ids, a), b)
    ensures After(ids, a + b) == After(After(ids, a), b)
    decreases a
  {
    if a == [] {
      assert a + b == b;
    } else {
      assert (a + b)[0] == a[0] && (a + b)[1..] == a[1..] + b;
      NamedAppend(if a[0].ItemAdded? then ids + [a[0].item.id] else ids, a[1..], b);
    }
  }

  function PrefixOf(kind: Kind): string {
    match kind case ReasoningKind => "rs" case ProseKind => "msg" case CallKind(_, _) => "fc"
  }

  /** The ids of the blocks that a reader has. */
  function IdsOf(book: seq<Draft>): seq<Id> {
    seq(|book|, k requires 0 <= k < |book| => Id(PrefixOf(book[k].kind), k))
  }

  lemma NamedShort(ids: seq<Id>, a: Body, b: Body, c: Body)
    requires !b.ItemAdded? && !c.ItemAdded?
    ensures var ids' := if a.ItemAdded? then ids + [a.item.id] else ids;
      && After(ids, [a]) == After(ids, [a, b]) == After(ids, [a, b, c]) == ids'
      && (Named(ids, [a, b]) <==> Named(ids, [a]) && Named(ids', [b]))
      && (Named(ids, [a, b, c]) <==> Named(ids, [a]) && Named(ids', [b]) && Named(ids', [c]))
  {
    var ids' := if a.ItemAdded? then ids + [a.item.id] else ids;
    assert [a, b] == [a] + [b] && [a, b, c] == [a, b] + [c];
    NamedAppend(ids, [a], [b]);
    NamedAppend(ids, [a, b], [c]);
    NamedOne(ids, a);
    NamedOne(ids', b);
    NamedOne(ids', c);
  }

  lemma NamedOne(ids: seq<Id>, b: Body)
    ensures Named(ids, []) && After(ids, []) == ids
    ensures Named(ids, [b]) <==>
      if b.ItemAdded? then b.outputIndex == |ids| && b.item.id !in ids
      else Knows(ids, MentionOf(b))
    ensures After(ids, [b]) == if b.ItemAdded? then ids + [b.item.id] else ids
  {
    assert [b][1..] == [];
  }

  lemma OpenNamed(book: seq<Draft>, m: Mark)
    requires m.Open? && Proper(book, m)
    ensures Named(IdsOf(book), Render(m)) && After(IdsOf(book), Render(m)) == IdsOf(Bind(book, m))
  {
    var ids, r := IdsOf(book), Render(m);
    NamedOne(ids, r[0]);
    assert IdsOf(Bind(book, m)) == ids + [Id(PrefixOf(m.kind), m.i)];
    if m.kind.ProseKind? {
      NamedShort(ids, r[0], r[1], r[1]);
      NamedOne(ids + [r[0].item.id], r[1]);
    }
  }

  lemma OtherNamed(book: seq<Draft>, m: Mark)
    requires !m.Open? && Proper(book, m)
    ensures Named(IdsOf(book), Render(m)) && After(IdsOf(book), Render(m)) == IdsOf(Bind(book, m))
  {
    var ids, r := IdsOf(book), Render(m);
    assert ids[m.i] == Id(PrefixOf(book[m.i].kind), m.i);
    assert IdsOf(Bind(book, m)) == ids;
    NamedOne(ids, r[0]);
    if |r| == 2 { NamedShort(ids, r[0], r[1], r[1]); NamedOne(ids, r[1]); }
    if |r| == 3 { NamedShort(ids, r[0], r[1], r[2]); NamedOne(ids, r[1]); NamedOne(ids, r[2]); }
  }

  lemma {:induction false} RenderAllNamed(book: seq<Draft>, marks: seq<Mark>)
    requires ProperAll(book, marks)
    ensures Named(IdsOf(book), RenderAll(marks)) && After(IdsOf(book), RenderAll(marks)) == IdsOf(BindAll(book, marks))
    decreases marks
  {
    if marks != [] {
      if marks[0].Open? { OpenNamed(book, marks[0]); } else { OtherNamed(book, marks[0]); }
      RenderAllNamed(Bind(book, marks[0]), marks[1..]);
      NamedAppend(IdsOf(book), Render(marks[0]), RenderAll(marks[1..]));
    }
  }

  lemma CompletedNamed(book: seq<Draft>, marks: seq<Mark>, response: Response)
    requires ProperAll(book, marks)
    ensures var bodies := RenderAll(marks) + [ResponseCompleted(response)];
      Named(IdsOf(book), bodies) && After(IdsOf(book), bodies) == IdsOf(BindAll(book, marks))
  {
    RenderAllNamed(book, marks);
    NamedAppend(IdsOf(book), RenderAll(marks), [ResponseCompleted(response)]);
    NamedOne(After(IdsOf(book), RenderAll(marks)), ResponseCompleted(response));
  }

  lemma BodiesNamed(book: seq<Draft>, s: State, ev: Event)
    requires ProperAll(book, Step(s, ev).marks)
    ensures Named(IdsOf(book), Bodies(s, ev))
    ensures After(IdsOf(book), Bodies(s, ev)) == IdsOf(BindAll(book, Step(s, ev).marks))
  {
    var ids, bodies := IdsOf(book), Bodies(s, ev);
    match ev
    case Created(_, _) => NamedOne(ids, bodies[0]);
    case Error(_, _) => NamedOne(ids, bodies[0]);
    case Completed =>
      CompletedNamed(book, Finish(s).marks, Final(Finish(s).state));
    case _ => RenderAllNamed(book, Step(s, ev).marks);
  }

  lemma {:induction false} RunNamed(book: seq<Draft>, s: State, evs: seq<Event>)
    requires ProperAll(book, Run(s, evs).marks)
    ensures Named(IdsOf(book), RunBodies(s, evs))
    decreases evs
  {
    if evs != [] {
      var a := Step(s, evs[0]);
      ProperAppend(book, a.marks, Run(a.state, evs[1..]).marks);
      BodiesNamed(book, s, evs[0]);
      RunNamed(BindAll(book, a.marks), a.state, evs[1..]);
      NamedAppend(IdsOf(book), Bodies(s, evs[0]), RunBodies(a.state, evs[1..]));
    }
  }

  /** Frame `q` adds the item that frame `p` names. */
  predicate AddedAt(bodies: seq<Body>, q: nat, m: Mention)
    requires m.Mention?
  {
    q < |bodies| && bodies[q].ItemAdded? && bodies[q].outputIndex == m.index && bodies[q].item.id == m.id
  }

  lemma {:induction false} NamedFromAdded(before: seq<Body>, bodies: seq<Body>, p: nat)
    requires Named(After([], before), bodies) && Named([], before) && p < |bodies| && MentionOf(bodies[p]).Mention?
    ensures exists q: nat :: q < |before| + p && AddedAt(before + bodies, q, MentionOf(bodies[p]))
    decreases p
  {
    var ids, m := After([], before), MentionOf(bodies[p]);
    if p == 0 {
      var q := IdAdded(before, m.index);
      assert AddedAt(before + bodies, q, m);
    } else {
      var b := bodies[0];
      assert before + bodies == (before + [b]) + bodies[1..];
      NamedAppend([], before, [b]);
      NamedOne(ids, b);
      NamedFromAdded(before + [b], bodies[1..], p - 1);
    }
  }

  /** The item of index `i` was added by some frame. */
  lemma {:induction false} IdAdded(before: seq<Body>, i: nat) returns (q: nat)
    requires Named([], before) && i < |After([], before)|
    ensures q < |before| && AddedAt(before, q, Mention(After([], before)[i], i))
    decreases |before|
  {
    q := 0;
    if before != [] {
      var init, last := before[..|before| - 1], before[|before| - 1];
      assert before == init + [last];
      NamedAppend([], init, [last]);
      NamedOne(After([], init), last);
      if i < |After([], init)| { q := IdAdded(init, i); } else { q := |init|; }
    }
  }

  /** On every run each frame about an item carries the id and the index of an item that an
      earlier frame added. */
  lemma FramesNameTheirItems(evs: seq<Event>, p: nat)
    requires p < |RunBodies(INIT, evs)| && MentionOf(RunBodies(INIT, evs)[p]).Mention?
    ensures var bodies := RunBodies(INIT, evs); exists q: nat :: q < p && AddedAt(bodies, q, MentionOf(bodies[p]))
  {
    var bodies := RunBodies(INIT, evs);
    RunReads(INIT, evs, []);
    RunNamed([], INIT, evs);
    assert IdsOf([]) == [] == After([], []);
    NamedFromAdded([], bodies, p);
    assert [] + bodies == bodies;
  }

  // ----- closing frames repeat one another -----

  /** Items are added empty, and a message with its empty part; a message ends with its text
      three times over, a call with its arguments twice. */
  predicate Grammatical(bodies: seq<Body>)
    decreases bodies
  {
    bodies == [] ||
    match bodies[0]
    case ItemAdded(i, MessageItem(id, status, content)) =>
      status == "in_progress" && content == [] && |bodies| >= 2 && bodies[1] == PartAdded(id, i)
      && Grammatical(bodies[2..])
    case ItemAdded(_, ReasoningItem(_, summary)) => summary == [] && Grammatical(bodies[1..])
    case ItemAdded(_, CallItem(_, _, _, args, status)) =>
      args == "" && status == "in_progress" && Grammatical(bodies[1..])
    case OutputTextDone(id, i, text) =>
      |bodies| >= 3 && bodies[1] == PartDone(id, i, text)
      && bodies[2] == ItemDone(i, MessageItem(id, "completed", [text])) && Grammatical(bodies[3..])
    case ArgumentsDone(id, i, args) =>
      |bodies| >= 2 && bodies[1].ItemDone? && bodies[1].outputIndex == i && bodies[1].item.CallItem?
      && bodies[1].item.id == id && bodies[1].item.arguments == args && bodies[1].item.status == "completed"
      && Grammatical(bodies[2..])
    case ItemDone(_, item) => item.ReasoningItem? && |item.summary| == 1 && Grammatical(bodies[1..])
    case PartAdded(_, _) => false
    case PartDone(_, _, _) => false
    case _ => Grammatical(bodies[1..])
  }

  /** How many frames the first one brings with it. */
  function Span(bodies: seq<Body>): nat
    requires bodies != []
  {
    match bodies[0]
    case ItemAdded(_, MessageItem(_, _, _)) => 2
    case OutputTextDone(_, _, _) => 3
    case ArgumentsDone(_, _, _) => 2
    case _ => 1
  }

  lemma {:induction false} GrammaticalAppend(a: seq<Body>, b: seq<Body>)
    requires Grammatical(a) && Grammatical(b)
    ensures Grammatical(a + b)
    decreases |a|
  {
    if a == [] {
      assert a + b == b;
    } else {
      HeadKept(a, b, Span(a));
      GrammaticalAppend(a[Span(a)..], b);
    }
  }

  lemma HeadKept(a: seq<Body>, b: seq<Body>, n: nat)
    requires 0 < n <= |a|
    ensures (a + b)[n..] == a[n..] + b && (a + b)[0] == a[0]
    ensures n > 1 ==> (a + b)[1] == a[1]
    ensures n > 2 ==> (a + b)[2] == a[2]
  {
  }

  lemma RenderGrammatical(m: Mark)
    ensures Grammatical(Render(m))
  {
    var r := Render(m);
    assert r[Span(r)..] == [] && Grammatical([]);
  }

  lemma {:induction false} RenderAllGrammatical(marks: seq<Mark>)
    ensures Grammatical(RenderAll(marks))
  {
    if marks != [] {
      RenderGrammatical(marks[0]);
      RenderAllGrammatical(marks[1..]);
      GrammaticalAppend(Render(marks[0]), RenderAll(marks[1..]));
    }
  }

  lemma OutsideGrammatical(b: Body)
    requires b.ResponseCreated? || b.ResponseFailed? || b.ResponseCompleted?
    ensures Grammatical([b])
  {
    assert [b][1..] == [];
  }

  lemma BodiesGrammatical(s: State, ev: Event)
    ensures Grammatical(Bodies(s, ev))
  {
    match ev
    case Created(id, model) => OutsideGrammatical(ResponseCreated(id, model));
    case Error(message, status) => OutsideGrammatical(ResponseFailed(s.responseId, status, message));
    case Completed =>
      RenderAllGrammatical(Finish(s).marks);
      OutsideGrammatical(ResponseCompleted(Final(Finish(s).state)));
      GrammaticalAppend(RenderAll(Finish(s).marks), [ResponseCompleted(Final(Finish(s).state))]);
    case _ => RenderAllGrammatical(Step(s, ev).marks);
  }

  /** On every run the frames keep this grammar. */
  lemma {:induction false} RunGrammatical(s: State, evs: seq<Event>)
    ensures Grammatical(RunBodies(s, evs))
    decreases evs
  {
    if evs == [] {
      assert RunBodies(s, evs) == [];
    } else {
      BodiesGrammatical(s, evs[0]);
      RunGrammatical(Step(s, evs[0]).state, evs[1..]);
      GrammaticalAppend(Bodies(s, evs[0]), RunBodies(Step(s, evs[0]).state, evs[1..]));
    }
  }

  // ----- one response id -----

  /** The id and model that the stream was last announced under are the ones that its
      failures and completions carry. */
  predicate Identified(id: string, model: string, bodies: seq<Body>)
    decreases bodies
  {
    bodies == [] ||
    match bodies[0]
    case ResponseCreated(id', model') => Identified(id', model', bodies[1..])
    case ResponseFailed(id', _, _) => id' == id && Identified(id, model, bodies[1..])
    case ResponseCompleted(r) => r.id == id && r.model == model && Identified(id, model, bodies[1..])
    case _ => Identified(id, model, bodies[1..])
  }

  predicate AboutItems(bodies: seq<Body>) {
    forall k :: 0 <= k < |bodies| ==>
      !bodies[k].ResponseCreated? && !bodies[k].ResponseFailed? && !bodies[k].ResponseCompleted?
  }

  lemma {:induction false} ItemsIdentified(id: string, model: string, a: seq<Body>, rest: seq<Body>)
    requires AboutItems(a)
    ensures Identified(id, model, a + rest) <==> Identified(id, model, rest)
    decreases a
  {
    if a == [] {
      assert a + rest == rest;
    } else {
      assert (a + rest)[0] == a[0] && (a + rest)[1..] == a[1..] + rest;
      assert forall k :: 0 <= k < |a[1..]| ==> a[1..][k] == a[k + 1];
      ItemsIdentified(id, model, a[1..], rest);
    }
  }

  lemma {:induction false} RenderedAboutItems(marks: seq<Mark>)
    ensures AboutItems(RenderAll(marks))
  {
    if marks != [] {
      assert AboutItems(Render(marks[0]));
      RenderedAboutItems(marks[1..]);
    }
  }

  lemma {:induction false} RunIdentified(s: State, evs: seq<Event>)
    ensures Identified(s.responseId, s.model, RunBodies(s, evs))
    decreases evs
  {
    if evs != [] {
      var next := Step(s, evs[0]).state;
      RunIdentified(next, evs[1..]);
      EventIdentified(s, evs[0], RunBodies(next, evs[1..]));
    }
  }

  lemma EventIdentified(s: State, ev: Event, later: seq<Body>)
    requires Identified(Step(s, ev).state.responseId, Step(s, ev).state.model, later)
    ensures Identified(s.responseId, s.model, Bodies(s, ev) + later)
  {
    MessageMeta.StepMeta(s, ev);
    match ev
    case Created(id, model) => FirstIdentified(s.responseId, s.model, ResponseCreated(id, model), later);
    case Error(message, status) =>
      FirstIdentified(s.responseId, s.model, ResponseFailed(s.responseId, status, message), later);
    case Completed => CompletionIdentified(s, later);
    case _ =>
      RenderedAboutItems(Step(s, ev).marks);
      ItemsIdentified(s.responseId, s.model, RenderAll(Step(s, ev).marks), later);
  }

  lemma FirstIdentified(id: string, model: string, b: Body, later: seq<Body>)
    ensures Identified(id, model, [b] + later) <==>
      match b
      case ResponseCreated(id', model') => Identified(id', model', later)
      case ResponseFailed(id', _, _) => id' == id && Identified(id, model, later)
      case ResponseCompleted(r) => r.id == id && r.model == model && Identified(id, model, later)
      case _ => Identified(id, model, later)
  {
    assert ([b] + later)[1..] == later;
  }

  lemma CompletionIdentified(s: State, later: seq<Body>)
    requires Finish(s).state.responseId == s.responseId && Finish(s).state.model == s.model
    requires Identified(s.responseId, s.model, later)
    ensures Identified(s.responseId, s.model, Bodies(s, Completed) + later)
  {
    var rendered, last := RenderAll(Finish(s).marks), ResponseCompleted(Final(Finish(s).state));
    FirstIdentified(s.responseId, s.model, last, later);
    RenderedAboutItems(Finish(s).marks);
    ItemsIdentified(s.responseId, s.model, rendered, [last] + later);
    Regrouped(rendered, [last], later);
  }

  lemma Regrouped(a: seq<Body>, b: seq<Body>, c: seq<Body>)
    ensures (a + b) + c == a + (b + c)
  {
  }

  predicate Announced(bodies: seq<Body>, p: nat)
    requires p <= |bodies|
  {
    exists j :: 0 <= j < p && bodies[j].ResponseCreated?
  }

  /** Every failure and completion carries `id`, if the stream was announced before it, and
      no id otherwise. */
  predicate OneId(id: string, model: string, bodies: seq<Body>) {
    forall p :: 0 <= p < |bodies| ==>
      match bodies[p]
      case ResponseCreated(id', model') => id' == id && model' == model
      case ResponseFailed(id', _, _) => id' == if Announced(bodies, p) then id else ""
      case ResponseCompleted(r) =>
        if Announced(bodies, p) then r.id == id && r.model == model else r.id == "" && r.model == ""
      case _ => true
  }

  lemma {:induction false} IdentifiedAt(id: string, model: string, before: seq<Body>, bodies: seq<Body>, p: nat)
    requires p < |bodies|
    requires forall k :: 0 <= k < |bodies| && bodies[k].ResponseCreated? ==>
      bodies[k].id == id && bodies[k].model == model
    requires var known := Announced(before + bodies, |before|);
      Identified(if known then id else "", if known then model else "", bodies)
    ensures var known := Announced(before + bodies, |before| + p);
      match bodies[p]
      case ResponseFailed(id', _, _) => id' == if known then id else ""
      case ResponseCompleted(r) => if known then r.id == id && r.model == model else r.id == "" && r.model == ""
      case _ => true
    decreases p
  {
    if p > 0 {
      var all := before + bodies;
      assert all == (before + [bodies[0]]) + bodies[1..];
      assert all[|before|] == bodies[0];
      assert Announced(all, |before| + 1) <==> Announced(all, |before|) || bodies[0].ResponseCreated?;
      assert forall k :: 0 <= k < |bodies[1..]| ==> bodies[1..][k] == bodies[k + 1];
      IdentifiedAt(id, model, before + [bodies[0]], bodies[1..], p - 1);
    }
  }

  lemma IdentifiedIsOneId(id: string, model: string, bodies: seq<Body>)
    requires Identified("", "", bodies)
    requires forall k :: 0 <= k < |bodies| && bodies[k].ResponseCreated? ==>
      bodies[k].id == id && bodies[k].model == model
    ensures OneId(id, model, bodies)
  {
    assert [] + bodies == bodies && !Announced(bodies, 0);
    forall p | 0 <= p < |bodies| && !bodies[p].ResponseCreated?
      ensures match bodies[p]
        case ResponseFailed(id', _, _) => id' == if Announced(bodies, p) then id else ""
        case ResponseCompleted(r) =>
          if Announced(bodies, p) then r.id == id && r.model == model else r.id == "" && r.model == ""
        case _ => true
    {
      IdentifiedAt(id, model, [], bodies, p);
    }
  }

  // ----- over the pipeline -----

  predicate CreatesAs(evs: seq<Event>, id: string, model: string) {
    forall k :: 0 <= k < |evs| && evs[k].Created? ==> evs[k] == Created(id, model)
  }

  predicate AnnouncesAs(bodies: seq<Body>, id: string, model: string) {
    forall k :: 0 <= k < |bodies| && bodies[k].ResponseCreated? ==> bodies[k] == ResponseCreated(id, model)
  }

  lemma {:induction false} RenderedAnnounceNothing(marks: seq<Mark>)
    ensures forall k :: 0 <= k < |RenderAll(marks)| ==> !RenderAll(marks)[k].ResponseCreated?
  {
    if marks != [] { RenderedAnnounceNothing(marks[1..]); }
  }

  lemma {:induction false} RunAnnounces(s: State, evs: seq<Event>, id: string, model: string)
    requires CreatesAs(evs, id, model)
    ensures AnnouncesAs(RunBodies(s, evs), id, model)
    decreases evs
  {
    if evs != [] {
      assert forall k :: 0 <= k < |evs[1..]| ==> evs[1..][k] == evs[k + 1];
      RunAnnounces(Step(s, evs[0]).state, evs[1..], id, model);
      RenderedAnnounceNothing(Step(s, evs[0]).marks);
    }
  }

  lemma EmitCreates(p: CS.Parser, d: CS.Digest)
    ensures CreatesAs(CS.Emit(p, d), p.responseId, if d.Content? then d.model else "")
    ensures p.created ==> CreatesNothing(CS.Emit(p, d))
  {
    if d.Content? {
      var mid, tail := CS.EntriesEvents(p.started, d.entries), CS.TailEvents(p.started + CS.Indices(d.entries), d);
      CS.EmitParts(p, d);
      EntriesCreateNothing(p.started, d.entries);
      HeadCreates(p, d);
      CreatesAppend(CS.HeadEvents(p, d), mid, tail, p.responseId, d.model);
      assert (CS.HeadEvents(p, d) + mid) + tail == CS.HeadEvents(p, d) + (mid + tail);
    }
  }

  lemma HeadCreates(p: CS.Parser, d: CS.Digest)
    requires d.Content?
    ensures CreatesAs(CS.HeadEvents(p, d), p.responseId, d.model)
    ensures p.created ==> CreatesNothing(CS.HeadEvents(p, d))
    ensures forall started: set<nat> :: CreatesNothing(CS.TailEvents(started, d))
  {
  }

  predicate CreatesNothing(evs: seq<Event>) {
    forall k :: 0 <= k < |evs| ==> !evs[k].Created?
  }

  lemma {:induction false} EntriesCreateNothing(started: set<nat>, es: seq<CS.ToolEntry>)
    ensures CreatesNothing(CS.EntriesEvents(started, es))
    decreases es
  {
    if es != [] { EntriesCreateNothing(started + {es[0].index}, es[1..]); }
  }

  lemma {:induction false} FeedCreates(p: CS.Parser, ds: seq<CS.Digest>, model: string)
    requires forall k :: 0 <= k < |ds| ==> ds[k].Content?
    requires !p.created && ds != [] ==> model == ds[0].model
    ensures CreatesAs(F.Feed(p, ds), p.responseId, model)
    decreases ds
  {
    if ds != [] {
      EmitCreates(p, ds[0]);
      assert forall k :: 0 <= k < |ds[1..]| ==> ds[1..][k] == ds[k + 1];
      FeedCreates(CS.Advance(p, ds[0]), ds[1..], model);
    }
  }

  /** The model that a stream is announced under: that of its first content chunk. */
  function ModelHeard(hs: seq<P.Heard>): string {
    if PF.Ordinary(hs) == [] || PF.Ordinary(hs)[0].Failure? then "" else PF.Ordinary(hs)[0].model
  }

  lemma {:induction false} EndsTerminal(hs: seq<P.Heard>, ending: P.Ending)
    ensures PF.Terminal(hs, ending).IsTerminal()
  {
    if hs != [] && (hs[0].Noise? || (hs[0].Said? && !hs[0].digest.Failure?)) { EndsTerminal(hs[1..], ending); }
  }

  lemma CreatesAppend(a: seq<Event>, b: seq<Event>, c: seq<Event>, id: string, model: string)
    requires CreatesAs(a, id, model) && CreatesNothing(b) && CreatesNothing(c)
    ensures CreatesAs(a + b + c, id, model)
  {
  }

  /** One id over a whole stream: whatever is heard, and with costs tracked or not, every
      `response.failed` and `response.completed` carries the id and model of the one
      `response.created` before it, and empty ones if there was none. */
  lemma OneResponseId(responseId: string, track: bool, hs: seq<P.Heard>, ending: P.Ending)
    ensures OneId(responseId, ModelHeard(hs), RunBodies(INIT, P.Drive(track, P.Begin(responseId), hs, ending)))
  {
    var evs, fed := P.Drive(track, P.Begin(responseId), hs, ending), F.Feed(CS.NewParser(responseId), PF.Ordinary(hs));
    PF.OrdinaryIsContent(hs);
    FeedCreates(CS.NewParser(responseId), PF.Ordinary(hs), ModelHeard(hs));
    PF.DriveParts(responseId, track, hs, ending);
    PF.ExtraIsTerminal(hs, ending);
    EndsTerminal(hs, ending);
    CreatesAppend(fed, [PF.Terminal(hs, ending)], if track then PF.Extra(hs, ending) else [], responseId,
      ModelHeard(hs));
    RunAnnounces(INIT, evs, responseId, ModelHeard(hs));
    RunIdentified(INIT, evs);
    IdentifiedIsOneId(responseId, ModelHeard(hs), RunBodies(INIT, evs));
  }

  /** An upstream that fails before its first content chunk: the client is told so under
      no id at all. */
  lemma FailsWithoutId(responseId: string, message: string, status: nat, figures: P.Tally)
    ensures var hs := [P.Said(CS.Failure(message, status), figures)];
      RunBodies(INIT, P.Drive(false, P.Begin(responseId), hs, P.Clean)) == [ResponseFailed("", status, message)]
  {
    var hs := [P.Said(CS.Failure(message, status), figures)];
    PF.DriveParts(responseId, false, hs, P.Clean);
    assert PF.Ordinary(hs) == [] && F.Feed(CS.NewParser(responseId), []) == [];
    assert [Error(message, status)][1..] == [];
  }
}
