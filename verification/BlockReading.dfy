/** What a reader who only sees the frames of the numbered blocks puts together, and
    how that relates to the finished content. */
module BlockReading {
  import opened Canonical
  import opened Blocks
  import opened BlockContent
  import BL = BlockLifecycle
  import Lifecycle
  import Ordered
  import Reorder

  /** A block as read so far. */
  datatype Draft = Draft(kind: Kind, text: string, closed: bool)
  {
    function Part(): Part {
      match kind
      case ReasoningKind => Reasoning(text)
      case ProseKind => Prose(text)
      case CallKind(callId, name) => Call(callId, name, text)
    }
  }

  function ChannelOf(kind: Kind): Channel {
    match kind case ReasoningKind => Thought case ProseKind => Speech case CallKind(_, _) => Arguments
  }

  /** Blocks are numbered in the order they open; a delta goes to the block it names,
      if that block is of its kind. */
  function Bind(book: seq<Draft>, m: Mark): seq<Draft> {
    match m
    case Open(i, kind) => if i == |book| then book + [Draft(kind, "", false)] else book
    case Delta(i, ch, text) =>
      if i < |book| && ChannelOf(book[i].kind) == ch then book[i := book[i].(text := book[i].text + text)] else book
    case Close(i, _) => if i < |book| then book[i := book[i].(closed := true)] else book
  }

  function BindAll(book: seq<Draft>, marks: seq<Mark>): seq<Draft>
    decreases marks
  {
    if marks == [] then book else BindAll(Bind(book, marks[0]), marks[1..])
  }

  lemma {:induction false} BindAllAppend(book: seq<Draft>, a: seq<Mark>, b: seq<Mark>)
    ensures BindAll(book, a + b) == BindAll(BindAll(book, a), b)
    decreases a
  {
    if a == [] {
      assert a + b == b;
    } else {
      assert (a + b)[0] == a[0] && (a + b)[1..] == a[1..] + b;
      BindAllAppend(Bind(book, a[0]), a[1..], b);
    }
  }

  lemma BindOne(book: seq<Draft>, m: Mark)
    ensures BindAll(book, []) == book && BindAll(book, [m]) == Bind(book, m)
  {
    assert [m][1..] == [];
    assert BindAll(Bind(book, m), []) == Bind(book, m);
  }

  /** The part that closes an open draft: of its kind, and for a call what was read. */
  predicate Finishes(part: Part, d: Draft) {
    !d.closed && match d.kind
    case ReasoningKind => part.Reasoning?
    case ProseKind => part.Prose?
    case CallKind(callId, name) => part == Call(callId, name, d.text)
  }

  /** The mark makes sense to the reader: it opens the next block, or continues or
      closes an open one. */
  predicate Proper(book: seq<Draft>, m: Mark) {
    match m
    case Open(i, _) => i == |book|
    case Delta(i, ch, _) => i < |book| && !book[i].closed && ChannelOf(book[i].kind) == ch
    case Close(i, part) => i < |book| && Finishes(part, book[i])
  }

  predicate ProperAll(book: seq<Draft>, marks: seq<Mark>)
    decreases marks
  {
    marks == [] || (Proper(book, marks[0]) && ProperAll(Bind(book, marks[0]), marks[1..]))
  }

  lemma {:induction false} ProperAppend(book: seq<Draft>, a: seq<Mark>, b: seq<Mark>)
    ensures ProperAll(book, a + b) <==> ProperAll(book, a) && ProperAll(BindAll(book, a), b)
    decreases a
  {
    if a == [] {
      assert a + b == b;
    } else {
      assert (a + b)[0] == a[0] && (a + b)[1..] == a[1..] + b;
      ProperAppend(Bind(book, a[0]), a[1..], b);
    }
  }

  lemma ProperOne(book: seq<Draft>, m: Mark)
    ensures ProperAll(book, []) && (ProperAll(book, [m]) <==> Proper(book, m))
  {
    assert [m][1..] == [];
    assert ProperAll(Bind(book, m), []);
  }

  // ----- the machine's marks make sense -----

  /** The reader has everything that is open, as the machine has it. */
  ghost predicate Knows(s: State, book: seq<Draft>) {
    && |book| == s.next && BL.Distinct(s)
    && (s.thinking.Some? ==> book[s.thinking.value].kind == ReasoningKind && !book[s.thinking.value].closed)
    && (s.prose.Some? ==> book[s.prose.value].kind == ProseKind && !book[s.prose.value].closed)
    && forall x :: x in s.calls ==>
         book[s.calls[x].i] == Draft(CallKind(s.calls[x].callId, s.calls[x].name), s.calls[x].args, false)
  }

  /** The marks of `out` make sense after `book`, and leave the reader knowing `out.state`. */
  ghost predicate Reads(book: seq<Draft>, out: Out) {
    ProperAll(book, out.marks) && Knows(out.state, BindAll(book, out.marks))
  }

  lemma ReadsThen(book: seq<Draft>, a: Out, b: Out)
    requires Reads(book, a) && Reads(BindAll(book, a.marks), b)
    ensures Reads(book, Out(b.state, a.marks + b.marks))
  {
    ProperAppend(book, a.marks, b.marks);
    BindAllAppend(book, a.marks, b.marks);
  }

  lemma ReadsOne(book: seq<Draft>, s: State, m: Mark)
    ensures Reads(book, Out(s, [])) <==> Knows(s, book)
    ensures Reads(book, Out(s, [m])) <==> Proper(book, m) && Knows(s, Bind(book, m))
  {
    BindOne(book, m);
    ProperOne(book, m);
  }

  lemma OpenThinkingReads(s: State, book: seq<Draft>)
    requires Knows(s, book)
    ensures Reads(book, OpenThinking(s))
  {
    ReadsOne(book, OpenThinking(s).state, Open(s.next, ReasoningKind));
  }

  lemma OpenProseReads(s: State, book: seq<Draft>)
    requires Knows(s, book)
    ensures Reads(book, OpenProse(s))
  {
    ReadsOne(book, OpenProse(s).state, Open(s.next, ProseKind));
  }

  lemma CloseThinkingReads(s: State, book: seq<Draft>)
    requires Knows(s, book)
    ensures Reads(book, CloseThinking(s))
  {
    ReadsOne(book, CloseThinking(s).state, if s.thinking.Some? then CloseThinking(s).marks[0] else Open(0, ProseKind));
  }

  lemma CloseProseReads(s: State, book: seq<Draft>)
    requires Knows(s, book)
    ensures Reads(book, CloseProse(s))
  {
    ReadsOne(book, CloseProse(s).state, if s.prose.Some? then CloseProse(s).marks[0] else Open(0, ProseKind));
  }

  lemma CloseCallReads(s: State, index: nat, book: seq<Draft>)
    requires Knows(s, book)
    ensures Reads(book, CloseCall(s, index))
  {
    ReadsOne(book, CloseCall(s, index).state,
      if index in s.calls then CloseCall(s, index).marks[0] else Open(0, ProseKind));
  }

  lemma {:induction false} CloseCallsReads(s: State, order: seq<nat>, book: seq<Draft>)
    requires Knows(s, book)
    ensures Reads(book, CloseCalls(s, order))
    decreases order
  {
    if order == [] {
      ReadsOne(book, s, Open(0, ProseKind));
    } else {
      var a := CloseCall(s, order[0]);
      CloseCallReads(s, order[0], book);
      CloseCallsReads(a.state, order[1..], BindAll(book, a.marks));
      ReadsThen(book, a, CloseCalls(a.state, order[1..]));
    }
  }

  lemma CloseSpokenReads(s: State, book: seq<Draft>)
    requires Knows(s, book)
    ensures Reads(book, CloseSpoken(s))
  {
    var a := CloseThinking(s);
    CloseThinkingReads(s, book);
    CloseProseReads(a.state, BindAll(book, a.marks));
    ReadsThen(book, a, CloseProse(a.state));
  }

  lemma DeltaReads(book: seq<Draft>, s: State, s': State, i: nat, ch: Channel, text: string)
    requires Knows(s, book) && Proper(book, Delta(i, ch, text)) && Knows(s', Bind(book, Delta(i, ch, text)))
    ensures Reads(book, Out(s', [Delta(i, ch, text)]))
  {
    ReadsOne(book, s', Delta(i, ch, text));
  }

  lemma ThinkReads(s: State, text: string, book: seq<Draft>)
    requires Knows(s, book)
    ensures Reads(book, Think(s, text))
  {
    var a := OpenThinking(s);
    var s' := Think(s, text).state;
    OpenThinkingReads(s, book);
    DeltaReads(BindAll(book, a.marks), a.state, s', a.state.thinking.value, Thought, text);
    ReadsThen(book, a, Out(s', [Delta(a.state.thinking.value, Thought, text)]));
  }

  lemma SwitchReads(s: State, book: seq<Draft>)
    requires Knows(s, book)
    ensures var a := CloseThinking(s); var b := OpenProse(a.state);
      Reads(book, Out(b.state, a.marks + b.marks))
  {
    var a := CloseThinking(s);
    CloseThinkingReads(s, book);
    OpenProseReads(a.state, BindAll(book, a.marks));
    ReadsThen(book, a, OpenProse(a.state));
  }

  lemma SayReads(s: State, text: string, book: seq<Draft>)
    requires Knows(s, book) && s.prose.Some?
    ensures Reads(book, Out(s.(proseText := s.proseText + text), [Delta(s.prose.value, Speech, text)]))
  {
    DeltaReads(book, s, s.(proseText := s.proseText + text), s.prose.value, Speech, text);
  }

  lemma SpeakReads(s: State, text: string, book: seq<Draft>)
    requires Knows(s, book)
    ensures Reads(book, Speak(s, text))
  {
    var a := CloseThinking(s);
    var b := OpenProse(a.state);
    SwitchReads(s, book);
    SayReads(b.state, text, BindAll(book, a.marks + b.marks));
    ReadsThen(book, Out(b.state, a.marks + b.marks),
      Out(Speak(s, text).state, [Delta(b.state.prose.value, Speech, text)]));
  }

  lemma OpenNewCallReads(s: State, index: nat, callId: string, name: string, book: seq<Draft>)
    requires Knows(s, book)
    ensures Reads(book, OpenNewCall(s, index, callId, name))
  {
    ReadsOne(book, OpenNewCall(s, index, callId, name).state, Open(s.next, CallKind(callId, name)));
  }

  lemma StartCallReads(s: State, index: nat, callId: string, name: string, book: seq<Draft>)
    requires Knows(s, book)
    ensures Reads(book, StartCall(s, index, callId, name))
  {
    var a := CloseSpoken(s);
    CloseSpokenReads(s, book);
    OpenNewCallReads(a.state, index, callId, name, BindAll(book, a.marks));
    ReadsThen(book, a, OpenNewCall(a.state, index, callId, name));
  }

  lemma FeedCallReads(s: State, index: nat, delta: string, book: seq<Draft>)
    requires Knows(s, book)
    ensures Reads(book, FeedCall(s, index, delta))
  {
    if index in s.calls {
      DeltaReads(book, s, FeedCall(s, index, delta).state, s.calls[index].i, Arguments, delta);
    } else {
      ReadsOne(book, s, Open(0, ProseKind));
    }
  }

  lemma FinishReads(s: State, book: seq<Draft>)
    requires Knows(s, book)
    ensures Reads(book, Finish(s))
  {
    var a := CloseSpoken(s);
    CloseSpokenReads(s, book);
    CloseCallsReads(a.state, Ordered.Ascending(a.state.calls.Keys), BindAll(book, a.marks));
    ReadsThen(book, a, CloseAllCalls(a.state));
  }

  lemma StepReads(s: State, ev: Event, book: seq<Draft>)
    requires Knows(s, book)
    ensures Reads(book, Step(s, ev))
  {
    match ev
    case ReasoningDelta(text) => ThinkReads(s, text, book);
    case TextDelta(text) => SpeakReads(s, text, book);
    case ToolCallStart(index, callId, name) => StartCallReads(s, index, callId, name, book);
    case ToolCallArgsDelta(index, delta) => FeedCallReads(s, index, delta, book);
    case ToolCallDone(index) => CloseCallReads(s, index, book);
    case Completed => FinishReads(s, book);
    case _ => ReadsOne(book, Step(s, ev).state, Open(0, ProseKind));
  }

  /** On every run each mark makes sense to the reader, and the reader has every open
      block as the machine has it. */
  lemma {:induction false} RunReads(s: State, evs: seq<Event>, book: seq<Draft>)
    requires Knows(s, book)
    ensures Reads(book, Run(s, evs))
    decreases evs
  {
    if evs == [] {
      ReadsOne(book, s, Open(0, ProseKind));
    } else {
      var a := Step(s, evs[0]);
      StepReads(s, evs[0], book);
      RunReads(a.state, evs[1..], BindAll(book, a.marks));
      ReadsThen(book, a, Run(a.state, evs[1..]));
    }
  }

  // ----- a block's own text -----

  /** Text of the deltas that block `i` itself got on a channel. */
  function OwnText(marks: seq<Mark>, i: nat, ch: Channel): string {
    if marks == [] then "" else
      (if marks[0].Delta? && marks[0].channel == ch && marks[0].i == i then marks[0].text else "")
      + OwnText(marks[1..], i, ch)
  }

  lemma {:induction false} OwnTextAppend(a: seq<Mark>, b: seq<Mark>, i: nat, ch: Channel)
    ensures OwnText(a + b, i, ch) == OwnText(a, i, ch) + OwnText(b, i, ch)
  {
    if a == [] {
      assert a + b == b;
    } else {
      assert (a + b)[1..] == a[1..] + b;
      OwnTextAppend(a[1..], b, i, ch);
    }
  }

  lemma {:induction false} SilentOwn(marks: seq<Mark>, i: nat, ch: Channel)
    requires Silent(marks, i)
    ensures OwnText(marks, i, ch) == ""
  {
    if marks != [] {
      assert forall p :: 0 <= p < |marks[1..]| ==> marks[1..][p] == marks[p + 1];
      SilentOwn(marks[1..], i, ch);
    }
  }

  lemma OwnTextSnoc(marks: seq<Mark>, m: Mark, i: nat, ch: Channel)
    ensures OwnText(marks + [m], i, ch)
      == OwnText(marks, i, ch) + if m.Delta? && m.channel == ch && m.i == i then m.text else ""
    ensures TextOf(marks + [m], ch) == TextOf(marks, ch) + if m.Delta? && m.channel == ch then m.text else ""
  {
    OwnTextAppend(marks, [m], i, ch);
    TextOfAppend(marks, [m], ch);
    OneMark(m, ch);
    assert [m][1..] == [];
    assert OwnText([m][1..], i, ch) == "";
  }

  /** The part is what a block of this channel is finished as. */
  predicate PartOn(part: Part, ch: Channel) {
    (part.Reasoning? && ch == Thought) || (part.Prose? && ch == Speech)
  }

  ghost predicate OwnAt(m: Mark, before: seq<Mark>, ch: Channel) {
    m.Close? && PartOn(m.part, ch) ==> m.part.text == OwnText(before, m.i, ch)
  }

  /** Every finished part of the channel repeats exactly its own block's deltas. */
  ghost predicate AllOwn(marks: seq<Mark>, ch: Channel) {
    forall p: nat :: p < |marks| ==> OwnAt(marks[p], marks[..p], ch)
  }

  lemma AllOwnSnoc(marks: seq<Mark>, m: Mark, ch: Channel)
    ensures AllOwn(marks + [m], ch) <==> AllOwn(marks, ch) && OwnAt(m, marks, ch)
  {
    var all := marks + [m];
    assert forall p: nat :: p < |marks| ==> all[p] == marks[p] && all[..p] == marks[..p];
    assert all[|marks|] == m && all[..|marks|] == marks;
  }

  // ----- what was read against what was finished -----

  lemma SealedOfSnoc(marks: seq<Mark>, m: Mark)
    ensures SealedOf(marks + [m]) == SealedOf(marks) + if m.Close? then [Sealed(m.i, m.part)] else []
  {
    SealedOfAppend(marks, [m]);
    OneMark(m, Speech);
  }

  lemma ProperSnoc(marks: seq<Mark>, m: Mark)
    ensures ProperAll([], marks + [m]) <==> ProperAll([], marks) && Proper(BindAll([], marks), m)
    ensures BindAll([], marks + [m]) == Bind(BindAll([], marks), m)
  {
    ProperAppend([], marks, [m]);
    BindAllAppend([], marks, [m]);
    ProperOne(BindAll([], marks), m);
    BindOne(BindAll([], marks), m);
  }

  /** The text of a channel that the reader has for block `b`. */
  function TextIn(book: seq<Draft>, b: nat, ch: Channel): string {
    if b < |book| && ChannelOf(book[b].kind) == ch then book[b].text else ""
  }

  /** The reader has of each block exactly the block's own deltas. */
  lemma {:induction false} TextRead(marks: seq<Mark>, b: nat, ch: Channel)
    requires ProperAll([], marks)
    ensures OwnText(marks, b, ch) == TextIn(BindAll([], marks), b, ch)
    decreases |marks|
  {
    if marks != [] {
      var before, m := marks[..|marks| - 1], marks[|marks| - 1];
      assert marks == before + [m];
      ProperSnoc(before, m);
      TextRead(before, b, ch);
      OwnTextSnoc(before, m, b, ch);
      BoundText(BindAll([], before), m, b, ch);
    }
  }

  lemma BoundText(book: seq<Draft>, m: Mark, b: nat, ch: Channel)
    requires Proper(book, m)
    ensures TextIn(Bind(book, m), b, ch)
      == TextIn(book, b, ch) + if m.Delta? && m.channel == ch && m.i == b then m.text else ""
  {
    assert TextIn(book, b, ch) + "" == TextIn(book, b, ch);
  }

  /** The reader saw the part's block close, and knows its kind; of a call, everything. */
  predicate Seen(book: seq<Draft>, d: Sealed) {
    && d.i < |book| && book[d.i].closed
    && match book[d.i].kind
       case ReasoningKind => d.part.Reasoning?
       case ProseKind => d.part.Prose?
       case CallKind(_, _) => d.part == book[d.i].Part()
  }

  lemma SeenStays(book: seq<Draft>, m: Mark, d: Sealed)
    requires Proper(book, m) && Seen(book, d)
    ensures Seen(Bind(book, m), d) && Bind(book, m)[d.i] == book[d.i]
  {
  }

  lemma {:induction false} AllSeen(marks: seq<Mark>)
    requires ProperAll([], marks)
    ensures forall d :: d in SealedOf(marks) ==> Seen(BindAll([], marks), d)
    decreases |marks|
  {
    if marks != [] {
      var before, m := marks[..|marks| - 1], marks[|marks| - 1];
      assert marks == before + [m];
      ProperSnoc(before, m);
      SealedOfSnoc(before, m);
      AllSeen(before);
      var book := BindAll([], before);
      forall d | d in SealedOf(marks) ensures Seen(BindAll([], marks), d) {
        if d in SealedOf(before) { SeenStays(book, m, d); }
      }
    }
  }

  /** What was finished on the channel is what the reader has. */
  ghost predicate ReadBack(sealed: seq<Sealed>, book: seq<Draft>, ch: Channel) {
    forall d :: d in sealed && PartOn(d.part, ch) ==> d.i < |book| && d.part == book[d.i].Part()
  }

  lemma {:induction false} ReadBackExactly(marks: seq<Mark>, ch: Channel)
    requires ProperAll([], marks)
    ensures ReadBack(SealedOf(marks), BindAll([], marks), ch) <==> AllOwn(marks, ch)
    decreases |marks|
  {
    if marks != [] {
      var before, m := marks[..|marks| - 1], marks[|marks| - 1];
      assert marks == before + [m];
      ProperSnoc(before, m);
      ReadBackExactly(before, ch);
      AllSeen(before);
      SealedOfSnoc(before, m);
      AllOwnSnoc(before, m, ch);
      var book := BindAll([], before);
      ReadBackStays(SealedOf(before), book, m, ch);
      if m.Close? {
        TextRead(before, m.i, ch);
        ClosedReads(book, m, ch);
        ReadBackMore(SealedOf(before), Sealed(m.i, m.part), Bind(book, m), ch);
      } else {
        assert SealedOf(before) + [] == SealedOf(before);
      }
    }
  }

  lemma ReadBackStays(sealed: seq<Sealed>, book: seq<Draft>, m: Mark, ch: Channel)
    requires Proper(book, m) && forall d :: d in sealed ==> Seen(book, d)
    ensures ReadBack(sealed, Bind(book, m), ch) <==> ReadBack(sealed, book, ch)
  {
    forall d | d in sealed ensures d.i < |book| && Bind(book, m)[d.i] == book[d.i] { SeenStays(book, m, d); }
  }

  lemma ReadBackMore(sealed: seq<Sealed>, d: Sealed, book: seq<Draft>, ch: Channel)
    requires d.i < |book|
    ensures ReadBack(sealed + [d], book, ch)
      <==> ReadBack(sealed, book, ch) && (PartOn(d.part, ch) ==> d.part == book[d.i].Part())
  {
    assert forall x :: x in sealed + [d] <==> x in sealed || x == d;
  }

  lemma ClosedReads(book: seq<Draft>, m: Mark, ch: Channel)
    requires m.Close? && Proper(book, m)
    ensures PartOn(m.part, ch) ==> (m.part == Bind(book, m)[m.i].Part() <==> m.part.text == TextIn(book, m.i, ch))
  {
  }

  // ----- a whole run -----

  /** The numbers of the finished parts, in closing order. */
  function Numbers(done: seq<Sealed>): seq<nat> {
    seq(|done|, k requires 0 <= k < |done| => done[k].i)
  }

  lemma {:induction false} EndsAreNumbers(marks: seq<Mark>)
    ensures Lifecycle.Ends(BL.Signals(marks)) == Numbers(SealedOf(marks))
  {
    if marks != [] {
      EndsAreNumbers(marks[1..]);
      assert BL.Signals(marks)[0] == BL.SignalOf(marks[0]) && BL.Signals(marks)[1..] == BL.Signals(marks[1..]);
    }
  }

  /** On a run ending in `Completed` that reopens no call, the finished parts carry the
      numbers of all opened blocks, each once. */
  lemma NumbersArePermutation(evs: seq<Event>)
    requires BL.NoReopen({}, evs)
    ensures var out := Run(INIT, evs + [Completed]);
      Reorder.IsPermutation(Numbers(out.state.done), out.state.next)
  {
    var out := Run(INIT, evs + [Completed]);
    BL.RunLedger(evs);
    Lifecycle.EndsArePermutation(BL.Signals(out.marks));
    EndsAreNumbers(out.marks);
    DoneIsSealed(evs + [Completed]);
  }

  lemma DoneIsSealed(evs: seq<Event>)
    ensures Run(INIT, evs).state.done == SealedOf(Run(INIT, evs).marks)
  {
    RunMoves(INIT, evs);
    assert [] + SealedOf(Run(INIT, evs).marks) == SealedOf(Run(INIT, evs).marks);
  }

  /** All that was read over a run. */
  ghost function BookOf(evs: seq<Event>): seq<Draft> {
    BindAll([], Run(INIT, evs).marks)
  }

  ghost predicate MatchesAll(done: seq<Sealed>, book: seq<Draft>) {
    forall d :: d in done ==> d.i < |book| && d.part == book[d.i].Part()
  }
}
