/** When a finished reasoning or text part repeats exactly its own block's deltas:
    decided by the events alone, before any frame is made. */
module DoneText {
  import opened Wrappers
  import opened Canonical
  import opened Blocks
  import opened BlockContent
  import opened BlockReading
  import Ordered

  // ----- one channel, mark by mark -----

  /** A channel followed through the marks: its open block, what that block got so far,
      all that was heard, and whether every finished part repeated its own block. */
  datatype Turn = Turn(open: Option<nat>, own: string, heard: string, honest: bool)

  const START := Turn(None, "", "", true)

  function Follow(t: Turn, m: Mark, ch: Channel): Turn {
    match m
    case Open(i, kind) => if ChannelOf(kind) == ch then t.(open := Some(i), own := "") else t
    case Delta(_, c, text) => if c == ch then t.(own := t.own + text, heard := t.heard + text) else t
    case Close(_, part) =>
      if PartOn(part, ch) then t.(open := None, honest := t.honest && part.text == t.own) else t
  }

  /** The channel has one block at a time. */
  predicate InTurn(t: Turn, m: Mark, ch: Channel) {
    match m
    case Open(_, kind) => ChannelOf(kind) == ch ==> t.open.None?
    case Delta(i, c, _) => c == ch ==> t.open == Some(i)
    case Close(i, part) => PartOn(part, ch) ==> t.open == Some(i)
  }

  function FollowAll(t: Turn, marks: seq<Mark>, ch: Channel): Turn
    decreases marks
  {
    if marks == [] then t else FollowAll(Follow(t, marks[0], ch), marks[1..], ch)
  }

  predicate AllInTurn(t: Turn, marks: seq<Mark>, ch: Channel)
    decreases marks
  {
    marks == [] || (InTurn(t, marks[0], ch) && AllInTurn(Follow(t, marks[0], ch), marks[1..], ch))
  }

  lemma {:induction false} FollowAppend(t: Turn, a: seq<Mark>, b: seq<Mark>, ch: Channel)
    ensures FollowAll(t, a + b, ch) == FollowAll(FollowAll(t, a, ch), b, ch)
    ensures AllInTurn(t, a + b, ch) <==> AllInTurn(t, a, ch) && AllInTurn(FollowAll(t, a, ch), b, ch)
    decreases a
  {
    if a == [] {
      assert a + b == b;
    } else {
      assert (a + b)[0] == a[0] && (a + b)[1..] == a[1..] + b;
      FollowAppend(Follow(t, a[0], ch), a[1..], b, ch);
    }
  }

  lemma FollowOne(t: Turn, m: Mark, ch: Channel)
    ensures FollowAll(t, [], ch) == t && AllInTurn(t, [], ch)
    ensures FollowAll(t, [m], ch) == Follow(t, m, ch) && (AllInTurn(t, [m], ch) <==> InTurn(t, m, ch))
  {
    assert [m][1..] == [];
    assert FollowAll(Follow(t, m, ch), [], ch) == Follow(t, m, ch) && AllInTurn(Follow(t, m, ch), [], ch);
  }

  /** What the turn has of its open block is what a reader has. */
  predicate OfBook(t: Turn, book: seq<Draft>, ch: Channel) {
    t.open.Some? ==>
      t.open.value < |book| && ChannelOf(book[t.open.value].kind) == ch && t.own == book[t.open.value].text
  }

  lemma StaysOfBook(t: Turn, book: seq<Draft>, m: Mark, ch: Channel)
    requires OfBook(t, book, ch) && Proper(book, m) && InTurn(t, m, ch)
    ensures OfBook(Follow(t, m, ch), Bind(book, m), ch)
  {
  }

  /** The turn's verdict is the positional one. */
  lemma {:induction false} HonestIsOwn(marks: seq<Mark>, ch: Channel)
    requires ProperAll([], marks) && AllInTurn(START, marks, ch)
    ensures OfBook(FollowAll(START, marks, ch), BindAll([], marks), ch)
    ensures FollowAll(START, marks, ch).honest <==> AllOwn(marks, ch)
    decreases |marks|
  {
    if marks != [] {
      var before, m := marks[..|marks| - 1], marks[|marks| - 1];
      assert marks == before + [m];
      ProperSnoc(before, m);
      FollowAppend(START, before, [m], ch);
      FollowOne(FollowAll(START, before, ch), m, ch);
      HonestIsOwn(before, ch);
      StaysOfBook(FollowAll(START, before, ch), BindAll([], before), m, ch);
      AllOwnSnoc(before, m, ch);
      if m.Close? { TextRead(before, m.i, ch); }
    }
  }

  // ----- one channel, event by event -----

  function OpenOn(s: State, ch: Channel): Option<nat> {
    match ch case Thought => s.thinking case Speech => s.prose case Arguments => None
  }

  function HeardOn(s: State, ch: Channel): string {
    match ch case Thought => s.thinkingText case Speech => s.proseText case Arguments => ""
  }

  /** The turn is the machine's; `cut` says that a block with text has ended, `again`
      that the channel went on after. */
  predicate At(t: Turn, s: State, ch: Channel, cut: bool, again: bool) {
    && t.open == OpenOn(s, ch) && t.heard == HeardOn(s, ch)
    && (again ==> cut) && (cut ==> t.heard != "") && (!again ==> t.honest)
    && if t.open.Some? then again == cut && (t.own == t.heard <==> !cut)
       else (cut <==> t.heard != "") && (again <==> !t.honest)
  }

  /** The marks of `out` keep the turn, and leave it at `out.state`. */
  predicate Leads(t: Turn, out: Out, ch: Channel, cut: bool, again: bool) {
    AllInTurn(t, out.marks, ch) && At(FollowAll(t, out.marks, ch), out.state, ch, cut, again)
  }

  lemma LeadsThen(t: Turn, a: Out, b: Out, ch: Channel, cut: bool, again: bool)
    requires AllInTurn(t, a.marks, ch) && Leads(FollowAll(t, a.marks, ch), b, ch, cut, again)
    ensures Leads(t, Out(b.state, a.marks + b.marks), ch, cut, again)
  {
    FollowAppend(t, a.marks, b.marks, ch);
  }

  lemma LeadsOne(t: Turn, s: State, m: Mark, ch: Channel, cut: bool, again: bool)
    ensures Leads(t, Out(s, []), ch, cut, again) <==> At(t, s, ch, cut, again)
    ensures Leads(t, Out(s, [m]), ch, cut, again) <==> InTurn(t, m, ch) && At(Follow(t, m, ch), s, ch, cut, again)
  {
    FollowOne(t, m, ch);
  }

  lemma SameSuffix(a: string, b: string, c: string)
    ensures a + c == b + c <==> a == b
  {
    if a + c == b + c {
      assert a == (a + c)[..|a|] && b == (b + c)[..|b|];
    }
  }

  lemma OpenThinkingLeads(t: Turn, s: State, ch: Channel, cut: bool, again: bool)
    requires At(t, s, ch, cut, again)
    ensures Leads(t, OpenThinking(s), ch, cut, again || (ch == Thought && cut))
  {
    LeadsOne(t, OpenThinking(s).state, Open(s.next, ReasoningKind), ch, cut, again || (ch == Thought && cut));
  }

  lemma OpenProseLeads(t: Turn, s: State, ch: Channel, cut: bool, again: bool)
    requires At(t, s, ch, cut, again)
    ensures Leads(t, OpenProse(s), ch, cut, again || (ch == Speech && cut))
  {
    LeadsOne(t, OpenProse(s).state, Open(s.next, ProseKind), ch, cut, again || (ch == Speech && cut));
  }

  lemma CloseThinkingLeads(t: Turn, s: State, ch: Channel, cut: bool, again: bool)
    requires At(t, s, ch, cut, again)
    ensures Leads(t, CloseThinking(s), ch, cut || (ch == Thought && s.thinkingText != ""), again)
  {
    var b := if s.thinking.Some? then s.thinking.value else 0;
    LeadsOne(t, CloseThinking(s).state, Close(b, Reasoning(s.thinkingText)), ch,
      cut || (ch == Thought && s.thinkingText != ""), again);
  }

  lemma CloseProseLeads(t: Turn, s: State, ch: Channel, cut: bool, again: bool)
    requires At(t, s, ch, cut, again)
    ensures Leads(t, CloseProse(s), ch, cut || (ch == Speech && s.proseText != ""), again)
  {
    var b := if s.prose.Some? then s.prose.value else 0;
    LeadsOne(t, CloseProse(s).state, Close(b, Prose(s.proseText)), ch,
      cut || (ch == Speech && s.proseText != ""), again);
  }

  lemma CloseSpokenLeads(t: Turn, s: State, ch: Channel, cut: bool, again: bool)
    requires At(t, s, ch, cut, again)
    ensures Leads(t, CloseSpoken(s), ch, cut || HeardOn(s, ch) != "", again)
  {
    var a := CloseThinking(s);
    CloseThinkingLeads(t, s, ch, cut, again);
    CloseProseLeads(FollowAll(t, a.marks, ch), a.state, ch, cut || (ch == Thought && s.thinkingText != ""), again);
    LeadsThen(t, a, CloseProse(a.state), ch, cut || HeardOn(s, ch) != "", again);
  }

  lemma CloseCallLeads(t: Turn, s: State, index: nat, ch: Channel, cut: bool, again: bool)
    requires At(t, s, ch, cut, again)
    ensures Leads(t, CloseCall(s, index), ch, cut, again)
  {
    if index in s.calls {
      var c := s.calls[index];
      LeadsOne(t, CloseCall(s, index).state, Close(c.i, c.Finished()), ch, cut, again);
    } else {
      LeadsOne(t, s, Open(0, ProseKind), ch, cut, again);
    }
  }

  lemma {:induction false} CloseCallsLeads(t: Turn, s: State, order: seq<nat>, ch: Channel, cut: bool, again: bool)
    requires At(t, s, ch, cut, again)
    ensures Leads(t, CloseCalls(s, order), ch, cut, again)
    decreases order
  {
    if order == [] {
      LeadsOne(t, s, Open(0, ProseKind), ch, cut, again);
    } else {
      var a := CloseCall(s, order[0]);
      CloseCallLeads(t, s, order[0], ch, cut, again);
      CloseCallsLeads(FollowAll(t, a.marks, ch), a.state, order[1..], ch, cut, again);
      LeadsThen(t, a, CloseCalls(a.state, order[1..]), ch, cut, again);
    }
  }

  /** The event ends the channel's open block. */
  predicate EndsTurn(ev: Event, ch: Channel) {
    ev.ToolCallStart? || ev.Completed? || (ev.TextDelta? && ch == Thought)
  }

  /** The event speaks on the channel, with any text. */
  predicate Speaks(ev: Event, ch: Channel) {
    (ev.ReasoningDelta? && ch == Thought) || (ev.TextDelta? && ch == Speech)
  }

  lemma ThoughtLeads(t: Turn, s: State, text: string, ch: Channel, cut: bool, again: bool)
    requires At(t, s, ch, cut, again) && s.thinking.Some? && (ch == Thought ==> again == cut)
    ensures var out := Out(s.(thinkingText := s.thinkingText + text), [Delta(s.thinking.value, Thought, text)]);
      Leads(t, out, ch, cut, again)
  {
    LeadsOne(t, s.(thinkingText := s.thinkingText + text), Delta(s.thinking.value, Thought, text), ch, cut, again);
    SameSuffix(t.own, t.heard, text);
  }

  lemma SaidLeads(t: Turn, s: State, text: string, ch: Channel, cut: bool, again: bool)
    requires At(t, s, ch, cut, again) && s.prose.Some?
    ensures Leads(t, Out(s.(proseText := s.proseText + text), [Delta(s.prose.value, Speech, text)]), ch, cut, again)
  {
    LeadsOne(t, s.(proseText := s.proseText + text), Delta(s.prose.value, Speech, text), ch, cut, again);
    SameSuffix(t.own, t.heard, text);
  }

  lemma ThinkLeads(t: Turn, s: State, text: string, ch: Channel, cut: bool, again: bool)
    requires At(t, s, ch, cut, again)
    ensures Leads(t, Think(s, text), ch, cut, again || (ch == Thought && cut))
  {
    var a, again' := OpenThinking(s), again || (ch == Thought && cut);
    OpenThinkingLeads(t, s, ch, cut, again);
    ThoughtLeads(FollowAll(t, a.marks, ch), a.state, text, ch, cut, again');
    LeadsThen(t, a, Out(Think(s, text).state, [Delta(a.state.thinking.value, Thought, text)]), ch, cut, again');
  }

  lemma SwitchLeads(t: Turn, s: State, ch: Channel, cut: bool, again: bool)
    requires At(t, s, ch, cut, again)
    ensures var a := CloseThinking(s); var b := OpenProse(a.state);
      Leads(t, Out(b.state, a.marks + b.marks), ch,
        cut || (ch == Thought && s.thinkingText != ""), again || (ch == Speech && cut))
  {
    var a := CloseThinking(s);
    var cut' := cut || (ch == Thought && s.thinkingText != "");
    CloseThinkingLeads(t, s, ch, cut, again);
    OpenProseLeads(FollowAll(t, a.marks, ch), a.state, ch, cut', again);
    LeadsThen(t, a, OpenProse(a.state), ch, cut', again || (ch == Speech && cut));
  }

  lemma SpeakLeads(t: Turn, s: State, text: string, ch: Channel, cut: bool, again: bool)
    requires At(t, s, ch, cut, again)
    ensures Leads(t, Speak(s, text), ch,
      cut || (ch == Thought && s.thinkingText != ""), again || (ch == Speech && cut))
  {
    var a := CloseThinking(s);
    var o := OpenProse(a.state);
    var cut', again' := cut || (ch == Thought && s.thinkingText != ""), again || (ch == Speech && cut);
    SwitchLeads(t, s, ch, cut, again);
    SaidLeads(FollowAll(t, a.marks + o.marks, ch), o.state, text, ch, cut', again');
    LeadsThen(t, Out(o.state, a.marks + o.marks),
      Out(Speak(s, text).state, [Delta(o.state.prose.value, Speech, text)]), ch, cut', again');
  }

  lemma StartCallLeads(t: Turn, s: State, index: nat, callId: string, name: string, ch: Channel, cut: bool, again: bool)
    requires At(t, s, ch, cut, again) && ch != Arguments
    ensures Leads(t, StartCall(s, index, callId, name), ch, cut || HeardOn(s, ch) != "", again)
  {
    var a, cut' := CloseSpoken(s), cut || HeardOn(s, ch) != "";
    var b := OpenNewCall(a.state, index, callId, name);
    CloseSpokenLeads(t, s, ch, cut, again);
    LeadsOne(FollowAll(t, a.marks, ch), b.state, Open(a.state.next, CallKind(callId, name)), ch, cut', again);
    LeadsThen(t, a, b, ch, cut', again);
  }

  lemma FeedCallLeads(t: Turn, s: State, index: nat, delta: string, ch: Channel, cut: bool, again: bool)
    requires At(t, s, ch, cut, again) && ch != Arguments
    ensures Leads(t, FeedCall(s, index, delta), ch, cut, again)
  {
    var b := if index in s.calls then s.calls[index].i else 0;
    LeadsOne(t, FeedCall(s, index, delta).state, Delta(b, Arguments, delta), ch, cut, again);
  }

  lemma FinishLeads(t: Turn, s: State, ch: Channel, cut: bool, again: bool)
    requires At(t, s, ch, cut, again)
    ensures Leads(t, Finish(s), ch, cut || HeardOn(s, ch) != "", again)
  {
    var a, cut' := CloseSpoken(s), cut || HeardOn(s, ch) != "";
    CloseSpokenLeads(t, s, ch, cut, again);
    CloseCallsLeads(FollowAll(t, a.marks, ch), a.state, Ordered.Ascending(a.state.calls.Keys), ch, cut', again);
    LeadsThen(t, a, CloseAllCalls(a.state), ch, cut', again);
  }

  lemma StepLeads(t: Turn, s: State, ev: Event, ch: Channel, cut: bool, again: bool)
    requires At(t, s, ch, cut, again) && ch != Arguments
    ensures Leads(t, Step(s, ev), ch,
      cut || (EndsTurn(ev, ch) && HeardOn(s, ch) != ""), again || (Speaks(ev, ch) && cut))
  {
    match ev
    case ReasoningDelta(text) => ThinkLeads(t, s, text, ch, cut, again);
    case TextDelta(text) => SpeakLeads(t, s, text, ch, cut, again);
    case ToolCallStart(index, callId, name) => StartCallLeads(t, s, index, callId, name, ch, cut, again);
    case ToolCallArgsDelta(index, delta) => FeedCallLeads(t, s, index, delta, ch, cut, again);
    case ToolCallDone(index) => CloseCallLeads(t, s, index, ch, cut, again);
    case Completed => FinishLeads(t, s, ch, cut, again);
    case _ => LeadsOne(t, Step(s, ev).state, Open(0, ProseKind), ch, cut, again);
  }

  // ----- the condition on events -----

  ghost predicate TurnedAt(evs: seq<Event>, i: nat, j: nat, ch: Channel) {
    i < j < |evs| && ToldBy(evs[i], ch) != "" && EndsTurn(evs[j], ch)
  }

  /** Something was said and then the block ended. */
  ghost predicate Turned(evs: seq<Event>, ch: Channel) {
    exists i: nat, j: nat :: TurnedAt(evs, i, j, ch)
  }

  ghost predicate ReturnsAt(evs: seq<Event>, i: nat, j: nat, k: nat, ch: Channel) {
    i < j < k < |evs| && ToldBy(evs[i], ch) != "" && EndsTurn(evs[j], ch) && Speaks(evs[k], ch)
  }

  /** Something was said, the block ended, and the channel went on. */
  ghost predicate Returns(evs: seq<Event>, ch: Channel) {
    exists i: nat, j: nat, k: nat :: ReturnsAt(evs, i, j, k, ch)
  }

  lemma {:induction false} ToldSome(evs: seq<Event>, ch: Channel)
    ensures Told(evs, ch) != "" <==> exists i :: 0 <= i < |evs| && ToldBy(evs[i], ch) != ""
  {
    if evs != [] {
      ToldSome(evs[1..], ch);
      SomeStep(evs, ch);
    }
  }

  lemma SomeStep(evs: seq<Event>, ch: Channel)
    requires evs != []
    ensures (exists i :: 0 <= i < |evs| && ToldBy(evs[i], ch) != "") <==>
      ToldBy(evs[0], ch) != "" || exists i :: 0 <= i < |evs[1..]| && ToldBy(evs[1..][i], ch) != ""
  {
    if i :| 0 < i < |evs| && ToldBy(evs[i], ch) != "" { assert evs[1..][i - 1] == evs[i]; }
    if i :| 0 <= i < |evs[1..]| && ToldBy(evs[1..][i], ch) != "" { assert evs[i + 1] == evs[1..][i]; }
  }

  lemma TurnedSnoc(evs: seq<Event>, ev: Event, ch: Channel)
    ensures Turned(evs + [ev], ch) <==> Turned(evs, ch) || (EndsTurn(ev, ch) && Told(evs, ch) != "")
  {
    var all := evs + [ev];
    ToldSome(evs, ch);
    if Turned(evs, ch) {
      var i: nat, j: nat :| TurnedAt(evs, i, j, ch);
      assert TurnedAt(all, i, j, ch);
    } else if EndsTurn(ev, ch) && Told(evs, ch) != "" {
      var i: nat :| i < |evs| && ToldBy(evs[i], ch) != "";
      assert TurnedAt(all, i, |evs|, ch);
    } else {
      forall i: nat, j: nat ensures !TurnedAt(all, i, j, ch) { assert !TurnedAt(evs, i, j, ch); }
    }
  }

  lemma ReturnsSnoc(evs: seq<Event>, ev: Event, ch: Channel)
    ensures Returns(evs + [ev], ch) <==> Returns(evs, ch) || (Speaks(ev, ch) && Turned(evs, ch))
  {
    var all := evs + [ev];
    if Returns(evs, ch) {
      var i: nat, j: nat, k: nat :| ReturnsAt(evs, i, j, k, ch);
      assert ReturnsAt(all, i, j, k, ch);
    } else if Speaks(ev, ch) && Turned(evs, ch) {
      var i: nat, j: nat :| TurnedAt(evs, i, j, ch);
      assert ReturnsAt(all, i, j, |evs|, ch);
    } else {
      forall i: nat, j: nat, k: nat ensures !ReturnsAt(all, i, j, k, ch) {
        assert !ReturnsAt(evs, i, j, k, ch) && !(Speaks(ev, ch) && TurnedAt(evs, i, j, ch));
      }
    }
  }

  lemma {:induction false} RunLeads(evs: seq<Event>, ch: Channel)
    requires ch != Arguments
    ensures Leads(START, Run(INIT, evs), ch, Turned(evs, ch), Returns(evs, ch))
    decreases evs
  {
    if evs == [] {
      NothingYet(ch);
    } else {
      var before, ev := evs[..|evs| - 1], evs[|evs| - 1];
      assert evs == before + [ev];
      RunLeads(before, ch);
      NextLeads(before, ev, ch, Turned(before, ch), Returns(before, ch));
      TurnedSnoc(before, ev, ch);
      ReturnsSnoc(before, ev, ch);
    }
  }

  lemma NothingYet(ch: Channel)
    ensures !Turned([], ch) && !Returns([], ch) && Leads(START, Run(INIT, []), ch, false, false)
  {
    NeverTurned(ch);
    LeadsNothing(INIT, ch);
  }

  lemma LeadsNothing(s: State, ch: Channel)
    requires At(START, s, ch, false, false)
    ensures Leads(START, Run(s, []), ch, false, false)
  {
    FollowOne(START, Open(0, ProseKind), ch);
  }

  lemma NeverTurned(ch: Channel)
    ensures !Turned([], ch) && !Returns([], ch)
  {
  }

  lemma NextLeads(evs: seq<Event>, ev: Event, ch: Channel, cut: bool, again: bool)
    requires ch != Arguments && Leads(START, Run(INIT, evs), ch, cut, again)
    ensures Leads(START, Run(INIT, evs + [ev]), ch,
      cut || (EndsTurn(ev, ch) && Told(evs, ch) != ""), again || (Speaks(ev, ch) && cut))
  {
    var mid := Run(INIT, evs);
    RunSnoc(INIT, evs, ev);
    HeardIsTold(evs, ch);
    StepLeads(FollowAll(START, mid.marks, ch), mid.state, ev, ch, cut, again);
    LeadsThen(START, mid, Step(mid.state, ev), ch,
      cut || (EndsTurn(ev, ch) && Told(evs, ch) != ""), again || (Speaks(ev, ch) && cut));
  }

  lemma HeardIsTold(evs: seq<Event>, ch: Channel)
    requires ch != Arguments
    ensures HeardOn(Run(INIT, evs).state, ch) == Told(evs, ch)
  {
    RunHears(INIT, evs);
    assert "" + Told(evs, ch) == Told(evs, ch);
  }

  /** On a run ending in `Completed` every finished reasoning (text) part repeats
      exactly its own block's deltas if and only if the channel never goes on after a
      tool call (for reasoning also: after text) that followed something it said. */
  lemma DoneTextIsOwnExactly(evs: seq<Event>, ch: Channel)
    requires ch != Arguments
    ensures AllOwn(Run(INIT, evs + [Completed]).marks, ch) <==> !Returns(evs, ch)
  {
    var all := evs + [Completed];
    RunLeads(all, ch);
    ReturnsSnoc(evs, Completed, ch);
    ClosedAtEnd(evs, ch);
    ClosedDecides(Run(INIT, all), ch, Turned(all, ch), Returns(all, ch));
    RunReads(INIT, all, []);
    HonestIsOwn(Run(INIT, all).marks, ch);
  }

  lemma ClosedAtEnd(evs: seq<Event>, ch: Channel)
    ensures OpenOn(Run(INIT, evs + [Completed]).state, ch) == None
  {
    RunSnoc(INIT, evs, Completed);
    NothingOpen(Run(INIT, evs).state, ch);
  }

  lemma ClosedDecides(out: Out, ch: Channel, cut: bool, again: bool)
    requires Leads(START, out, ch, cut, again) && OpenOn(out.state, ch) == None
    ensures FollowAll(START, out.marks, ch).honest <==> !again
  {
  }

  lemma NothingOpen(s: State, ch: Channel)
    ensures OpenOn(Finish(s).state, ch) == None
  {
    CloseAllShape(CloseSpoken(s).state);
  }

  /** What the reader has is what was finished, block by block, if and only if neither
      reasoning nor text ever goes on after its block ended. Calls are always read as
      finished. */
  lemma ReaderAgreesExactly(evs: seq<Event>)
    ensures var out, book := Run(INIT, evs + [Completed]), BookOf(evs + [Completed]);
      && ProperAll([], out.marks) && |book| == out.state.next
      && (forall d :: d in out.state.done ==> Seen(book, d))
      && (MatchesAll(out.state.done, book) <==> !Returns(evs, Thought) && !Returns(evs, Speech))
  {
    var all := evs + [Completed];
    var out, book := Run(INIT, all), BookOf(all);
    RunReads(INIT, all, []);
    DoneIsSealed(all);
    AllSeen(out.marks);
    ReadBackExactly(out.marks, Thought);
    ReadBackExactly(out.marks, Speech);
    DoneTextIsOwnExactly(evs, Thought);
    DoneTextIsOwnExactly(evs, Speech);
    BothChannels(out.state.done, book);
  }

  lemma BothChannels(done: seq<Sealed>, book: seq<Draft>)
    requires forall d :: d in done ==> Seen(book, d)
    ensures MatchesAll(done, book) <==> ReadBack(done, book, Thought) && ReadBack(done, book, Speech)
  {
    if ReadBack(done, book, Thought) && ReadBack(done, book, Speech) {
      forall d | d in done ensures d.i < |book| && d.part == book[d.i].Part() {
        assert Seen(book, d);
        assert PartOn(d.part, Thought) || PartOn(d.part, Speech) || d.part.Call?;
      }
    }
  }

  // ----- a run where it fails -----

  lemma ThreeSteps(s: State, a: Event, b: Event, c: Event)
    ensures var x := Step(s, a); var y := Step(x.state, b); var z := Step(y.state, c);
      Run(s, [a, b, c]) == Out(z.state, x.marks + y.marks + z.marks)
  {
    RunOne(s, a);
    RunSnoc(s, [a], b);
    RunSnoc(s, [a, b], c);
    assert [a] + [b] == [a, b] && [a, b] + [c] == [a, b, c];
  }

  lemma RunOne(s: State, ev: Event)
    ensures Run(s, [ev]) == Step(s, ev)
  {
    RunSnoc(s, [], ev);
    assert [] + [ev] == [ev] && [] + Step(s, ev).marks == Step(s, ev).marks;
  }

  lemma ThreeMarks(callId: string, name: string)
    ensures var out := Run(INIT, [TextDelta("a"), ToolCallStart(0, callId, name), TextDelta("b")]);
      && out.marks == [Open(0, ProseKind), Delta(0, Speech, "a"), Close(0, Prose("a")), Open(1, CallKind(callId, name)),
                       Open(2, ProseKind), Delta(2, Speech, "b")]
      && out.state.prose == Some(2) && out.state.proseText == "ab" && out.state.thinking == None
  {
    ThreeSteps(INIT, TextDelta("a"), ToolCallStart(0, callId, name), TextDelta("b"));
    assert "a" + "b" == "ab" && "" + "a" == "a";
  }

  lemma FinishSealsProse(s: State)
    requires s.prose.Some? && s.thinking.None?
    ensures Sealed(s.prose.value, Prose(s.proseText)) in Finish(s).state.done
    ensures Silent(Finish(s).marks, s.prose.value)
  {
    var spoken := CloseSpoken(s);
    var order := Ordered.Ascending(spoken.state.calls.Keys);
    assert Sealed(s.prose.value, Prose(s.proseText)) in spoken.state.done;
    CloseCallsMoves(spoken.state, order);
    CloseCallsSilent(spoken.state, order, s.prose.value);
  }

  /** Text, a tool call, and text again: the second text block is streamed "b" but
      finishes as "ab". */
  lemma SecondTextRepeatsFirst(callId: string, name: string)
    ensures var out := Run(INIT, [TextDelta("a"), ToolCallStart(0, callId, name), TextDelta("b")] + [Completed]);
      Sealed(2, Prose("ab")) in out.state.done && OwnText(out.marks, 2, Speech) == "b"
  {
    var evs := [TextDelta("a"), ToolCallStart(0, callId, name), TextDelta("b")];
    var mid := Run(INIT, evs);
    ThreeMarks(callId, name);
    RunSnoc(INIT, evs, Completed);
    FinishSealsProse(mid.state);
    SilentOwn(Finish(mid.state).marks, 2, Speech);
    OwnTextAppend(mid.marks, Finish(mid.state).marks, 2, Speech);
    LastDelta(mid.marks, 2, "b");
  }

  lemma LastDelta(marks: seq<Mark>, i: nat, text: string)
    requires marks != [] && marks[|marks| - 1] == Delta(i, Speech, text) && Silent(marks[..|marks| - 1], i)
    ensures OwnText(marks, i, Speech) == text
  {
    var before := marks[..|marks| - 1];
    assert marks == before + [Delta(i, Speech, text)];
    SilentOwn(before, i, Speech);
    OwnTextSnoc(before, Delta(i, Speech, text), i, Speech);
    assert "" + text == text;
  }
}
