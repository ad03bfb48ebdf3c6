/** A client of the Anthropic stream: it puts every content block together from the
    frames that carry the block's index. */
module AnthropicClient {
  import opened Wrappers
  import opened Canonical
  import opened Blocks
  import opened Anthropic
  import opened BlockReading
  import opened Reorder
  import AF = AnthropicFacts
  import BL = BlockLifecycle
  import opened DoneText

  /** A block being put together: how it was announced, and what its deltas added. */
  datatype Piece = Piece(start: Block, text: string, signature: Option<string>, stopped: bool)

  function Extend(p: Piece, d: BlockDelta): Piece {
    match d
    case ThinkingDelta(text) => if p.start.ThinkingBlock? then p.(text := p.text + text) else p
    case SignatureDelta(signature) => if p.start.ThinkingBlock? then p.(signature := Some(signature)) else p
    case TextPiece(text) => if p.start.TextBlock? then p.(text := p.text + text) else p
    case InputJsonDelta(json) => if p.start.ToolUse? then p.(text := p.text + json) else p
  }

  function Take(pieces: seq<Piece>, f: Frame): seq<Piece> {
    match f
    case ContentBlockStart(i, block) => if i == |pieces| then pieces + [Piece(block, "", None, false)] else pieces
    case ContentBlockDelta(i, d) => if i < |pieces| then pieces[i := Extend(pieces[i], d)] else pieces
    case ContentBlockStop(i) => if i < |pieces| then pieces[i := pieces[i].(stopped := true)] else pieces
    case _ => pieces
  }

  function TakeAll(pieces: seq<Piece>, frames: seq<Frame>): seq<Piece>
    decreases frames
  {
    if frames == [] then pieces else TakeAll(Take(pieces, frames[0]), frames[1..])
  }

  function Assemble(read: JsonReader, p: Piece): Block {
    match p.start
    case ThinkingBlock(_, _) => ThinkingBlock(p.text, p.signature)
    case TextBlock(_) => TextBlock(p.text)
    case ToolUse(id, name, _) => ToolUse(id, name, InputOf(read, p.text))
  }

  /** The content that the frames add up to, by block index. */
  function ContentRead(read: JsonReader, frames: seq<Frame>): seq<Block> {
    var pieces := TakeAll([], frames);
    seq(|pieces|, k requires 0 <= k < |pieces| => Assemble(read, pieces[k]))
  }

  predicate AllStopped(frames: seq<Frame>) {
    forall p :: p in TakeAll([], frames) ==> p.stopped
  }

  lemma {:induction false} TakeAppend(pieces: seq<Piece>, a: seq<Frame>, b: seq<Frame>)
    ensures TakeAll(pieces, a + b) == TakeAll(TakeAll(pieces, a), b)
    decreases a
  {
    if a == [] {
      assert a + b == b;
    } else {
      assert (a + b)[0] == a[0] && (a + b)[1..] == a[1..] + b;
      TakeAppend(Take(pieces, a[0]), a[1..], b);
    }
  }

  lemma TakeShort(pieces: seq<Piece>, a: Frame, b: Frame)
    ensures TakeAll(pieces, []) == pieces
    ensures TakeAll(pieces, [a]) == Take(pieces, a)
    ensures TakeAll(pieces, [a, b]) == Take(Take(pieces, a), b)
  {
    assert [a][1..] == [] && [b][1..] == [] && [a, b][1..] == [b];
    assert TakeAll(Take(pieces, a), []) == Take(pieces, a);
    assert TakeAll(Take(Take(pieces, a), b), []) == Take(Take(pieces, a), b);
  }

  // ----- the frames show the machine's blocks -----

  function StartOf(kind: Kind): Block {
    match kind
    case ReasoningKind => ThinkingBlock("", None)
    case ProseKind => TextBlock("")
    case CallKind(callId, name) => ToolUse(callId, name, Json.Obj(map[]))
  }

  function Shown(d: Draft): Piece {
    var signature := if d.kind.ReasoningKind? && d.closed then Some(THINKING_SIGNATURE) else None;
    Piece(StartOf(d.kind), d.text, signature, d.closed)
  }

  function ShownAll(book: seq<Draft>): seq<Piece> {
    seq(|book|, k requires 0 <= k < |book| => Shown(book[k]))
  }

  lemma MarkShown(book: seq<Draft>, m: Mark)
    requires Proper(book, m)
    ensures TakeAll(ShownAll(book), Render(m)) == ShownAll(Bind(book, m))
  {
    var f := Render(m);
    if |f| == 1 {
      assert f == [f[0]];
      TakeShort(ShownAll(book), f[0], f[0]);
    } else {
      assert f == [f[0], f[1]];
      TakeShort(ShownAll(book), f[0], f[1]);
    }
  }

  lemma {:induction false} MarksShown(book: seq<Draft>, marks: seq<Mark>)
    requires ProperAll(book, marks)
    ensures TakeAll(ShownAll(book), RenderAll(marks)) == ShownAll(BindAll(book, marks))
    decreases marks
  {
    if marks != [] {
      MarkShown(book, marks[0]);
      MarksShown(Bind(book, marks[0]), marks[1..]);
      TakeAppend(ShownAll(book), Render(marks[0]), RenderAll(marks[1..]));
    }
  }

  lemma OutsideIgnored(pieces: seq<Piece>, frames: seq<Frame>)
    requires AF.OnlyOutside(frames)
    ensures TakeAll(pieces, frames) == pieces
  {
    if |frames| == 1 {
      assert frames == [frames[0]];
      TakeShort(pieces, frames[0], frames[0]);
    } else if |frames| == 2 {
      assert frames == [frames[0], frames[1]];
      TakeShort(pieces, frames[0], frames[1]);
    }
  }

  lemma StepShown(s: State, started: bool, ev: Event, book: seq<Draft>)
    requires Knows(s, book)
    ensures TakeAll(ShownAll(book), Frames(s, started, ev)) == ShownAll(BindAll(book, Step(s, ev).marks))
  {
    var a, b, c := StartFrames(s, started, ev), RenderAll(Step(s, ev).marks), EndFrames(s, ev);
    StepReads(s, ev, book);
    AF.FramesAroundBlocks(s, started, ev);
    OutsideIgnored(ShownAll(book), a);
    MarksShown(book, Step(s, ev).marks);
    OutsideIgnored(ShownAll(BindAll(book, Step(s, ev).marks)), c);
    TakeAppend(ShownAll(book), a, b);
    TakeAppend(ShownAll(book), a + b, c);
  }

  /** Whatever the run, the client's pieces are the blocks the machine made. */
  lemma {:induction false} RunShown(s: State, started: bool, evs: seq<Event>, book: seq<Draft>)
    requires Knows(s, book)
    ensures TakeAll(ShownAll(book), AF.RunFrames(s, started, evs)) == ShownAll(BindAll(book, Run(s, evs).marks))
    decreases evs
  {
    if evs != [] {
      var a, started' := Step(s, evs[0]), started || Announces(evs[0]);
      StepShown(s, started, evs[0], book);
      StepReads(s, evs[0], book);
      RunShown(a.state, started', evs[1..], BindAll(book, a.marks));
      TakeAppend(ShownAll(book), Frames(s, started, evs[0]), AF.RunFrames(a.state, started', evs[1..]));
      BindAllAppend(book, a.marks, Run(a.state, evs[1..]).marks);
    }
  }

  // ----- what the client has at the end -----

  lemma AssembledDraft(read: JsonReader, d: Draft)
    requires d.closed
    ensures Assemble(read, Shown(d)) == DoneBlock(read, d.Part())
  {
  }

  /** Two parts that a reader takes for the same kind render alike only if equal. */
  lemma RenderedAlike(read: JsonReader, book: seq<Draft>, d: Sealed)
    requires Seen(book, d)
    ensures DoneBlock(read, d.part) == DoneBlock(read, book[d.i].Part()) <==> d.part == book[d.i].Part()
  {
  }

  /** Every opened block is finished, so the reader saw each of them close. */
  lemma AllClosed(evs: seq<Event>)
    requires BL.NoReopen({}, evs)
    ensures forall d :: d in BookOf(evs + [Completed]) ==> d.closed
  {
    var out, book := Run(INIT, evs + [Completed]), BookOf(evs + [Completed]);
    ReaderAgreesExactly(evs);
    NumbersArePermutation(evs);
    PermutationWithin(Numbers(out.state.done), |book|);
    forall d | d in book ensures d.closed {
      var i: nat :| i < |book| && book[i] == d;
      assert i in Numbers(out.state.done);
      var k :| 0 <= k < |out.state.done| && Numbers(out.state.done)[k] == i;
      assert out.state.done[k] in out.state.done;
    }
  }

  /** The content that the client puts together, on a run that reopens no call: every
      block is announced, filled and stopped, and the finished message lists the same
      blocks in closing order, if and only if neither reasoning nor text goes on after
      its block ended. */
  lemma ClientReadsExactly(read: JsonReader, evs: seq<Event>)
    requires BL.NoReopen({}, evs)
    ensures var frames := AF.RunFrames(INIT, false, evs + [Completed]);
      var state := Run(INIT, evs + [Completed]).state;
      var got, order := ContentRead(read, frames), Numbers(state.done);
      && AllStopped(frames) && IsPermutation(order, |got|) && Within(order, |got|)
      && (Final(read, state).content == Pick(got, order) <==> !Returns(evs, Thought) && !Returns(evs, Speech))
  {
    var frames := AF.RunFrames(INIT, false, evs + [Completed]);
    var done, book := Run(INIT, evs + [Completed]).state.done, BookOf(evs + [Completed]);
    ClientHasBook(read, evs);
    ReaderAgreesExactly(evs);
    NumbersArePermutation(evs);
    PermutationWithin(Numbers(done), |book|);
    forall k | 0 <= k < |done| ensures Seen(book, done[k]) { assert done[k] in done; }
    PickedMatches(read, done, book, ContentRead(read, frames));
  }

  /** The client's blocks, stopped all, are those the machine made. */
  lemma ClientHasBook(read: JsonReader, evs: seq<Event>)
    requires BL.NoReopen({}, evs)
    ensures var frames, book := AF.RunFrames(INIT, false, evs + [Completed]), BookOf(evs + [Completed]);
      && AllStopped(frames) && |ContentRead(read, frames)| == |book|
      && forall k :: 0 <= k < |book| ==> ContentRead(read, frames)[k] == DoneBlock(read, book[k].Part())
  {
    var frames, book := AF.RunFrames(INIT, false, evs + [Completed]), BookOf(evs + [Completed]);
    NothingKnown();
    RunShown(INIT, false, evs + [Completed], []);
    assert ShownAll([]) == [];
    AllClosed(evs);
    forall k | 0 <= k < |book|
      ensures book[k].closed && ContentRead(read, frames)[k] == DoneBlock(read, book[k].Part())
    {
      assert book[k] in book;
      AssembledDraft(read, book[k]);
    }
  }

  /** What `ClientReadsExactly` says of each finished part, when nothing goes on after
      its block ended: the part is at its number in the client's list, and every number
      is taken. */
  ghost predicate Lists(read: JsonReader, done: seq<Sealed>, got: seq<Block>) {
    && (forall k :: 0 <= k < |done| ==> done[k].i < |got| && got[done[k].i] == DoneBlock(read, done[k].part))
    && forall i: nat :: i < |got| ==> i in Numbers(done)
  }

  lemma ClientLists(read: JsonReader, evs: seq<Event>)
    requires BL.NoReopen({}, evs) && !Returns(evs, Thought) && !Returns(evs, Speech)
    ensures var state, frames := Run(INIT, evs + [Completed]).state, AF.RunFrames(INIT, false, evs + [Completed]);
      && AllStopped(frames) && |ContentRead(read, frames)| == state.next
      && Lists(read, state.done, ContentRead(read, frames))
      && multiset(ContentRead(read, frames)) == multiset(Content(read, state.done))
  {
    var state := Run(INIT, evs + [Completed]).state;
    var got := ContentRead(read, AF.RunFrames(INIT, false, evs + [Completed]));
    ClientReadsExactly(read, evs);
    ClientHasBook(read, evs);
    ReaderAgreesExactly(evs);
    PickAll(got, Numbers(state.done));
    PickedLists(read, state.done, got);
  }

  lemma PickedLists(read: JsonReader, done: seq<Sealed>, got: seq<Block>)
    requires IsPermutation(Numbers(done), |got|) && Within(Numbers(done), |got|)
    requires Content(read, done) == Pick(got, Numbers(done))
    ensures Lists(read, done, got)
  {
    var order := Numbers(done);
    PermutationWithin(order, |got|);
    forall k | 0 <= k < |done| ensures done[k].i < |got| && got[done[k].i] == DoneBlock(read, done[k].part) {
      assert order[k] in order;
      assert Content(read, done)[k] == Pick(got, order)[k];
    }
  }

  lemma NothingKnown()
    ensures Knows(INIT, [])
  {
  }

  lemma PickedMatches(read: JsonReader, done: seq<Sealed>, book: seq<Draft>, got: seq<Block>)
    requires |got| == |book| && Within(Numbers(done), |got|)
    requires forall k :: 0 <= k < |book| ==> got[k] == DoneBlock(read, book[k].Part())
    requires forall k :: 0 <= k < |done| ==> Seen(book, done[k])
    ensures Content(read, done) == Pick(got, Numbers(done)) <==> MatchesAll(done, book)
  {
    var content, picked := Content(read, done), Pick(got, Numbers(done));
    forall k | 0 <= k < |done| ensures content[k] == picked[k] <==> done[k].part == book[done[k].i].Part() {
      RenderedAlike(read, book, done[k]);
    }
    if content == picked {
      forall d | d in done ensures d.i < |book| && d.part == book[d.i].Part() {
        var k :| 0 <= k < |done| && done[k] == d;
        assert content[k] == picked[k];
      }
    } else {
      var k :| 0 <= k < |done| && content[k] != picked[k];
      assert done[k] in done;
    }
  }
}
