/** Payloads written as `data:` lines and fed back in any chunking. */
module SseRoundTrip {
  import opened Wrappers
  import opened Utf8
  import opened Sse

  // ----- lines -----

  function JoinLines(ls: seq<string>): string
    requires ls != []
  {
    if |ls| == 1 then ls[0] else ls[0] + "\n" + JoinLines(ls[1..])
  }

  predicate OneLine(l: string) {
    '\n' !in l
  }

  lemma {:induction false} SplitOne(l: string, rest: string)
    requires OneLine(l)
    ensures Split(l) == [l]
    ensures Split(l + "\n" + rest) == [l] + Split(rest)
  {
    var s := l + "\n" + rest;
    if l == "" {
      assert s[1..] == rest;
    } else {
      SplitOne(l[1..], rest);
      assert l == [l[0]] + l[1..];
      assert [l[1..]][1..] == [] && ([l[1..]] + Split(rest))[1..] == Split(rest);
      assert s[0] == l[0] && s[1..] == l[1..] + "\n" + rest;
    }
  }

  lemma {:induction false} SplitJoined(ls: seq<string>)
    requires ls != [] && forall l :: l in ls ==> OneLine(l)
    ensures Split(JoinLines(ls)) == ls
  {
    if |ls| == 1 {
      SplitOne(ls[0], "");
    } else {
      SplitJoined(ls[1..]);
      SplitOne(ls[0], JoinLines(ls[1..]));
    }
  }

  lemma {:induction false} JoinSplit(s: string)
    ensures JoinLines(Split(s)) == s && forall l :: l in Split(s) ==> OneLine(l)
  {
    if s != "" {
      var rest := Split(s[1..]);
      JoinSplit(s[1..]);
      if s[0] == '\n' {
        assert ([""] + rest)[1..] == rest;
        assert "" + "\n" + s[1..] == s;
      } else {
        var first := [s[0]] + rest[0];
        assert Split(s) == [first] + rest[1..];
        if |rest| > 1 {
          assert first + "\n" + JoinLines(rest[1..]) == [s[0]] + (rest[0] + "\n" + JoinLines(rest[1..]));
        }
        assert s == [s[0]] + s[1..];
        assert rest[0] in rest && OneLine(first);
        assert forall l :: l in rest[1..] ==> l in rest;
      }
    }
  }

  // ----- one payload -----

  function DataLines(ls: seq<string>): seq<string> {
    seq(|ls|, k requires 0 <= k < |ls| => "data: " + ls[k])
  }

  /** The event block of a payload: each of its lines on a `data:` line. */
  function BlockText(p: string): string {
    JoinLines(DataLines(Split(p)))
  }

  /** No line of the payload ends in a carriage return. */
  predicate NoTrailingCr(ls: seq<string>) {
    forall k :: 0 <= k < |ls| ==> StripCr(ls[k]) == ls[k]
  }

  /** The payloads that survive: not empty, not starting with a line break, no line
      ending in a carriage return, and not the end marker. */
  predicate RoundTrips(p: string) {
    p != "" && p[0] != '\n' && NoTrailingCr(Split(p)) && Trim(p) != "[DONE]"
  }

  function Glue(data: string, ls: seq<string>): string
    decreases ls
  {
    if ls == [] then data else Glue(Join(data, StripCr(ls[0])), ls[1..])
  }

  lemma DataLineOf(l: string)
    ensures DataLine("data: " + l) == Some(StripCr(l))
  {
    var raw := "data: " + l;
    if l != "" {
      assert raw[|raw| - 1] == l[|l| - 1];
      assert raw[..|raw| - 1] == "data: " + l[..|l| - 1];
    }
    assert StripCr(raw) == "data: " + StripCr(l);
    assert ("data: " + StripCr(l))[5..] == " " + StripCr(l);
    assert (" " + StripCr(l))[1..] == StripCr(l);
  }

  lemma {:induction false} GatherGlues(data: string, ls: seq<string>)
    ensures Gather(data, DataLines(ls)) == Glue(data, ls)
    decreases ls
  {
    if ls != [] {
      DataLineOf(ls[0]);
      assert DataLines(ls)[1..] == DataLines(ls[1..]);
      GatherGlues(Join(data, StripCr(ls[0])), ls[1..]);
    }
  }

  /** Nothing is lost at the seams: a leading empty line would be. */
  predicate Seamless(data: string, ls: seq<string>)
    requires ls != []
  {
    data != "" || ls[0] != "" || |ls| == 1
  }

  function Prefixed(data: string, text: string): string {
    (if data == "" then "" else data + "\n") + text
  }

  lemma {:induction false} GlueExact(data: string, ls: seq<string>)
    requires ls != []
    ensures |Glue(data, ls)| <= |Prefixed(data, JoinLines(ls))|
    ensures NoTrailingCr(ls) && Seamless(data, ls) ==> Glue(data, ls) == Prefixed(data, JoinLines(ls))
    ensures !(NoTrailingCr(ls) && Seamless(data, ls)) ==> |Glue(data, ls)| < |Prefixed(data, JoinLines(ls))|
    decreases ls
  {
    var data', rest := Join(data, StripCr(ls[0])), ls[1..];
    NoTrailingStep(ls);
    if |ls| == 1 {
      assert rest == [] && Glue(data', rest) == data';
    } else {
      GlueExact(data', rest);
      if NoTrailingCr(ls) && Seamless(data, ls) {
        assert data' + "\n" + JoinLines(rest) == Prefixed(data, JoinLines(ls));
      }
    }
  }

  lemma NoTrailingStep(ls: seq<string>)
    requires ls != []
    ensures NoTrailingCr(ls) <==> StripCr(ls[0]) == ls[0] && NoTrailingCr(ls[1..])
  {
    assert forall k :: 0 <= k < |ls[1..]| ==> ls[1..][k] == ls[k + 1];
    assert forall k :: 1 <= k < |ls| ==> ls[k] == ls[1..][k - 1];
  }

  /** A payload comes back exactly when it meets the condition. */
  lemma PayloadExact(p: string)
    ensures ParseBlock(BlockText(p)) == Some(Data(p)) <==> RoundTrips(p)
  {
    var ls := Split(p);
    JoinSplit(p);
    BlockLines(ls);
    GlueExact("", ls);
    assert Prefixed("", p) == p;
    FirstLine(p);
  }

  /** The data of a block is its payload lines put back together. */
  lemma BlockLines(ls: seq<string>)
    requires ls != [] && forall l :: l in ls ==> OneLine(l)
    ensures ParseBlock(JoinLines(DataLines(ls))) == Classify(Glue("", ls))
  {
    forall l | l in DataLines(ls) ensures OneLine(l) {
      var k :| 0 <= k < |ls| && l == "data: " + ls[k];
      assert ls[k] in ls;
    }
    SplitJoined(DataLines(ls));
    GatherGlues("", ls);
  }

  lemma FirstLine(p: string)
    ensures p != "" ==> (Seamless("", Split(p)) <==> p[0] != '\n')
  {
  }

  // ----- the bytes of a stream -----

  function EventBytes(p: string): seq<Byte> {
    Encode(BlockText(p)) + [LF, LF]
  }

  function Stream(ps: seq<string>): seq<Byte> {
    if ps == [] then [] else EventBytes(ps[0]) + Stream(ps[1..])
  }

  predicate StartsLine(x: seq<Byte>) {
    x != [] && x[0] != LF && x[0] != CR
  }

  /** Starts a line, and every line feed is followed by the start of one. */
  predicate Calm(x: seq<Byte>) {
    StartsLine(x) && forall i :: 0 <= i < |x| && x[i] == LF ==> i + 1 < |x| && x[i + 1] != LF && x[i + 1] != CR
  }

  lemma {:induction false} NoLineFeed(l: string)
    requires OneLine(l)
    ensures forall i :: 0 <= i < |Encode(l)| ==> Encode(l)[i] != LF
  {
    if l != "" {
      assert OneLine(l[1..]);
      NoLineFeed(l[1..]);
      assert l[0] != '\n';
      CharNoLineFeed(l[0]);
    }
  }

  lemma CharNoLineFeed(c: char)
    requires c != '\n'
    ensures forall i :: 0 <= i < |EncodeChar(c)| ==> EncodeChar(c)[i] != LF
  {
  }

  lemma LineIsCalm(l: string)
    requires OneLine(l)
    ensures Calm(Encode("data: " + l))
  {
    assert OneLine("data: " + l);
    NoLineFeed("data: " + l);
    var tail := ("data: " + l)[1..];
    assert Encode("data: " + l) == EncodeChar('d') + Encode(tail);
  }

  lemma CalmJoin(a: seq<Byte>, b: seq<Byte>)
    requires Calm(a) && Calm(b)
    ensures Calm(a + [LF] + b)
  {
    var x := a + [LF] + b;
    forall i | 0 <= i < |x| && x[i] == LF ensures i + 1 < |x| && x[i + 1] != LF && x[i + 1] != CR {
      if i < |a| { assert a[i] == LF; }
      if i > |a| { assert b[i - |a| - 1] == LF; }
    }
  }

  lemma {:induction false} BlockIsCalm(ls: seq<string>)
    requires ls != [] && forall l :: l in ls ==> OneLine(l)
    ensures Calm(Encode(JoinLines(DataLines(ls))))
  {
    var ds := DataLines(ls);
    LineIsCalm(ls[0]);
    if |ls| > 1 {
      BlockIsCalm(ls[1..]);
      assert ds[1..] == DataLines(ls[1..]);
      var later := JoinLines(ds[1..]);
      EncodeAppend(ds[0] + "\n", later);
      EncodeAppend(ds[0], "\n");
      assert Encode("\n") == [LF] by { assert "\n"[1..] == ""; assert Encode("") == []; }
      CalmJoin(Encode(ds[0]), Encode(later));
    }
  }

  /** The two ways of ending an event. */
  predicate Separator(sep: seq<Byte>) {
    sep == [LF, LF] || sep == [CR, LF, CR, LF]
  }

  lemma CalmBlockIsCut(x: seq<Byte>, sep: seq<Byte>, rest: seq<Byte>)
    requires Calm(x) && Separator(sep)
    ensures NextBlock(x + sep + rest) == Cut(x, rest)
  {
    var buf := x + sep + rest;
    assert forall i :: 0 <= i < |x| ==> buf[i] == x[i];
    assert forall i :: 0 <= i < |sep| ==> buf[|x| + i] == sep[i];
    forall i: nat | i < |x| ensures !SepAt(buf, i) { NoneInside(x, sep, rest, i); }
    assert SepAt(buf, |x|) && SepLen(buf, |x|) == |sep|;
    LeftmostCuts(buf, |x|);
    assert buf[..|x|] == x && buf[|x| + |sep|..] == rest;
  }

  lemma NoneInside(x: seq<Byte>, sep: seq<Byte>, rest: seq<Byte>, i: nat)
    requires Calm(x) && Separator(sep) && i < |x|
    ensures !SepAt(x + sep + rest, i)
  {
    var buf := x + sep + rest;
    assert buf[i] == x[i] && buf[i + 1] == (if i + 1 < |x| then x[i + 1] else sep[0]);
    if i + 1 < |x| { assert buf[i + 2] == if i + 2 < |x| then x[i + 2] else sep[i + 2 - |x|]; }
    else { assert buf[i + 2] == sep[1]; }
  }

  /** What the decoder makes of a list of payloads. */
  function Outcomes(ps: seq<string>): seq<Item> {
    if ps == [] then [] else Optional(ParseBlock(BlockText(ps[0]))) + Outcomes(ps[1..])
  }

  lemma BlockBytes(p: string)
    ensures Calm(Encode(BlockText(p))) && ItemOf(Encode(BlockText(p))) == Optional(ParseBlock(BlockText(p)))
  {
    JoinSplit(p);
    BlockIsCalm(Split(p));
    DecodeEncoded(BlockText(p));
  }

  lemma {:induction false} StreamItems(ps: seq<string>)
    ensures Items(Stream(ps)) == Outcomes(ps) && Rest(Stream(ps)) == []
  {
    if ps == [] {
      NextBlockCuts([]);
    } else {
      BlockBytes(ps[0]);
      CalmBlockIsCut(Encode(BlockText(ps[0])), [LF, LF], Stream(ps[1..]));
      StreamItems(ps[1..]);
    }
  }

  function DataItems(ps: seq<string>): seq<Item> {
    seq(|ps|, k requires 0 <= k < |ps| => Data(ps[k]))
  }

  predicate AllRoundTrip(ps: seq<string>) {
    forall k :: 0 <= k < |ps| ==> RoundTrips(ps[k])
  }

  lemma AllStep(ps: seq<string>)
    requires ps != []
    ensures DataItems(ps) == [Data(ps[0])] + DataItems(ps[1..])
    ensures AllRoundTrip(ps) <==> RoundTrips(ps[0]) && AllRoundTrip(ps[1..])
  {
    assert forall k :: 0 <= k < |ps[1..]| ==> ps[1..][k] == ps[k + 1];
    assert forall k :: 1 <= k < |ps| ==> ps[k] == ps[1..][k - 1];
  }

  lemma SameHead(first: seq<Item>, a: seq<Item>, x: Item, b: seq<Item>)
    requires |first| <= 1 && |a| <= |b|
    ensures first + a == [x] + b <==> first == [x] && a == b
  {
    if first + a == [x] + b {
      assert |first| == 1;
      assert (first + a)[0] == first[0] && (first + a)[1..] == a;
      assert ([x] + b)[1..] == b;
    }
  }

  lemma {:induction false} OutcomesExact(ps: seq<string>)
    ensures |Outcomes(ps)| <= |ps|
    ensures Outcomes(ps) == DataItems(ps) <==> AllRoundTrip(ps)
  {
    if ps != [] {
      var outcome, rest := ParseBlock(BlockText(ps[0])), ps[1..];
      PayloadExact(ps[0]);
      OutcomesExact(rest);
      AllStep(ps);
      SameHead(Optional(outcome), Outcomes(rest), Data(ps[0]), DataItems(rest));
    }
  }

  /** Event-stream round trip: written as `data:` lines and fed in any chunking, a
      list of payloads decodes to exactly itself if and only if each payload meets
      the condition. */
  lemma StreamRoundTrip(ps: seq<string>, chunks: seq<seq<Byte>>)
    requires Concat(chunks) == Stream(ps)
    ensures PushAll([], chunks) == DataItems(ps) <==> AllRoundTrip(ps)
  {
    FromStart(chunks);
    StreamItems(ps);
    OutcomesExact(ps);
  }

  lemma FromStart(chunks: seq<seq<Byte>>)
    ensures PushAll([], chunks) == Items(Concat(chunks))
  {
    assert Unseparated([]);
    ChunkingIndependent([], chunks);
    assert [] + Concat(chunks) == Concat(chunks);
  }

  // ----- and the end marker -----

  const END_MARKER := "[DONE]"

  lemma {:induction false} OutcomesAppend(a: seq<string>, b: seq<string>)
    ensures Outcomes(a + b) == Outcomes(a) + Outcomes(b)
  {
    if a == [] {
      assert a + b == b;
    } else {
      assert (a + b)[0] == a[0] && (a + b)[1..] == a[1..] + b;
      OutcomesAppend(a[1..], b);
      Regroup(Optional(ParseBlock(BlockText(a[0]))), Outcomes(a[1..]), Outcomes(b));
    }
  }

  lemma Regroup(a: seq<Item>, b: seq<Item>, c: seq<Item>)
    ensures a + (b + c) == (a + b) + c
  {
  }

  lemma OneLineBlock(l: string)
    requires OneLine(l)
    ensures ParseBlock(BlockText(l)) == Classify(StripCr(l))
  {
    SplitOne(l, "");
    BlockLines([l]);
    assert [l][1..] == [] && Join("", StripCr(l)) == StripCr(l);
    assert Glue("", [l]) == Glue(Join("", StripCr(l)), []) == StripCr(l);
    assert BlockText(l) == JoinLines(DataLines([l]));
  }

  lemma MarkerBlock()
    ensures ParseBlock(BlockText(END_MARKER)) == Some(Done)
  {
    var marker := END_MARKER;
    OneLineBlock(marker);
    assert TrimLeft(marker) == marker && TrimRight(marker) == marker;
  }

  lemma MarkerIsPlain()
    ensures END_MARKER != "" && END_MARKER[0] != '\n' && NoTrailingCr(Split(END_MARKER))
  {
    SplitOne(END_MARKER, "");
  }

  /** Payloads that survive, then the end marker. */
  lemma MarkedStream(ps: seq<string>)
    requires AllRoundTrip(ps)
    ensures Items(Stream(ps + [END_MARKER])) == DataItems(ps) + [Done]
  {
    StreamItems(ps + [END_MARKER]);
    OutcomesAppend(ps, [END_MARKER]);
    OutcomesExact(ps);
    MarkerBlock();
    assert [END_MARKER][1..] == [];
    assert Outcomes([END_MARKER]) == [Done] + [] == [Done];
  }

  /** A line break at the start of a payload is lost. */
  lemma LeadingBreakIsLost()
    ensures ParseBlock(BlockText("\nx")) == Some(Data("x"))
  {
    var p := "\nx";
    assert p[1..] == "x";
    SplitOne("x", "");
    assert Split(p) == [""] + Split("x") == ["", "x"];
    BlockLines(["", "x"]);
    GlueLosesEmpty("x");
    NotTheMarker();
  }

  lemma GlueLosesEmpty(l: string)
    requires StripCr(l) == l
    ensures Glue("", ["", l]) == l
  {
    assert ["", l][1..] == [l] && [l][1..] == [];
    assert Glue("", ["", l]) == Glue(Join("", ""), [l]) == Glue(Join("", l), []) == "" + l;
  }

  lemma NotTheMarker()
    ensures Classify("x") == Some(Data("x"))
  {
    assert TrimLeft("x") == "x" && TrimRight("x") == "x";
    assert |Trim("x")| == 1;
  }
}
