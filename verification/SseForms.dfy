/** Event streams in every form that servers write them: either line end, with or without
    the space after `data:`, and with other fields and comments in between. */
module SseForms {
  import opened Wrappers
  import opened Utf8
  import opened Sse
  import opened SseRoundTrip

  datatype Line = Datum(text: string) | Other(text: string)

  datatype Event = Event(crlf: bool, space: bool, lines: seq<Line>)

  function LineText(space: bool, line: Line): string {
    match line
    case Datum(text) => (if space then "data: " else "data:") + text
    case Other(text) => text
  }

  /** The lines of an event, with its line ends between them. */
  function EventText(crlf: bool, space: bool, ls: seq<Line>): string
    requires ls != []
  {
    if |ls| == 1 then LineText(space, ls[0])
    else LineText(space, ls[0]) + (if crlf then "\r\n" else "\n") + EventText(crlf, space, ls[1..])
  }

  function SeparatorOf(crlf: bool): seq<Byte> {
    if crlf then [CR, LF, CR, LF] else [LF, LF]
  }

  /** What may stand on a line: no line break and no carriage return at the end of data, no
      space in front that would be taken for the optional one, and no blank line. */
  predicate Fits(space: bool, line: Line) {
    match line
    case Datum(text) =>
      '\n' !in text && (text != "" ==> text[|text| - 1] != '\r') && (!space && text != "" ==> text[0] != ' ')
    case Other(text) => '\n' !in text && text != "" && text[0] != '\r' && !("data:" <= text)
  }

  predicate AllFit(space: bool, ls: seq<Line>) {
    forall k :: 0 <= k < |ls| ==> Fits(space, ls[k])
  }

  function Texts(ls: seq<Line>): seq<string> {
    if ls == [] then [] else (if ls[0].Datum? then [ls[0].text] else []) + Texts(ls[1..])
  }

  /** An event with lines; if it has data, the data does not start with an empty line. */
  predicate Good(e: Event) {
    e.lines != [] && AllFit(e.space, e.lines) && (Texts(e.lines) != [] ==> Texts(e.lines)[0] != "")
  }

  predicate AllGood(events: seq<Event>) {
    forall k :: 0 <= k < |events| ==> Good(events[k])
  }

  /** The data lines joined; nothing if there are none. */
  function Meaning(e: Event): seq<Item> {
    var texts := Texts(e.lines);
    if texts == [] then [] else if Trim(JoinLines(texts)) == "[DONE]" then [Done] else [Data(JoinLines(texts))]
  }

  function Meanings(events: seq<Event>): seq<Item> {
    if events == [] then [] else Meaning(events[0]) + Meanings(events[1..])
  }

  function BytesFor(e: Event): seq<Byte>
    requires e.lines != []
  {
    Encode(EventText(e.crlf, e.space, e.lines)) + SeparatorOf(e.crlf)
  }

  function StreamFor(events: seq<Event>): seq<Byte>
    requires AllGood(events)
  {
    if events == [] then [] else
      assert forall k :: 0 <= k < |events[1..]| ==> events[1..][k] == events[k + 1];
      BytesFor(events[0]) + StreamFor(events[1..])
  }

  // ----- one line -----

  lemma DatumRead(space: bool, text: string)
    requires Fits(space, Datum(text))
    ensures var raw := LineText(space, Datum(text));
      DataLine(raw) == Some(text) && DataLine(raw + "\r") == Some(text)
  {
    var raw := LineText(space, Datum(text));
    assert (raw + "\r")[..|raw|] == raw;
    assert raw[|raw| - 1] == (if text != "" then text[|text| - 1] else if space then ' ' else ':');
    assert StripCr(raw) == raw == StripCr(raw + "\r");
    assert raw[5..] == (if space then " " else "") + text && "data:" <= raw;
    assert space ==> raw[5..][1..] == text;
  }

  lemma OtherRead(text: string)
    requires !("data:" <= text)
    ensures DataLine(text) == None && DataLine(text + "\r") == None
  {
    assert (text + "\r")[..|text|] == text;
    assert StripCr(text) <= text;
  }

  lemma LineRead(crlf: bool, space: bool, line: Line)
    requires Fits(space, line)
    ensures var raw := LineText(space, line) + if crlf then "\r" else "";
      DataLine(raw) == (if line.Datum? then Some(line.text) else None) && OneLine(raw)
  {
    var raw := LineText(space, line);
    assert raw + "" == raw;
    match line
    case Datum(text) => DatumRead(space, text);
    case Other(text) => OtherRead(text);
  }

  // ----- one event -----

  lemma {:induction false} TextGathered(data: string, crlf: bool, space: bool, ls: seq<Line>)
    requires ls != [] && AllFit(space, ls)
    ensures Gather(data, Split(EventText(crlf, space, ls))) == Glue(data, Texts(ls))
    decreases ls
  {
    if |ls| == 1 {
      LastLine(data, crlf, space, ls);
    } else {
      FirstLineTaken(data, crlf, space, ls);
      FirstGlued(data, ls, space);
      LaterFit(space, ls);
      TextGathered(Taken(data, ls[0]), crlf, space, ls[1..]);
    }
  }

  /** The data after one line. */
  function Taken(data: string, line: Line): string {
    match line case Datum(text) => Join(data, text) case Other(_) => data
  }

  lemma LastLine(data: string, crlf: bool, space: bool, ls: seq<Line>)
    requires |ls| == 1 && Fits(space, ls[0])
    ensures Gather(data, Split(EventText(crlf, space, ls))) == Glue(data, Texts(ls))
  {
    var raw := LineText(space, ls[0]);
    LineRead(false, space, ls[0]);
    assert raw + "" == raw;
    SplitOne(raw, "");
    GatherFirst(data, raw, []);
    FirstGlued(data, ls, space);
    assert Texts(ls[1..]) == [];
  }

  lemma FirstLineTaken(data: string, crlf: bool, space: bool, ls: seq<Line>)
    requires |ls| > 1 && Fits(space, ls[0])
    ensures Gather(data, Split(EventText(crlf, space, ls)))
      == Gather(Taken(data, ls[0]), Split(EventText(crlf, space, ls[1..])))
  {
    var raw, rest := LineText(space, ls[0]) + (if crlf then "\r" else ""), EventText(crlf, space, ls[1..]);
    LineRead(crlf, space, ls[0]);
    SplitOne(raw, rest);
    FirstRaw(crlf, space, ls);
    GatherFirst(data, raw, Split(rest));
  }

  lemma FirstRaw(crlf: bool, space: bool, ls: seq<Line>)
    requires |ls| > 1
    ensures EventText(crlf, space, ls)
      == (LineText(space, ls[0]) + (if crlf then "\r" else "")) + "\n" + EventText(crlf, space, ls[1..])
  {
  }

  lemma LaterFit(space: bool, ls: seq<Line>)
    requires ls != [] && AllFit(space, ls)
    ensures AllFit(space, ls[1..])
  {
    assert forall k :: 0 <= k < |ls[1..]| ==> ls[1..][k] == ls[k + 1];
  }

  lemma GatherFirst(data: string, line: string, rest: seq<string>)
    ensures Gather(data, [line] + rest)
      == Gather(if DataLine(line).Some? then Join(data, DataLine(line).value) else data, rest)
  {
    assert ([line] + rest)[1..] == rest;
  }

  lemma FirstGlued(data: string, ls: seq<Line>, space: bool)
    requires ls != [] && Fits(space, ls[0])
    ensures Glue(data, Texts(ls)) == Glue(Taken(data, ls[0]), Texts(ls[1..]))
  {
    if ls[0].Datum? {
      assert Texts(ls)[0] == ls[0].text && Texts(ls)[1..] == Texts(ls[1..]);
    } else {
      assert Texts(ls) == Texts(ls[1..]);
    }
  }

  lemma {:induction false} TextsFit(space: bool, ls: seq<Line>)
    requires AllFit(space, ls)
    ensures NoTrailingCr(Texts(ls)) && forall k :: 0 <= k < |Texts(ls)| ==> OneLine(Texts(ls)[k])
  {
    if ls != [] {
      assert Fits(space, ls[0]);
      LaterFit(space, ls);
      TextsFit(space, ls[1..]);
      var texts, later := Texts(ls), Texts(ls[1..]);
      if ls[0].Datum? { assert forall k :: 1 <= k < |texts| ==> texts[k] == later[k - 1]; }
      else { assert texts == later; }
    }
  }

  lemma EventRead(e: Event)
    requires Good(e)
    ensures Optional(ParseBlock(EventText(e.crlf, e.space, e.lines))) == Meaning(e)
  {
    var texts := Texts(e.lines);
    TextGathered("", e.crlf, e.space, e.lines);
    TextsFit(e.space, e.lines);
    if texts != [] {
      GlueExact("", texts);
      assert Prefixed("", JoinLines(texts)) == JoinLines(texts);
      JoinedNotEmpty(texts);
    }
  }

  lemma JoinedNotEmpty(texts: seq<string>)
    requires texts != [] && texts[0] != ""
    ensures JoinLines(texts) != ""
  {
  }

  // ----- its bytes -----

  lemma LineStarts(space: bool, line: Line)
    requires Fits(space, line)
    ensures Calm(Encode(LineText(space, line)))
  {
    var text := LineText(space, line);
    assert OneLine(text) && text != "" && text[0] != '\r' && text[0] != '\n';
    NoLineFeed(text);
    FirstByte(text);
  }

  lemma FirstByte(text: string)
    requires text != "" && text[0] != '\r' && text[0] != '\n'
    ensures StartsLine(Encode(text))
  {
    assert Encode(text) == EncodeChar(text[0]) + Encode(text[1..]);
  }

  lemma LineEndBytes()
    ensures Encode("\n") == [LF] && Encode("\r\n") == [CR, LF]
  {
    assert "\n"[1..] == "" && "\r\n"[1..] == "\n" && Encode("") == [];
  }

  lemma CalmWithCr(x: seq<Byte>)
    requires Calm(x)
    ensures Calm(x + [CR])
  {
    var y := x + [CR];
    forall i | 0 <= i < |y| && y[i] == LF ensures i + 1 < |y| && y[i + 1] != LF && y[i + 1] != CR {
      assert x[i] == LF;
    }
  }

  lemma {:induction false} EventIsCalm(crlf: bool, space: bool, ls: seq<Line>)
    requires ls != [] && AllFit(space, ls)
    ensures Calm(Encode(EventText(crlf, space, ls)))
    decreases ls
  {
    var first := LineText(space, ls[0]);
    assert Fits(space, ls[0]);
    LineStarts(space, ls[0]);
    if |ls| > 1 {
      LaterFit(space, ls);
      EventIsCalm(crlf, space, ls[1..]);
      LinesCalm(first, crlf, EventText(crlf, space, ls[1..]));
    }
  }

  lemma LinesCalm(first: string, crlf: bool, rest: string)
    requires Calm(Encode(first)) && Calm(Encode(rest))
    ensures Calm(Encode(first + (if crlf then "\r\n" else "\n") + rest))
  {
    var end := if crlf then "\r\n" else "\n";
    LineEndBytes();
    EncodeThree(first, end, rest);
    BytesCalm(Encode(first), crlf, Encode(rest));
  }

  lemma EncodeThree(a: string, b: string, c: string)
    ensures Encode(a + b + c) == Encode(a) + Encode(b) + Encode(c)
  {
    EncodeAppend(a + b, c);
    EncodeAppend(a, b);
  }

  lemma BytesCalm(a: seq<Byte>, crlf: bool, b: seq<Byte>)
    requires Calm(a) && Calm(b)
    ensures Calm(a + (if crlf then [CR, LF] else [LF]) + b)
  {
    if crlf {
      CalmWithCr(a);
      CalmJoin(a + [CR], b);
      assert a + [CR, LF] + b == (a + [CR]) + [LF] + b;
    } else {
      CalmJoin(a, b);
    }
  }

  // ----- a stream -----

  lemma {:induction false} StreamRead(events: seq<Event>)
    requires AllGood(events)
    ensures Items(StreamFor(events)) == Meanings(events)
  {
    if events == [] {
      NextBlockCuts([]);
    } else {
      var e := events[0];
      var text := EventText(e.crlf, e.space, e.lines);
      assert forall k :: 0 <= k < |events[1..]| ==> events[1..][k] == events[k + 1];
      EventIsCalm(e.crlf, e.space, e.lines);
      CalmBlockIsCut(Encode(text), SeparatorOf(e.crlf), StreamFor(events[1..]));
      DecodeEncoded(text);
      EventRead(e);
      StreamRead(events[1..]);
    }
  }

  /** In any mix of forms and any chunking, a stream of events decodes to exactly what its
      data lines say; other fields and comments add nothing. */
  lemma FormsRead(events: seq<Event>, chunks: seq<seq<Byte>>)
    requires AllGood(events) && Concat(chunks) == StreamFor(events)
    ensures PushAll([], chunks) == Meanings(events)
  {
    FromStart(chunks);
    StreamRead(events);
  }

  // ----- the end marker -----

  predicate Padding(s: string) {
    forall k :: 0 <= k < |s| ==> s[k] == ' ' || s[k] == '\t'
  }

  lemma {:induction false} LeftTrimmed(pad: string, s: string)
    requires Padding(pad) && s != "" && !IsSpace(s[0])
    ensures TrimLeft(pad + s) == s
    decreases pad
  {
    if pad == "" {
      assert pad + s == s;
    } else {
      assert (pad + s)[0] == pad[0] && (pad + s)[1..] == pad[1..] + s;
      assert forall k :: 0 <= k < |pad[1..]| ==> pad[1..][k] == pad[k + 1];
      LeftTrimmed(pad[1..], s);
    }
  }

  lemma {:induction false} RightTrimmed(s: string, pad: string)
    requires Padding(pad) && s != "" && !IsSpace(s[|s| - 1])
    ensures TrimRight(s + pad) == s
    decreases |pad|
  {
    if pad == "" {
      assert s + pad == s;
    } else {
      var init := pad[..|pad| - 1];
      assert (s + pad)[|s + pad| - 1] == pad[|pad| - 1] && (s + pad)[..|s + pad| - 1] == s + init;
      RightTrimmed(s, init);
    }
  }

  /** Blanks and tabs around the end marker do not matter. */
  lemma PaddedMarker(a: string, b: string)
    requires Padding(a) && Padding(b)
    ensures Trim(a + END_MARKER + b) == "[DONE]"
  {
    var marker := END_MARKER;
    assert !IsSpace(marker[0]) && !IsSpace(marker[|marker| - 1]);
    assert a + marker + b == a + (marker + b);
    LeftTrimmed(a, marker + b);
    RightTrimmed(marker, b);
  }

  // ----- the plainest form -----

  function Datums(texts: seq<string>): seq<Line> {
    seq(|texts|, k requires 0 <= k < |texts| => Datum(texts[k]))
  }

  /** Line feeds, spaces and nothing in between. */
  function Plain(p: string): Event {
    Event(false, true, Datums(Split(p)))
  }

  function PlainAll(ps: seq<string>): seq<Event> {
    seq(|ps|, k requires 0 <= k < |ps| => Plain(ps[k]))
  }

  lemma {:induction false} PlainTexts(texts: seq<string>)
    ensures Texts(Datums(texts)) == texts
    ensures texts != [] ==> EventText(false, true, Datums(texts)) == JoinLines(DataLines(texts))
  {
    if texts != [] {
      PlainTexts(texts[1..]);
      assert Datums(texts)[1..] == Datums(texts[1..]) && DataLines(texts)[1..] == DataLines(texts[1..]);
      assert [texts[0]] + texts[1..] == texts;
    }
  }

  lemma PlainMeans(p: string)
    requires p != "" && p[0] != '\n' && NoTrailingCr(Split(p))
    ensures Good(Plain(p)) && BytesFor(Plain(p)) == EventBytes(p)
    ensures Meaning(Plain(p)) == if Trim(p) == "[DONE]" then [Done] else [Data(p)]
  {
    var texts := Split(p);
    JoinSplit(p);
    PlainTexts(texts);
    FirstLine(p);
    forall k | 0 <= k < |Datums(texts)| ensures Fits(true, Datums(texts)[k]) {
      assert texts[k] in texts && OneLine(texts[k]) && StripCr(texts[k]) == texts[k];
    }
  }

  /** Payloads that survive, each written plainly, are a good stream of themselves. */
  lemma {:induction false} PlainStream(ps: seq<string>)
    requires forall k :: 0 <= k < |ps| ==> ps[k] != "" && ps[k][0] != '\n' && NoTrailingCr(Split(ps[k]))
    ensures AllGood(PlainAll(ps)) && StreamFor(PlainAll(ps)) == Stream(ps)
  {
    if ps != [] {
      PlainMeans(ps[0]);
      assert forall k :: 0 <= k < |ps[1..]| ==> ps[1..][k] == ps[k + 1];
      PlainStream(ps[1..]);
      PlainFirst(ps);
    }
  }

  lemma PlainFirst(ps: seq<string>)
    requires ps != [] && Good(Plain(ps[0])) && AllGood(PlainAll(ps[1..]))
    ensures AllGood(PlainAll(ps)) && StreamFor(PlainAll(ps)) == BytesFor(Plain(ps[0])) + StreamFor(PlainAll(ps[1..]))
  {
    var all, rest := PlainAll(ps), PlainAll(ps[1..]);
    assert all[1..] == rest;
    assert forall k :: 1 <= k < |all| ==> all[k] == rest[k - 1];
  }
}
