/** The Server-Sent Events decoder for upstream byte streams. */
module Sse {
  import opened Wrappers
  import opened Utf8

  datatype Item = Data(text: string) | Done

  // ----- separators -----

  const LF: Byte := 10
  const CR: Byte := 13

  /** Two line feeds at `i`, or CR LF CR LF. */
  predicate SepAt(buf: seq<Byte>, i: nat) {
    || (i + 1 < |buf| && buf[i] == LF && buf[i + 1] == LF)
    || (i + 3 < |buf| && buf[i] == CR && buf[i + 1] == LF && buf[i + 2] == CR && buf[i + 3] == LF)
  }

  function SepLen(buf: seq<Byte>, i: nat): nat
    requires SepAt(buf, i)
  {
    if buf[i] == LF then 2 else 4
  }

  /** `pos` is the leftmost separator. */
  ghost predicate Leftmost(buf: seq<Byte>, pos: nat) {
    SepAt(buf, pos) && forall i: nat :: i < pos ==> !SepAt(buf, i)
  }

  ghost predicate Unseparated(buf: seq<Byte>) {
    forall i: nat :: !SepAt(buf, i)
  }

  /** The first block of a buffer, cut off with its separator. */
  datatype Cut = Whole | Cut(block: seq<Byte>, after: seq<Byte>)

  function CutAt(buf: seq<Byte>, pos: nat): Cut
    requires SepAt(buf, pos)
  {
    Cut(buf[..pos], buf[pos + SepLen(buf, pos)..])
  }

  lemma LeftmostExists(buf: seq<Byte>, pos: nat)
    requires SepAt(buf, pos)
    ensures exists p: nat :: Leftmost(buf, p)
  {
    if !Leftmost(buf, pos) {
      var i: nat :| i < pos && SepAt(buf, i);
      LeftmostExists(buf, i);
    }
  }

  ghost function NextBlock(buf: seq<Byte>): (c: Cut)
    ensures c.Cut? ==> |c.after| < |buf|
  {
    if Unseparated(buf) then Whole else
      var sep: nat :| SepAt(buf, sep);
      LeftmostExists(buf, sep);
      var pos: nat :| Leftmost(buf, pos);
      CutAt(buf, pos)
  }

  lemma NextBlockCuts(buf: seq<Byte>)
    ensures NextBlock(buf).Whole? <==> Unseparated(buf)
    ensures NextBlock(buf).Cut? ==> exists pos: nat :: Leftmost(buf, pos) && NextBlock(buf) == CutAt(buf, pos)
  {
    if !Unseparated(buf) {
      var sep: nat :| SepAt(buf, sep);
      LeftmostExists(buf, sep);
    }
  }

  lemma LeftmostCuts(buf: seq<Byte>, pos: nat)
    requires Leftmost(buf, pos)
    ensures NextBlock(buf) == CutAt(buf, pos)
  {
    NextBlockCuts(buf);
    var p: nat :| Leftmost(buf, p) && NextBlock(buf) == CutAt(buf, p);
    assert !(p < pos) && !(pos < p);
  }

  method FindSeparator(buf: seq<Byte>) returns (r: Option<(nat, nat)>)
    ensures r.None? ==> Unseparated(buf)
    ensures r.Some? ==> Leftmost(buf, r.value.0) && r.value.1 == SepLen(buf, r.value.0)
  {
    var i := 0;
    while i + 1 < |buf|
      invariant forall j: nat :: j < i ==> !SepAt(buf, j)
    {
      if buf[i] == LF && buf[i + 1] == LF {
        return Some((i, 2));
      }
      if i + 3 < |buf| && buf[i] == CR && buf[i + 1] == LF && buf[i + 2] == CR && buf[i + 3] == LF {
        return Some((i, 4));
      }
      i := i + 1;
    }
    return None;
  }

  // ----- one event block -----

  function Split(s: string): (lines: seq<string>)
    ensures lines != []
  {
    if s == "" then [""]
    else if s[0] == '\n' then [""] + Split(s[1..])
    else var rest := Split(s[1..]); [[s[0]] + rest[0]] + rest[1..]
  }

  function StripCr(line: string): string {
    if line != "" && line[|line| - 1] == '\r' then line[..|line| - 1] else line
  }

  /** What a line adds to the event data, if it is a data line. */
  function DataLine(raw: string): Option<string> {
    var line := StripCr(raw);
    if "data:" <= line then
      var rest := line[5..];
      Some(if rest != "" && rest[0] == ' ' then rest[1..] else rest)
    else None
  }

  function Join(data: string, line: string): string {
    (if data == "" then "" else data + "\n") + line
  }

  function Gather(data: string, lines: seq<string>): string
    decreases lines
  {
    if lines == [] then data else
      Gather(if DataLine(lines[0]).Some? then Join(data, DataLine(lines[0]).value) else data, lines[1..])
  }

  predicate IsSpace(c: char) {
    || '\t' <= c <= '\r' || c == ' ' || c == '\U{85}' || c == '\U{A0}' || c == '\U{1680}'
    || '\U{2000}' <= c <= '\U{200A}' || c == '\U{2028}' || c == '\U{2029}' || c == '\U{202F}'
    || c == '\U{205F}' || c == '\U{3000}'
  }

  function TrimLeft(s: string): string {
    if s != "" && IsSpace(s[0]) then TrimLeft(s[1..]) else s
  }

  function TrimRight(s: string): string {
    if s != "" && IsSpace(s[|s| - 1]) then TrimRight(s[..|s| - 1]) else s
  }

  function Trim(s: string): string {
    TrimRight(TrimLeft(s))
  }

  function Classify(data: string): Option<Item> {
    if data == "" then None
    else if Trim(data) == "[DONE]" then Some(Done)
    else Some(Data(data))
  }

  function ParseBlock(block: string): Option<Item> {
    Classify(Gather("", Split(block)))
  }

  method ParseEventBlock(block: string) returns (item: Option<Item>)
    ensures item == ParseBlock(block)
  {
    var data := "";
    var lines := Split(block);
    for k := 0 to |lines|
      invariant Gather(data, lines[k..]) == Gather("", lines)
    {
      var line := StripCr(lines[k]);
      assert lines[k..][0] == lines[k] && lines[k..][1..] == lines[k + 1..];
      if "data:" <= line {
        var rest := line[5..];
        if rest != "" && rest[0] == ' ' { rest := rest[1..]; }
        if data != "" { data := data + "\n"; }
        data := data + rest;
      }
    }
    assert lines[|lines|..] == [];
    if data == "" { return None; }
    if Trim(data) == "[DONE]" { return Some(Done); }
    return Some(Data(data));
  }

  // ----- draining a buffer -----

  function Optional<T>(o: Option<T>): seq<T> {
    if o.Some? then [o.value] else []
  }

  /** Everything complete in the buffer, each block turned into what `f` makes of it. */
  ghost function Collect<T>(f: seq<Byte> -> seq<T>, buf: seq<Byte>): seq<T>
    decreases |buf|
  {
    match NextBlock(buf)
    case Whole => []
    case Cut(block, after) => f(block) + Collect(f, after)
  }

  /** What remains when everything complete is taken. */
  ghost function Rest(buf: seq<Byte>): seq<Byte>
    decreases |buf|
  {
    match NextBlock(buf)
    case Whole => buf
    case Cut(_, after) => Rest(after)
  }

  function ItemOf(block: seq<Byte>): seq<Item> {
    Optional(ParseBlock(DecodeLossy(block)))
  }

  ghost function Items(buf: seq<Byte>): seq<Item> {
    Collect(ItemOf, buf)
  }

  lemma CollectFirst<T>(f: seq<Byte> -> seq<T>, buf: seq<Byte>, pos: nat)
    requires Leftmost(buf, pos)
    ensures var after := buf[pos + SepLen(buf, pos)..];
      Collect(f, buf) == f(buf[..pos]) + Collect(f, after) && Rest(buf) == Rest(after)
  {
    LeftmostCuts(buf, pos);
  }

  class SseDecoder {
    var buf: seq<Byte>

    constructor ()
      ensures buf == []
    {
      buf := [];
    }

    /** Feed a chunk; get every event that is now complete. */
    method Push(chunk: seq<Byte>) returns (items: seq<Item>)
      modifies this
      ensures items == Items(old(buf) + chunk)
      ensures buf == Rest(old(buf) + chunk)
      ensures Unseparated(buf)
    {
      buf := buf + chunk;
      items := [];
      ghost var all := buf;
      var found := FindSeparator(buf);
      while found.Some?
        invariant found.None? ==> Unseparated(buf)
        invariant found.Some? ==> Leftmost(buf, found.value.0) && found.value.1 == SepLen(buf, found.value.0)
        invariant items + Items(buf) == Items(all) && Rest(buf) == Rest(all)
        decreases |buf|
      {
        var more := TakeBlock(found.value.0, found.value.1);
        assert items + (more + Items(buf)) == (items + more) + Items(buf);
        items := items + more;
        found := FindSeparator(buf);
      }
      NextBlockCuts(buf);
    }

    /** The loop's step: cut off the block before the separator and read it. */
    method TakeBlock(pos: nat, sepLen: nat) returns (items: seq<Item>)
      requires Leftmost(buf, pos) && sepLen == SepLen(buf, pos)
      modifies this
      ensures Items(old(buf)) == items + Items(buf)
      ensures Rest(old(buf)) == Rest(buf) && |buf| < |old(buf)|
    {
      CollectFirst(ItemOf, buf, pos);
      items := BlockItems(buf[..pos]);
      buf := buf[pos + sepLen..];
    }
  }

  method BlockItems(bytes: seq<Byte>) returns (items: seq<Item>)
    ensures items == ItemOf(bytes)
  {
    var block := DecodeLossy(bytes);
    var item := ParseEventBlock(block);
    items := [];
    if item.Some? {
      items := [item.value];
    }
  }

  // ----- chunking -----

  /** The leftmost separator stays leftmost, with its length, whatever follows. */
  lemma SeparatorSurvives(a: seq<Byte>, b: seq<Byte>, pos: nat)
    requires Leftmost(a, pos)
    ensures Leftmost(a + b, pos) && SepLen(a + b, pos) == SepLen(a, pos)
  {
    var ab := a + b;
    assert forall k :: 0 <= k < |a| ==> ab[k] == a[k];
    forall i: nat | i < pos ensures !SepAt(ab, i) {
      assert !SepAt(a, i);
    }
  }

  lemma CutSurvives(a: seq<Byte>, b: seq<Byte>)
    requires NextBlock(a).Cut?
    ensures NextBlock(a + b) == Cut(NextBlock(a).block, NextBlock(a).after + b)
  {
    NextBlockCuts(a);
    var pos: nat :| Leftmost(a, pos) && NextBlock(a) == CutAt(a, pos);
    SeparatorSurvives(a, b, pos);
    LeftmostCuts(a + b, pos);
    CutAtSurvives(a, b, pos);
  }

  lemma CutAtSurvives(a: seq<Byte>, b: seq<Byte>, pos: nat)
    requires SepAt(a, pos) && SepAt(a + b, pos) && SepLen(a + b, pos) == SepLen(a, pos)
    ensures CutAt(a + b, pos) == Cut(CutAt(a, pos).block, CutAt(a, pos).after + b)
  {
    var end := pos + SepLen(a, pos);
    assert (a + b)[end..] == a[end..] + b && (a + b)[..pos] == a[..pos];
  }

  lemma {:induction false} CollectTwice<T>(f: seq<Byte> -> seq<T>, a: seq<Byte>, b: seq<Byte>)
    ensures Collect(f, a + b) == Collect(f, a) + Collect(f, Rest(a) + b)
    ensures Rest(a + b) == Rest(Rest(a) + b)
    decreases |a|
  {
    match NextBlock(a)
    case Whole => assert [] + Collect(f, a + b) == Collect(f, a + b);
    case Cut(block, after) =>
      CutSurvives(a, b);
      CollectTwice(f, after, b);
      var x, y, z := f(block), Collect(f, after), Collect(f, Rest(after) + b);
      assert (x + y) + z == x + (y + z);
  }

  /** Pushing `a` and then `b` is pushing `a + b`. */
  lemma PushTwice(a: seq<Byte>, b: seq<Byte>)
    ensures Items(a + b) == Items(a) + Items(Rest(a) + b)
    ensures Rest(a + b) == Rest(Rest(a) + b)
  {
    CollectTwice(ItemOf, a, b);
  }

  function Concat(chunks: seq<seq<Byte>>): seq<Byte> {
    if chunks == [] then [] else chunks[0] + Concat(chunks[1..])
  }

  /** What successive pushes collect. */
  ghost function CollectAll<T>(f: seq<Byte> -> seq<T>, buf: seq<Byte>, chunks: seq<seq<Byte>>): seq<T>
    decreases chunks
  {
    if chunks == [] then [] else Collect(f, buf + chunks[0]) + CollectAll(f, Rest(buf + chunks[0]), chunks[1..])
  }

  /** Items of successive pushes. */
  ghost function PushAll(buf: seq<Byte>, chunks: seq<seq<Byte>>): seq<Item> {
    CollectAll(ItemOf, buf, chunks)
  }

  lemma {:induction false} RestUnseparated(buf: seq<Byte>)
    ensures Unseparated(Rest(buf))
    decreases |buf|
  {
    match NextBlock(buf)
    case Whole => NextBlockCuts(buf);
    case Cut(_, after) => RestUnseparated(after);
  }

  lemma NothingComplete(buf: seq<Byte>)
    requires Unseparated(buf)
    ensures Items(buf + []) == [] && Rest(buf) == buf
  {
    assert buf + [] == buf;
    NextBlockCuts(buf);
  }

  lemma {:induction false} CollectTogether<T>(f: seq<Byte> -> seq<T>, buf: seq<Byte>, chunks: seq<seq<Byte>>)
    requires Unseparated(buf)
    ensures CollectAll(f, buf, chunks) == Collect(f, buf + Concat(chunks))
    decreases chunks
  {
    if chunks == [] {
      assert buf + [] == buf;
      NextBlockCuts(buf);
    } else {
      var all, later := buf + chunks[0], Concat(chunks[1..]);
      RestUnseparated(all);
      CollectTwice(f, all, later);
      CollectTogether(f, Rest(all), chunks[1..]);
      assert CollectAll(f, buf, chunks) == Collect(f, all) + CollectAll(f, Rest(all), chunks[1..]);
      assert buf + Concat(chunks) == all + later;
    }
  }

  /** Chunking does not matter: any split of the same bytes gives the same items. */
  lemma ChunkingIndependent(buf: seq<Byte>, chunks: seq<seq<Byte>>)
    requires Unseparated(buf)
    ensures PushAll(buf, chunks) == Items(buf + Concat(chunks))
  {
    CollectTogether(ItemOf, buf, chunks);
  }

  lemma Regroup(a: seq<Byte>, b: seq<Byte>, c: seq<Byte>)
    ensures (a + b) + c == a + (b + c)
  {
  }

  lemma PushFirst(buf: seq<Byte>, chunk: seq<Byte>, later: seq<Byte>)
    ensures Items(buf + (chunk + later)) == Items(buf + chunk) + Items(Rest(buf + chunk) + later)
    ensures Unseparated(Rest(buf + chunk))
  {
    RestUnseparated(buf + chunk);
    PushTwice(buf + chunk, later);
    Regroup(buf, chunk, later);
  }

  // ----- UTF-8 safety -----

  function Itself(block: seq<Byte>): seq<seq<Byte>> {
    [block]
  }

  ghost function Blocks(buf: seq<Byte>): seq<seq<Byte>> {
    Collect(Itself, buf)
  }

  lemma CutIsValid(buf: seq<Byte>)
    requires Valid(buf) && NextBlock(buf).Cut?
    ensures Valid(NextBlock(buf).block) && Valid(NextBlock(buf).after)
  {
    NextBlockCuts(buf);
    var pos: nat :| Leftmost(buf, pos) && NextBlock(buf) == CutAt(buf, pos);
    SidesValid(buf, pos);
  }

  lemma SidesValid(buf: seq<Byte>, pos: nat)
    requires Valid(buf) && SepAt(buf, pos)
    ensures Valid(CutAt(buf, pos).block) && Valid(CutAt(buf, pos).after)
  {
    BeforeValid(buf, pos);
    AfterValid(buf, pos);
  }

  lemma BeforeValid(buf: seq<Byte>, pos: nat)
    requires Valid(buf) && SepAt(buf, pos)
    ensures Valid(CutAt(buf, pos).block)
  {
    assert buf[pos] < 0x80;
    CutValidAt(buf, pos);
  }

  lemma AfterValid(buf: seq<Byte>, pos: nat)
    requires Valid(buf) && SepAt(buf, pos)
    ensures Valid(CutAt(buf, pos).after)
  {
    var last := pos + SepLen(buf, pos) - 1;
    assert buf[last] == LF;
    CutValidAt(buf, last);
    assert CutAt(buf, pos).after == buf[last + 1..];
  }

  /** If the bytes are valid UTF-8, so is every block cut out of them and what
      remains, and the lossy decoding of each block loses nothing. */
  lemma {:induction false} BlocksAreValid(buf: seq<Byte>)
    requires Valid(buf)
    ensures forall block :: block in Blocks(buf) ==> Valid(block) && Encode(DecodeLossy(block)) == block
    ensures Valid(Rest(buf))
    decreases |buf|
  {
    match NextBlock(buf)
    case Whole =>
    case Cut(block, after) =>
      CutIsValid(buf);
      LossyIsExact(block);
      BlocksAreValid(after);
      assert Blocks(buf) == [block] + Blocks(after);
  }

  /** UTF-8 safety for every chunking: if the joined bytes are valid, every block cut
      out by successive pushes is valid and is decoded exactly, even when a chunk
      ends inside a multi-byte character. */
  lemma EveryChunkingIsSafe(chunks: seq<seq<Byte>>)
    requires Valid(Concat(chunks))
    ensures forall block :: block in CollectAll(Itself, [], chunks) ==>
      Valid(block) && Encode(DecodeLossy(block)) == block
  {
    assert Unseparated([]);
    CollectTogether(Itself, [], chunks);
    assert [] + Concat(chunks) == Concat(chunks);
    BlocksAreValid(Concat(chunks));
  }
}
