/** UTF-8 as the decoder needs it: encoding, validity, and the lossy decoding that
    puts U+FFFD for each maximal ill-formed piece (section 4 of RFC 3629). */
module Utf8 {
  type Byte = n: nat | n < 256

  const REPLACEMENT: char := '\U{FFFD}'

  predicate Tail(b: Byte) {
    0x80 <= b < 0xC0
  }

  /** The second byte fits the lead byte of a three- or four-byte scalar. */
  predicate Second(lead: Byte, b: Byte) {
    if lead == 0xE0 then 0xA0 <= b < 0xC0
    else if lead == 0xED then 0x80 <= b < 0xA0
    else if lead == 0xF0 then 0x90 <= b < 0xC0
    else if lead == 0xF4 then 0x80 <= b < 0x90
    else Tail(b)
  }

  /** Length of the well-formed scalar at the front of `s`; 0 if there is none. */
  function FrontLen(s: seq<Byte>): (n: nat)
    requires s != []
    ensures n <= |s|
    ensures s[0] < 0x80 <==> n == 1
    ensures n > 1 ==> s[0] >= 0xC2 && forall k :: 1 <= k < n ==> Tail(s[k])
  {
    if s[0] < 0x80 then 1
    else if 0xC2 <= s[0] < 0xE0 then
      if |s| >= 2 && Tail(s[1]) then 2 else 0
    else if 0xE0 <= s[0] < 0xF0 then
      if |s| >= 3 && Second(s[0], s[1]) && Tail(s[2]) then 3 else 0
    else if 0xF0 <= s[0] < 0xF5 then
      if |s| >= 4 && Second(s[0], s[1]) && Tail(s[2]) && Tail(s[3]) then 4 else 0
    else 0
  }

  /** Length of the ill-formed piece at the front, replaced as a whole. */
  function BadLen(s: seq<Byte>): (n: nat)
    requires s != []
    ensures 1 <= n <= |s|
  {
    if 0xE0 <= s[0] < 0xF5 && |s| >= 2 && Second(s[0], s[1]) then
      if s[0] >= 0xF0 && |s| >= 3 && Tail(s[2]) then 3 else 2
    else 1
  }

  function Code2(b0: int, b1: int): int { (b0 - 0xC0) * 0x40 + (b1 - 0x80) }

  function Code3(b0: int, b1: int, b2: int): int { ((b0 - 0xE0) * 0x40 + (b1 - 0x80)) * 0x40 + (b2 - 0x80) }

  function Code4(b0: int, b1: int, b2: int, b3: int): int {
    (((b0 - 0xF0) * 0x40 + (b1 - 0x80)) * 0x40 + (b2 - 0x80)) * 0x40 + (b3 - 0x80)
  }

  predicate IsScalar(c: int) {
    0 <= c < 0xD800 || 0xE000 <= c < 0x11_0000
  }

  /** Code point of the well-formed scalar at the front. */
  function FrontCode(s: seq<Byte>): (c: int)
    requires s != [] && FrontLen(s) > 0
    ensures IsScalar(c)
  {
    var n := FrontLen(s);
    if n == 1 then s[0]
    else if n == 2 then Code2(s[0], s[1])
    else if n == 3 then Code3(s[0], s[1], s[2])
    else Code4(s[0], s[1], s[2], s[3])
  }

  function DecodeLossy(s: seq<Byte>): string {
    if s == [] then "" else if FrontLen(s) > 0 then
      [FrontCode(s) as char] + DecodeLossy(s[FrontLen(s)..])
    else [REPLACEMENT] + DecodeLossy(s[BadLen(s)..])
  }

  predicate Valid(s: seq<Byte>) {
    s == [] || (FrontLen(s) > 0 && Valid(s[FrontLen(s)..]))
  }

  function EncodeCode(c: int): seq<Byte>
    requires IsScalar(c)
  {
    var a := c / 0x40;
    var b := a / 0x40;
    if c < 0x80 then [c]
    else if c < 0x800 then [0xC0 + a, 0x80 + c % 0x40]
    else if c < 0x1_0000 then [0xE0 + b, 0x80 + a % 0x40, 0x80 + c % 0x40]
    else [0xF0 + b / 0x40, 0x80 + b % 0x40, 0x80 + a % 0x40, 0x80 + c % 0x40]
  }

  function EncodeChar(ch: char): seq<Byte> {
    EncodeCode(ch as int)
  }

  function Encode(s: string): seq<Byte> {
    if s == "" then [] else EncodeChar(s[0]) + Encode(s[1..])
  }

  lemma {:induction false} EncodeAppend(a: string, b: string)
    ensures Encode(a + b) == Encode(a) + Encode(b)
  {
    if a == "" {
      assert a + b == b;
    } else {
      assert (a + b)[0] == a[0] && (a + b)[1..] == a[1..] + b;
      EncodeAppend(a[1..], b);
    }
  }

  lemma FrontOfShort(c: int, rest: seq<Byte>)
    requires IsScalar(c) && c < 0x800
    ensures var s := EncodeCode(c) + rest;
      FrontLen(s) == |EncodeCode(c)| && FrontCode(s) == c
  {
  }

  lemma FrontOfThree(c: int, rest: seq<Byte>)
    requires IsScalar(c) && 0x800 <= c < 0x1_0000
    ensures var s := EncodeCode(c) + rest;
      FrontLen(s) == |EncodeCode(c)| && FrontCode(s) == c
  {
    var a := c / 0x40;
    var b := a / 0x40;
    var s := EncodeCode(c) + rest;
    assert s[0] == 0xE0 + b && s[1] == 0x80 + a % 0x40 && s[2] == 0x80 + c % 0x40;
    assert a == b * 0x40 + a % 0x40 && c == a * 0x40 + c % 0x40;
  }

  lemma FrontOfFour(c: int, rest: seq<Byte>)
    requires IsScalar(c) && 0x1_0000 <= c
    ensures var s := EncodeCode(c) + rest;
      FrontLen(s) == |EncodeCode(c)| && FrontCode(s) == c
  {
    var a := c / 0x40;
    var b := a / 0x40;
    var d := b / 0x40;
    var s := EncodeCode(c) + rest;
    assert s[0] == 0xF0 + d && s[1] == 0x80 + b % 0x40 && s[2] == 0x80 + a % 0x40 && s[3] == 0x80 + c % 0x40;
    assert b == d * 0x40 + b % 0x40 && a == b * 0x40 + a % 0x40 && c == a * 0x40 + c % 0x40;
  }

  lemma FrontOfEncoded(ch: char, rest: seq<Byte>)
    ensures var s := EncodeChar(ch) + rest;
      && FrontLen(s) == |EncodeChar(ch)| && FrontCode(s) == ch as int && s[FrontLen(s)..] == rest
  {
    var c := ch as int;
    if c < 0x800 { FrontOfShort(c, rest); }
    else if c < 0x1_0000 { FrontOfThree(c, rest); }
    else { FrontOfFour(c, rest); }
    assert (EncodeCode(c) + rest)[|EncodeCode(c)|..] == rest;
  }

  /** Decoding undoes encoding, on every string. */
  lemma {:induction false} DecodeEncoded(s: string)
    ensures Valid(Encode(s)) && DecodeLossy(Encode(s)) == s
  {
    if s != "" {
      FrontOfEncoded(s[0], Encode(s[1..]));
      DecodeEncoded(s[1..]);
    }
  }

  lemma Sextet(q: int, r: int)
    requires 0 <= r < 0x40
    ensures (q * 0x40 + r) / 0x40 == q && (q * 0x40 + r) % 0x40 == r
  {
  }

  lemma ThreeBytes(q: int, r1: int, r2: int)
    requires 0 <= r1 < 0x40 && 0 <= r2 < 0x40
    requires var c := (q * 0x40 + r1) * 0x40 + r2; IsScalar(c) && 0x800 <= c < 0x1_0000
    ensures EncodeCode((q * 0x40 + r1) * 0x40 + r2) == [0xE0 + q, 0x80 + r1, 0x80 + r2]
  {
    Sextet(q * 0x40 + r1, r2);
    Sextet(q, r1);
  }

  lemma FourBytes(q: int, r1: int, r2: int, r3: int)
    requires 0 <= r1 < 0x40 && 0 <= r2 < 0x40 && 0 <= r3 < 0x40
    requires var c := ((q * 0x40 + r1) * 0x40 + r2) * 0x40 + r3; IsScalar(c) && 0x1_0000 <= c
    ensures EncodeCode(((q * 0x40 + r1) * 0x40 + r2) * 0x40 + r3) == [0xF0 + q, 0x80 + r1, 0x80 + r2, 0x80 + r3]
  {
    Sextet((q * 0x40 + r1) * 0x40 + r2, r3);
    Sextet(q * 0x40 + r1, r2);
    Sextet(q, r1);
  }

  lemma EncodeCode3(b0: int, b1: int, b2: int)
    requires 0xE0 <= b0 < 0xF0 && 0x80 <= b1 < 0xC0 && 0x80 <= b2 < 0xC0
    requires var c := Code3(b0, b1, b2); IsScalar(c) && 0x800 <= c < 0x1_0000
    ensures EncodeCode(Code3(b0, b1, b2)) == [b0, b1, b2]
  {
    ThreeBytes(b0 - 0xE0, b1 - 0x80, b2 - 0x80);
  }

  lemma EncodeCode4(b0: int, b1: int, b2: int, b3: int)
    requires 0xF0 <= b0 < 0xF5 && 0x80 <= b1 < 0xC0 && 0x80 <= b2 < 0xC0 && 0x80 <= b3 < 0xC0
    requires var c := Code4(b0, b1, b2, b3); IsScalar(c) && 0x1_0000 <= c
    ensures EncodeCode(Code4(b0, b1, b2, b3)) == [b0, b1, b2, b3]
  {
    FourBytes(b0 - 0xF0, b1 - 0x80, b2 - 0x80, b3 - 0x80);
  }

  lemma EncodeFront(s: seq<Byte>)
    requires s != [] && FrontLen(s) > 0
    ensures EncodeCode(FrontCode(s)) == s[..FrontLen(s)]
  {
    if FrontLen(s) == 3 { EncodeCode3(s[0], s[1], s[2]); }
    if FrontLen(s) == 4 { EncodeCode4(s[0], s[1], s[2], s[3]); }
  }

  lemma FrontRestored(s: seq<Byte>, code: int)
    requires s != [] && FrontLen(s) > 0 && code == FrontCode(s)
    ensures EncodeCode(code) + s[FrontLen(s)..] == s
  {
    EncodeFront(s);
    assert s == s[..FrontLen(s)] + s[FrontLen(s)..];
  }

  lemma EncodeCons(ch: char, tail: string)
    ensures Encode([ch] + tail) == EncodeCode(ch as int) + Encode(tail)
  {
    assert ([ch] + tail)[1..] == tail;
  }

  /** Lossy decoding loses nothing of valid bytes. */
  lemma {:induction false} LossyIsExact(s: seq<Byte>)
    requires Valid(s)
    ensures Encode(DecodeLossy(s)) == s
  {
    if s != [] {
      var n, code := FrontLen(s), FrontCode(s);
      var tail := DecodeLossy(s[n..]);
      LossyIsExact(s[n..]);
      EncodeCons(code as char, tail);
      FrontRestored(s, code);
    }
  }

  /** The first `n` bytes could begin a well-formed scalar that is longer. */
  ghost predicate Begins(s: seq<Byte>, n: nat)
    requires 0 < n <= |s|
  {
    exists more: seq<Byte> :: FrontLen(s[..n] + more) > n
  }

  lemma TailsFit(s: seq<Byte>, n: nat, more: seq<Byte>)
    requires 0 < n <= |s| && FrontLen(s[..n] + more) > n
    ensures n <= 3 && 0xC2 <= s[0] < 0xF5 && (n >= 2 ==> s[0] >= 0xE0 && Second(s[0], s[1]))
    ensures n == 3 ==> s[0] >= 0xF0 && Tail(s[2])
  {
    var t := s[..n] + more;
    assert t[0] == s[0] && (n >= 2 ==> t[1] == s[1]) && (n >= 3 ==> t[2] == s[2]);
  }

  lemma BadBegins(s: seq<Byte>)
    requires s != [] && FrontLen(s) == 0 && BadLen(s) > 1
    ensures Begins(s, BadLen(s))
  {
    var n := BadLen(s);
    var more: seq<Byte> := if n == 2 && s[0] >= 0xF0 then [0x80, 0x80] else [0x80];
    var t := s[..n] + more;
    assert t[0] == s[0] && t[1] == s[1] && (n == 3 ==> t[2] == s[2]);
    assert FrontLen(s[..n] + more) > n;
  }

  /** Bytes that begin no scalar: one U+FFFD stands for the longest piece that could still
      have become one, or for a single byte, and decoding goes on behind it. */
  lemma BadIsMaximal(s: seq<Byte>)
    requires s != [] && FrontLen(s) == 0
    ensures var n := BadLen(s);
      && (n == 1 || Begins(s, n)) && (forall m :: n < m <= |s| ==> !Begins(s, m))
      && DecodeLossy(s) == "\U{FFFD}" + DecodeLossy(s[n..])
  {
    if BadLen(s) > 1 { BadBegins(s); }
    forall m | BadLen(s) < m <= |s| ensures !Begins(s, m) {
      if Begins(s, m) {
        var more: seq<Byte> :| FrontLen(s[..m] + more) > m;
        TailsFit(s, m, more);
      }
    }
  }

  lemma FrontOfPrefix(a: seq<Byte>, x: Byte, b: seq<Byte>)
    requires a != [] && x < 0x80 && FrontLen(a + [x] + b) > 0
    ensures FrontLen(a) == FrontLen(a + [x] + b) <= |a|
  {
    var all := a + [x] + b;
    var n := FrontLen(all);
    assert all[|a|] == x;
    assert forall k :: 0 <= k < |a| ==> all[k] == a[k];
    assert !Tail(all[|a|]);
  }

  /** Valid bytes stay valid on both sides when cut at an ASCII byte. */
  lemma {:induction false} CutAtAscii(a: seq<Byte>, x: Byte, b: seq<Byte>)
    requires x < 0x80 && Valid(a + [x] + b)
    ensures Valid(a) && Valid(b)
    decreases a
  {
    var all := a + [x] + b;
    if a == [] {
      assert all[0] == x && all[1..] == b;
    } else {
      FrontOfPrefix(a, x, b);
      var n := FrontLen(a);
      assert all[n..] == a[n..] + [x] + b;
      CutAtAscii(a[n..], x, b);
    }
  }

  lemma CutValidAt(s: seq<Byte>, k: nat)
    requires k < |s| && s[k] < 0x80 && Valid(s)
    ensures Valid(s[..k]) && Valid(s[k + 1..])
  {
    assert s == s[..k] + [s[k]] + s[k + 1..];
    CutAtAscii(s[..k], s[k], s[k + 1..]);
  }
}
