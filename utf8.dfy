/**
 * UTF-8 (RFC 3629): `String.getBytes(StandardCharsets.UTF_8)` and
 * `new String(bytes, StandardCharsets.UTF_8)`, the conversions Kafka header
 * values go through, with the JDK's replacement of ill-formed input by
 * U+FFFD. A Dafny char is a Unicode scalar value, where a Java String holds
 * UTF-16 code units: a four-byte sequence is one char here and a surrogate
 * pair in Java.
 */
module Utf8 {

  type Byte = b: int | 0 <= b < 256

  /** A byte of the form 10xxxxxx (section 3 of RFC 3629). */
  predicate IsContinuation(b: int) {
    0x80 <= b < 0xC0
  }

  /** The one to four bytes of one scalar value (the table in section 3 of RFC 3629). */
  function EncodeChar(c: char): (bs: seq<Byte>)
    ensures 1 <= |bs| <= 4
    ensures |bs| == 1 <==> c as int < 0x80
    ensures forall i :: 1 <= i < |bs| ==> IsContinuation(bs[i])
  {
    var n := c as int;
    if n < 0x80 then [n]
    else if n < 0x800 then [0xC0 + n / 64, 0x80 + n % 64]
    else if n < 0x1_0000 then [0xE0 + n / 4096, 0x80 + (n / 64) % 64, 0x80 + n % 64]
    else [0xF0 + n / 262144, 0x80 + (n / 4096) % 64, 0x80 + (n / 64) % 64, 0x80 + n % 64]
  }

  function Encode(s: string): (bs: seq<Byte>)
    ensures |bs| >= |s|
  {
    if s == [] then [] else EncodeChar(s[0]) + Encode(s[1..])
  }

  /** U+FFFD, which the decoder substitutes for a malformed sequence. */
  const Replacement: char := '\U{FFFD}'

  /** A three-byte lead and its second byte that cannot start a well-formed sequence. */
  predicate Malformed3Prefix(b0: Byte, b1: Byte) {
    (b0 == 0xE0 && 0x80 <= b1 < 0xA0) || !IsContinuation(b1)
  }

  /** A four-byte lead up to U+10FFFF and its second byte that cannot start a well-formed sequence. */
  predicate Malformed4Prefix(b0: Byte, b1: Byte) {
    (b0 == 0xF0 && !(0x90 <= b1 < 0xC0)) || (b0 == 0xF4 && !(0x80 <= b1 < 0x90)) || !IsContinuation(b1)
  }

  /** How many bytes of a malformed four-byte sequence are skipped: its longest well-formed prefix, at least one. */
  function Malformed4Length(b0: Byte, b1: Byte, b2: Byte): (k: nat)
    ensures 1 <= k <= 3
    ensures k >= 2 ==> IsContinuation(b1)
    ensures k == 3 ==> IsContinuation(b2)
  {
    if b0 > 0xF4 || Malformed4Prefix(b0, b1) then 1
    else if !IsContinuation(b2) then 2
    else 3
  }

  /**
   * The first char of `new String(bytes, UTF_8)` and how many bytes it
   * takes, following the JDK's decoder: a well-formed sequence gives its
   * scalar value; an ill-formed one gives U+FFFD and skips its longest
   * prefix that could still begin a well-formed sequence (so a following
   * ASCII byte is never swallowed); a three-byte sequence that encodes a
   * surrogate gives one U+FFFD for all three bytes; a sequence cut short by
   * the end of the input gives one U+FFFD for the rest of the input.
   */
  function DecodeFirst(bs: seq<Byte>): (r: (char, nat))
    requires bs != []
    ensures 1 <= r.1 <= |bs|
    ensures bs[0] < 0x80 ==> r == (bs[0] as char, 1)
    ensures forall i :: 1 <= i < r.1 ==> IsContinuation(bs[i])
  {
    var b0: int := bs[0];
    var b1: int := if |bs| > 1 then bs[1] else 0;
    var b2: int := if |bs| > 2 then bs[2] else 0;
    var b3: int := if |bs| > 3 then bs[3] else 0;
    if b0 < 0x80 then
      (b0 as char, 1)
    else if 0xC2 <= b0 < 0xE0 then
      if |bs| >= 2 && IsContinuation(b1) then (((b0 - 0xC0) * 64 + (b1 - 0x80)) as char, 2)
      else (Replacement, 1)
    else if 0xE0 <= b0 < 0xF0 then
      if |bs| >= 3 then
        if Malformed3Prefix(b0, b1) then (Replacement, 1)
        else if !IsContinuation(b2) then (Replacement, 2)
        else
          var n := (b0 - 0xE0) * 4096 + (b1 - 0x80) * 64 + (b2 - 0x80);
          if 0xD800 <= n < 0xE000 then (Replacement, 3) else (n as char, 3)
      else if |bs| == 2 && Malformed3Prefix(b0, b1) then (Replacement, 1)
      else (Replacement, |bs|)
    else if 0xF0 <= b0 < 0xF8 then
      if |bs| >= 4 then
        var n := (b0 - 0xF0) * 262144 + (b1 - 0x80) * 4096 + (b2 - 0x80) * 64 + (b3 - 0x80);
        if !IsContinuation(b1) || !IsContinuation(b2) || !IsContinuation(b3) || !(0x1_0000 <= n < 0x11_0000) then
          (Replacement, Malformed4Length(b0, b1, b2))
        else (n as char, 4)
      else if b0 > 0xF4 || (|bs| >= 2 && Malformed4Prefix(b0, b1)) then (Replacement, 1)
      else if |bs| == 3 && !IsContinuation(b2) then (Replacement, 2)
      else (Replacement, |bs|)
    else
      (Replacement, 1)
  }

  function Decode(bs: seq<Byte>): (s: string)
    ensures |s| <= |bs|
    decreases |bs|
  {
    if bs == [] then [] else
      var (c, k) := DecodeFirst(bs);
      [c] + Decode(bs[k..])
  }

  lemma SplitBase64(n: nat)
    ensures n == (n / 64) * 64 + n % 64
    ensures n / 4096 == (n / 64) / 64
    ensures n / 262144 == (n / 4096) / 64
  {
  }

  /** Decoding the encoding of one char, followed by anything, gives back that char. */
  lemma DecodeFirstOfEncodeChar(c: char, rest: seq<Byte>)
    ensures DecodeFirst(EncodeChar(c) + rest) == (c, |EncodeChar(c)|)
  {
    var n := c as int;
    if n < 0x80 {
    } else if n < 0x800 {
      DecodeTwoBytes(c, rest);
    } else if n < 0x1_0000 {
      DecodeThreeBytes(c, rest);
    } else {
      DecodeFourBytes(c, rest);
    }
  }

  lemma DecodeTwoBytes(c: char, rest: seq<Byte>)
    requires 0x80 <= c as int < 0x800
    ensures DecodeFirst(EncodeChar(c) + rest) == (c, 2)
  {
    var n := c as int;
    var bs := EncodeChar(c) + rest;
    SplitBase64(n);
    var b0: int := bs[0];
    var b1: int := bs[1];
    assert b0 == 0xC0 + n / 64 && b1 == 0x80 + n % 64;
    assert (b0 - 0xC0) * 64 + (b1 - 0x80) == n;
  }

  lemma DecodeThreeBytes(c: char, rest: seq<Byte>)
    requires 0x800 <= c as int < 0x1_0000
    ensures DecodeFirst(EncodeChar(c) + rest) == (c, 3)
  {
    var n := c as int;
    var bs := EncodeChar(c) + rest;
    SplitBase64(n);
    SplitBase64(n / 64);
    var b0: int := bs[0];
    var b1: int := bs[1];
    var b2: int := bs[2];
    assert b0 == 0xE0 + n / 4096 && b1 == 0x80 + (n / 64) % 64 && b2 == 0x80 + n % 64;
    assert (b0 - 0xE0) * 4096 + (b1 - 0x80) * 64 + (b2 - 0x80) == n;
  }

  lemma DecodeFourBytes(c: char, rest: seq<Byte>)
    requires 0x1_0000 <= c as int
    ensures DecodeFirst(EncodeChar(c) + rest) == (c, 4)
  {
    var n := c as int;
    var bs := EncodeChar(c) + rest;
    SplitBase64(n);
    SplitBase64(n / 64);
    SplitBase64(n / 4096);
    var b0: int := bs[0];
    var b1: int := bs[1];
    var b2: int := bs[2];
    var b3: int := bs[3];
    assert b0 == 0xF0 + n / 262144 && b1 == 0x80 + (n / 4096) % 64;
    assert b2 == 0x80 + (n / 64) % 64 && b3 == 0x80 + n % 64;
    assert (b0 - 0xF0) * 262144 + (b1 - 0x80) * 4096 + (b2 - 0x80) * 64 + (b3 - 0x80) == n;
  }

  /** Round trip (RFC 3629): every string survives UTF-8 encoding and decoding. */
  lemma {:induction false} DecodeEncode(s: string)
    ensures Decode(Encode(s)) == s
  {
    if s != [] {
      var head := EncodeChar(s[0]);
      var bs := Encode(s);
      assert bs == head + Encode(s[1..]);
      DecodeFirstOfEncodeChar(s[0], Encode(s[1..]));
      assert bs[|head|..] == Encode(s[1..]);
      DecodeEncode(s[1..]);
    }
  }

  /** An ASCII byte ends whatever sequence precedes it: the first char decoded does not depend on it or on what follows. */
  lemma DecodeFirstStopsAtAscii(bs: seq<Byte>, t: seq<Byte>)
    requires bs != [] && t != [] && t[0] < 0x80
    ensures DecodeFirst(bs + t) == DecodeFirst(bs)
  {
    var u := bs + t;
    assert u[0] == bs[0];
    assert |bs| > 1 ==> u[1] == bs[1];
    assert |bs| > 2 ==> u[2] == bs[2];
    assert |bs| > 3 ==> u[3] == bs[3];
    assert u[|bs|] == t[0];
  }

  /** Malformed input never swallows an ASCII byte: decoding splits there. */
  lemma {:induction false} DecodeSplitsAtAscii(bs: seq<Byte>, t: seq<Byte>)
    requires t != [] && t[0] < 0x80
    ensures Decode(bs + t) == Decode(bs) + Decode(t)
    decreases |bs|
  {
    if bs == [] {
      assert bs + t == t;
    } else {
      DecodeFirstStopsAtAscii(bs, t);
      var k := DecodeFirst(bs).1;
      assert (bs + t)[k..] == bs[k..] + t;
      DecodeSplitsAtAscii(bs[k..], t);
    }
  }

  /** The three kinds of ill-formed input: a sequence cut short by ASCII, an encoded surrogate, a truncated tail. */
  lemma MalformedExamples()
    ensures Decode([0xE2, 0x82, 0x41]) == [Replacement, 'A']
    ensures Decode([0xED, 0xA0, 0x80]) == [Replacement]
    ensures Decode([0xE2, 0x82]) == [Replacement]
  {
  }

  /** A char other than U+FFFD is decoded only from its own, shortest, encoding. */
  lemma DecodeFirstIsEncoding(bs: seq<Byte>)
    requires bs != []
    ensures DecodeFirst(bs).0 == Replacement || bs[..DecodeFirst(bs).1] == EncodeChar(DecodeFirst(bs).0)
  {
    var (c, k) := DecodeFirst(bs);
    if c != Replacement && k > 1 {
      if k == 2 {
        assert bs[..2] == [bs[0], bs[1]];
        EncodeOfTwo(bs[0], bs[1]);
      } else if k == 3 {
        assert bs[..3] == [bs[0], bs[1], bs[2]];
        EncodeOfThree(bs[0], bs[1], bs[2]);
      } else {
        assert bs[..4] == [bs[0], bs[1], bs[2], bs[3]];
        EncodeOfFour(bs[0], bs[1], bs[2], bs[3]);
      }
    }
  }

  lemma EncodeOfTwo(b0: Byte, b1: Byte)
    requires 0xC2 <= b0 < 0xE0 && IsContinuation(b1)
    ensures EncodeChar(((b0 - 0xC0) * 64 + (b1 - 0x80)) as char) == [b0, b1]
  {
    var n := (b0 - 0xC0) * 64 + (b1 - 0x80);
    assert n / 64 == b0 - 0xC0 && n % 64 == b1 - 0x80;
  }

  lemma EncodeOfThree(b0: Byte, b1: Byte, b2: Byte)
    requires 0xE0 <= b0 < 0xF0 && !Malformed3Prefix(b0, b1) && IsContinuation(b2)
    requires !(0xD800 <= (b0 - 0xE0) * 4096 + (b1 - 0x80) * 64 + (b2 - 0x80) < 0xE000)
    ensures EncodeChar(((b0 - 0xE0) * 4096 + (b1 - 0x80) * 64 + (b2 - 0x80)) as char) == [b0, b1, b2]
  {
    var m := (b0 - 0xE0) * 64 + (b1 - 0x80);
    var n := m * 64 + (b2 - 0x80);
    assert n / 64 == m && n % 64 == b2 - 0x80;
    assert m / 64 == b0 - 0xE0 && m % 64 == b1 - 0x80;
    SplitBase64(n);
  }

  lemma EncodeOfFour(b0: Byte, b1: Byte, b2: Byte, b3: Byte)
    requires 0xF0 <= b0 < 0xF8 && IsContinuation(b1) && IsContinuation(b2) && IsContinuation(b3)
    requires 0x1_0000 <= (b0 - 0xF0) * 262144 + (b1 - 0x80) * 4096 + (b2 - 0x80) * 64 + (b3 - 0x80) < 0x11_0000
    ensures EncodeChar(((b0 - 0xF0) * 262144 + (b1 - 0x80) * 4096 + (b2 - 0x80) * 64 + (b3 - 0x80)) as char) == [b0, b1, b2, b3]
  {
    var l := (b0 - 0xF0) * 64 + (b1 - 0x80);
    var m := l * 64 + (b2 - 0x80);
    var n := m * 64 + (b3 - 0x80);
    assert n / 64 == m && n % 64 == b3 - 0x80;
    assert m / 64 == l && m % 64 == b2 - 0x80;
    assert l / 64 == b0 - 0xF0 && l % 64 == b1 - 0x80;
    SplitBase64(n);
  }

  /** An ASCII string encodes to one byte per char, each the char's code. */
  lemma {:induction false} EncodeAscii(s: string)
    requires forall i :: 0 <= i < |s| ==> s[i] as int < 0x80
    ensures |Encode(s)| == |s|
    ensures forall i :: 0 <= i < |s| ==> Encode(s)[i] == s[i] as int
  {
    if s != [] {
      EncodeAscii(s[1..]);
      assert Encode(s) == [s[0] as int] + Encode(s[1..]);
    }
  }
}
