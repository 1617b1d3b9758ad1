/**
 * UTF-8 encoding of strings, as performed by `String.data(using: .utf8)` when the
 * multipart serialiser appends text to its byte buffer. A decoder is given as the
 * encoder's inverse, so that the encoding is shown to lose nothing.
 */
module Utf8 {
  import opened Wrappers

  type Byte = b: int | 0 <= b < 256

  /** The bytes of one Unicode scalar value. */
  function EncodeScalar(c: char): (r: seq<Byte>)
    ensures 1 <= |r| <= 4
    ensures |r| == 1 <==> (c as int) < 0x80
  {
    var n := c as int;
    if n < 0x80 then [n]
    else if n < 0x800 then [0xC0 + n / 64, 0x80 + n % 64]
    else if n < 0x10000 then [0xE0 + n / 4096, 0x80 + (n / 64) % 64, 0x80 + n % 64]
    else [0xF0 + n / 262144, 0x80 + (n / 4096) % 64, 0x80 + (n / 64) % 64, 0x80 + n % 64]
  }

  /** The UTF-8 bytes of a string. */
  function Encode(s: string): seq<Byte>
  {
    if s == [] then [] else EncodeScalar(s[0]) + Encode(s[1..])
  }

  /** Each character takes one to four bytes. */
  lemma {:induction false} EncodeLength(s: string)
    ensures |s| <= |Encode(s)| <= 4 * |s|
  {
    if s != [] {
      EncodeLength(s[1..]);
    }
  }

  lemma {:induction false} EncodeAppend(a: string, b: string)
    ensures Encode(a + b) == Encode(a) + Encode(b)
  {
    if a == [] {
      assert a + b == b;
    } else {
      assert (a + b)[0] == a[0];
      assert (a + b)[1..] == a[1..] + b;
      assert Encode(a + b) == EncodeScalar(a[0]) + Encode(a[1..] + b);
      EncodeAppend(a[1..], b);
    }
  }

  /** A string made only of ASCII characters (as the boundaries and header names are). */
  predicate IsAscii(s: string) {
    forall i :: 0 <= i < |s| ==> (s[i] as int) < 0x80
  }

  lemma {:induction false} EncodeAscii(s: string)
    requires IsAscii(s)
    ensures |Encode(s)| == |s|
    ensures forall i :: 0 <= i < |s| ==> Encode(s)[i] == s[i] as int
  {
    if s != [] {
      EncodeAscii(s[1..]);
    }
  }

  predicate IsContinuation(b: Byte) { 0x80 <= b < 0xC0 }

  /** The scalar value `v` as a character, when it is one. */
  function ToScalar(v: int): Option<char> {
    if 0 <= v < 0xD800 || 0xE000 <= v < 0x11_0000 then Some(v as char) else None
  }

  /** Decodes the character that `bs` begins with, with the number of bytes it takes. */
  function DecodeScalar(bs: seq<Byte>): (r: Option<(char, nat)>)
    ensures r.Some? ==> 1 <= r.value.1 <= |bs|
  {
    if |bs| == 0 then None
    else if bs[0] < 0x80 then Some((bs[0] as char, 1))
    else if bs[0] < 0xC0 then None
    else if bs[0] < 0xE0 then
      if |bs| < 2 || !IsContinuation(bs[1]) then None
      else match ToScalar((bs[0] as int - 0xC0) * 64 + (bs[1] as int - 0x80))
        case Some(c) => Some((c, 2))
        case None => None
    else if bs[0] < 0xF0 then
      if |bs| < 3 || !IsContinuation(bs[1]) || !IsContinuation(bs[2]) then None
      else match ToScalar((bs[0] as int - 0xE0) * 4096 + (bs[1] as int - 0x80) * 64 + (bs[2] as int - 0x80))
        case Some(c) => Some((c, 3))
        case None => None
    else if bs[0] < 0xF8 then
      if |bs| < 4 || !IsContinuation(bs[1]) || !IsContinuation(bs[2]) || !IsContinuation(bs[3]) then None
      else match ToScalar((bs[0] as int - 0xF0) * 262144 + (bs[1] as int - 0x80) * 4096 + (bs[2] as int - 0x80) * 64 + (bs[3] as int - 0x80))
        case Some(c) => Some((c, 4))
        case None => None
    else None
  }

  /** Decodes a whole byte sequence, or None when it is not valid UTF-8. */
  function Decode(bs: seq<Byte>): Option<string>
    decreases |bs|
  {
    if bs == [] then Some([])
    else match DecodeScalar(bs)
      case None => None
      case Some((c, n)) =>
        match Decode(bs[n..])
        case None => None
        case Some(s) => Some([c] + s)
  }

  lemma DecodeEncodeScalar(c: char, rest: seq<Byte>)
    ensures DecodeScalar(EncodeScalar(c) + rest) == Some((c, |EncodeScalar(c)|))
  {
    var n := c as int;
    var e := EncodeScalar(c) + rest;
    if n < 0x80 {
    } else if n < 0x800 {
      assert e[0] == 0xC0 + n / 64 && e[1] == 0x80 + n % 64;
      assert (e[0] as int - 0xC0) * 64 + (e[1] as int - 0x80) == n;
      assert ToScalar(n) == Some(c);
    } else if n < 0x10000 {
      DecodeThree(c, rest);
    } else {
      DecodeFour(c, rest);
    }
  }

  lemma DecodeThree(c: char, rest: seq<Byte>)
    requires 0x800 <= c as int < 0x10000
    ensures DecodeScalar(EncodeScalar(c) + rest) == Some((c, 3))
  {
    var n := c as int;
    var e := EncodeScalar(c) + rest;
    var h, m, l := n / 4096, (n / 64) % 64, n % 64;
    assert n == h * 4096 + m * 64 + l;
    assert e[0] == 0xE0 + h && e[1] == 0x80 + m && e[2] == 0x80 + l;
    assert ToScalar(n) == Some(c);
  }

  /** A value of 21 bits split into a 3-bit lead and three 6-bit groups. */
  lemma SplitFour(n: int)
    requires 0x10000 <= n < 0x11_0000
    ensures 0 <= n / 262144 < 8
    ensures 0 <= (n / 4096) % 64 < 64 && 0 <= (n / 64) % 64 < 64 && 0 <= n % 64 < 64
    ensures n == (n / 262144) * 262144 + ((n / 4096) % 64) * 4096 + ((n / 64) % 64) * 64 + n % 64
  {
    var h, m1, m2, l := n / 262144, (n / 4096) % 64, (n / 64) % 64, n % 64;
    assert n == (n / 64) * 64 + l;
    assert n / 64 == (n / 4096) * 64 + m2;
    assert n / 4096 == h * 64 + m1;
  }

  lemma DecodeFour(c: char, rest: seq<Byte>)
    requires 0x10000 <= c as int
    ensures DecodeScalar(EncodeScalar(c) + rest) == Some((c, 4))
  {
    var n := c as int;
    var e := EncodeScalar(c) + rest;
    SplitFour(n);
    var h, m1, m2, l := n / 262144, (n / 4096) % 64, (n / 64) % 64, n % 64;
    assert e[0] == 0xF0 + h && e[1] == 0x80 + m1 && e[2] == 0x80 + m2 && e[3] == 0x80 + l;
    assert (e[0] as int - 0xF0) * 262144 + (e[1] as int - 0x80) * 4096 + (e[2] as int - 0x80) * 64 + (e[3] as int - 0x80) == n;
    assert ToScalar(n) == Some(c);
  }

  /** Round trip: decoding the encoding of any string gives the string back. */
  lemma {:induction false} DecodeEncode(s: string)
    ensures Decode(Encode(s)) == Some(s)
  {
    if s != [] {
      var head := EncodeScalar(s[0]);
      var tail := Encode(s[1..]);
      DecodeEncodeScalar(s[0], tail);
      assert (head + tail)[|head|..] == tail;
      DecodeEncode(s[1..]);
      assert [s[0]] + s[1..] == s;
    }
  }

  /** Distinct strings have distinct encodings. */
  lemma EncodeInjective(a: string, b: string)
    requires Encode(a) == Encode(b)
    ensures a == b
  {
    DecodeEncode(a);
    DecodeEncode(b);
  }
}
