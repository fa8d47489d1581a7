/**
 * UTF-8 (RFC 3629), the encoding `urllib.parse.quote_plus` applies to a
 * string before percent-encoding its bytes, and its decoding.
 */
module Utf8 {
  import opened Wrappers

  type Byte = b: int | 0 <= b < 256

  /** A Unicode scalar value: what a Dafny `char` holds. */
  predicate IsScalar(n: int)
  {
    0 <= n < 0xD800 || 0xE000 <= n < 0x11_0000
  }

  /** The one to four bytes RFC 3629 section 3 assigns to one scalar value. */
  function EncodeChar(c: char): (r: seq<Byte>)
    ensures 1 <= |r| <= 4
    ensures (|r| == 1) <==> (c as int < 0x80)
  {
    var n := c as int;
    if n < 0x80 then [n]
    else if n < 0x800 then [0xC0 + n / 64, 0x80 + n % 64]
    else if n < 0x1_0000 then [0xE0 + n / 4096, 0x80 + (n / 64) % 64, 0x80 + n % 64]
    else [0xF0 + n / 262144, 0x80 + (n / 4096) % 64, 0x80 + (n / 64) % 64, 0x80 + n % 64]
  }

  function Encode(s: string): seq<Byte>
  {
    if |s| == 0 then [] else EncodeChar(s[0]) + Encode(s[1..])
  }

  predicate IsContinuation(b: Byte)
  {
    0x80 <= b < 0xC0
  }

  /** The length of the sequence a lead byte announces, or 0 for a byte that cannot lead. */
  function SequenceLength(b: Byte): nat
  {
    if b < 0x80 then 1
    else if 0xC2 <= b < 0xE0 then 2
    else if 0xE0 <= b < 0xF0 then 3
    else if 0xF0 <= b < 0xF5 then 4
    else 0
  }

  /** The value bits of a sequence of `len` bytes at the front of `bs`. */
  function SequenceValue(bs: seq<Byte>, len: nat): int
    requires 1 <= len <= 4 && len <= |bs|
  {
    if len == 1 then bs[0] as int
    else if len == 2 then (bs[0] as int - 0xC0) * 64 + (bs[1] as int - 0x80)
    else if len == 3 then (bs[0] as int - 0xE0) * 4096 + (bs[1] as int - 0x80) * 64 + (bs[2] as int - 0x80)
    else (bs[0] as int - 0xF0) * 262144 + (bs[1] as int - 0x80) * 4096 + (bs[2] as int - 0x80) * 64 + (bs[3] as int - 0x80)
  }

  /** The smallest value a sequence of `len` bytes may carry (longer forms are overlong). */
  function LeastValue(len: nat): int
  {
    if len <= 1 then 0 else if len == 2 then 0x80 else if len == 3 then 0x800 else 0x1_0000
  }

  /** The scalar value the first well-formed sequence of `bs` stands for, and that sequence's length. */
  function DecodeFirst(bs: seq<Byte>): (r: Option<(char, nat)>)
    ensures r.Some? ==> 1 <= r.value.1 <= |bs|
  {
    if |bs| == 0 then None
    else
      var len := SequenceLength(bs[0]);
      if len == 0 || |bs| < len then None
      else if !(forall k :: 1 <= k < len ==> IsContinuation(bs[k])) then None
      else
        var n := SequenceValue(bs, len);
        if LeastValue(len) <= n && IsScalar(n) then Some((n as char, len)) else None
  }

  /** Strict decoding: the text `bs` encodes, or None when `bs` is not well-formed UTF-8. */
  function Decode(bs: seq<Byte>): Option<string>
    decreases |bs|
  {
    if |bs| == 0 then Some("")
    else match DecodeFirst(bs)
      case None => None
      case Some((c, len)) =>
        match Decode(bs[len..])
        case None => None
        case Some(rest) => Some([c] + rest)
  }

  lemma DecodeFirstTwo(n: int, bs: seq<Byte>)
    requires 0x80 <= n < 0x800 && |bs| >= 2
    requires bs[0] == 0xC0 + n / 64 && bs[1] == 0x80 + n % 64
    ensures SequenceLength(bs[0]) == 2 && SequenceValue(bs, 2) == n
  {
  }

  lemma DecodeFirstThree(n: int, bs: seq<Byte>)
    requires 0x800 <= n < 0x1_0000 && |bs| >= 3
    requires bs[0] == 0xE0 + n / 4096 && bs[1] == 0x80 + (n / 64) % 64 && bs[2] == 0x80 + n % 64
    ensures SequenceLength(bs[0]) == 3 && SequenceValue(bs, 3) == n
  {
    assert (n / 4096) * 64 + (n / 64) % 64 == n / 64;
  }

  lemma DecodeFirstFour(n: int, bs: seq<Byte>)
    requires 0x1_0000 <= n < 0x11_0000 && |bs| >= 4
    requires bs[0] == 0xF0 + n / 262144 && bs[1] == 0x80 + (n / 4096) % 64
    requires bs[2] == 0x80 + (n / 64) % 64 && bs[3] == 0x80 + n % 64
    ensures SequenceLength(bs[0]) == 4 && SequenceValue(bs, 4) == n
  {
    assert (n / 262144) * 64 + (n / 4096) % 64 == n / 4096;
    assert (n / 4096) * 64 + (n / 64) % 64 == n / 64;
  }

  lemma DecodeFirstEncodeChar(c: char, tail: seq<Byte>)
    ensures DecodeFirst(EncodeChar(c) + tail) == Some((c, |EncodeChar(c)|))
  {
    var n := c as int;
    if n < 0x80 {
      assert (EncodeChar(c) + tail)[0] == n;
    } else if n < 0x800 {
      DecodeEncodedTwo(c, tail);
    } else if n < 0x1_0000 {
      DecodeEncodedThree(c, tail);
    } else {
      DecodeEncodedFour(c, tail);
    }
  }

  /** A well-formed sequence at the front is decoded to its value. */
  lemma DecodeFirstWellFormed(bs: seq<Byte>, len: nat, n: int)
    requires 1 <= len <= 4 && len <= |bs| && SequenceLength(bs[0]) == len
    requires forall k :: 1 <= k < len ==> IsContinuation(bs[k])
    requires SequenceValue(bs, len) == n && LeastValue(len) <= n && IsScalar(n)
    ensures DecodeFirst(bs) == Some((n as char, len))
  {
  }

  lemma DecodeEncodedTwo(c: char, tail: seq<Byte>)
    requires 0x80 <= c as int < 0x800
    ensures DecodeFirst(EncodeChar(c) + tail) == Some((c, 2))
  {
    var n := c as int;
    var bs := EncodeChar(c) + tail;
    assert bs[0] == 0xC0 + n / 64 && bs[1] == 0x80 + n % 64;
    DecodeFirstTwo(n, bs);
    DecodeFirstWellFormed(bs, 2, n);
  }

  lemma DecodeEncodedThree(c: char, tail: seq<Byte>)
    requires 0x800 <= c as int < 0x1_0000
    ensures DecodeFirst(EncodeChar(c) + tail) == Some((c, 3))
  {
    var n := c as int;
    var bs := EncodeChar(c) + tail;
    assert bs[0] == 0xE0 + n / 4096 && bs[1] == 0x80 + (n / 64) % 64 && bs[2] == 0x80 + n % 64;
    DecodeFirstThree(n, bs);
    DecodeFirstWellFormed(bs, 3, n);
  }

  lemma DecodeEncodedFour(c: char, tail: seq<Byte>)
    requires 0x1_0000 <= c as int
    ensures DecodeFirst(EncodeChar(c) + tail) == Some((c, 4))
  {
    var n := c as int;
    var bs := EncodeChar(c) + tail;
    assert bs[0] == 0xF0 + n / 262144 && bs[1] == 0x80 + (n / 4096) % 64;
    assert bs[2] == 0x80 + (n / 64) % 64 && bs[3] == 0x80 + n % 64;
    DecodeFirstFour(n, bs);
    DecodeFirstWellFormed(bs, 4, n);
  }

  /** Decoding an encoding gives the text back (RFC 3629 is a bijection onto its well-formed sequences). */
  lemma {:induction false} DecodeEncode(s: string)
    ensures Decode(Encode(s)) == Some(s)
  {
    if |s| > 0 {
      var e := EncodeChar(s[0]);
      DecodeFirstEncodeChar(s[0], Encode(s[1..]));
      assert (e + Encode(s[1..]))[|e|..] == Encode(s[1..]);
      DecodeEncode(s[1..]);
      assert [s[0]] + s[1..] == s;
    }
  }

  /** Distinct strings have distinct encodings. */
  lemma EncodeInjective(s: string, t: string)
    requires Encode(s) == Encode(t)
    ensures s == t
  {
    DecodeEncode(s);
    DecodeEncode(t);
  }
}
