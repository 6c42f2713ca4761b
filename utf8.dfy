/**
 * UTF-8 (RFC 3629): how `Buffer.from(str)` and `encodeURIComponent` turn a string into
 * bytes. Strings here are sequences of Unicode scalar values, so every string has an
 * encoding; the decoder rejects every byte sequence that is not the encoding of one.
 */
module Utf8 {
  import opened Wrappers

  type Byte = b: int | 0 <= b < 256

  predicate IsContinuation(b: Byte) { 0x80 <= b < 0xC0 }

  /** The bytes of one scalar value: 1 to 4 of them, by the value's range. */
  function EncodeChar(c: char): (r: seq<Byte>)
    ensures 1 <= |r| <= 4
    ensures SequenceLength(r[0]) == Some(|r|)
    ensures forall i :: 1 <= i < |r| ==> IsContinuation(r[i])
  {
    var n := c as int;
    if n < 0x80 then [n]
    else if n < 0x800 then [0xC0 + n / 64, 0x80 + n % 64]
    else if n < 0x10000 then [0xE0 + n / 64 / 64, 0x80 + n / 64 % 64, 0x80 + n % 64]
    else [0xF0 + n / 64 / 64 / 64, 0x80 + n / 64 / 64 % 64, 0x80 + n / 64 % 64, 0x80 + n % 64]
  }

  function Encode(s: string): (r: seq<Byte>)
    ensures |r| >= |s|
  {
    if s == [] then [] else EncodeChar(s[0]) + Encode(s[1..])
  }

  /** How many bytes a sequence starting with lead byte `b` occupies; None for a byte that cannot lead. */
  function SequenceLength(b: Byte): Option<nat> {
    if b < 0x80 then Some(1)
    else if 0xC2 <= b < 0xE0 then Some(2)
    else if 0xE0 <= b < 0xF0 then Some(3)
    else if 0xF0 <= b < 0xF5 then Some(4)
    else None
  }

  predicate IsScalar(n: int) { 0 <= n < 0xD800 || 0xE000 <= n < 0x110000 }

  /**
   * Decodes exactly one scalar value from `b`, which must hold its whole encoding and
   * nothing more; overlong forms, surrogates and values above U+10FFFF are rejected.
   */
  function DecodeChar(b: seq<Byte>): (r: Option<char>)
    ensures r.Some? ==> |b| >= 1 && SequenceLength(b[0]) == Some(|b|)
  {
    if |b| == 0 || SequenceLength(b[0]) != Some(|b|) then None
    else if !(forall i :: 1 <= i < |b| ==> IsContinuation(b[i])) then None
    else if |b| == 1 then Some(b[0] as char)
    else if |b| == 2 then Some(((b[0] as int - 0xC0) * 64 + (b[1] as int - 0x80)) as char)
    else if |b| == 3 then
      var n := ((b[0] as int - 0xE0) * 64 + (b[1] as int - 0x80)) * 64 + (b[2] as int - 0x80);
      if 0x800 <= n && IsScalar(n) then Some(n as char) else None
    else
      var n := (((b[0] as int - 0xF0) * 64 + (b[1] as int - 0x80)) * 64 + (b[2] as int - 0x80)) * 64 + (b[3] as int - 0x80);
      if 0x10000 <= n < 0x110000 then Some(n as char) else None
  }

  function Decode(b: seq<Byte>): Option<string>
    decreases |b|
  {
    if b == [] then Some([])
    else match SequenceLength(b[0])
      case None => None
      case Some(k) =>
        if k > |b| then None
        else match DecodeChar(b[..k])
          case None => None
          case Some(c) =>
            match Decode(b[k..])
            case None => None
            case Some(rest) => Some([c] + rest)
  }

  /** Every scalar value decodes back from its own encoding. */
  lemma EncodeCharRoundTrip(c: char)
    ensures DecodeChar(EncodeChar(c)) == Some(c)
  {
    var n := c as int;
    var e := EncodeChar(c);
    if n < 0x80 {
    } else if n < 0x800 {
      assert (e[0] as int - 0xC0) * 64 + (e[1] as int - 0x80) == n;
    } else if n < 0x10000 {
      var m := n / 64;
      assert (e[0] as int - 0xE0) * 64 + (e[1] as int - 0x80) == m;
    } else {
      var m := n / 64;
      var m2 := m / 64;
      assert (e[0] as int - 0xF0) * 64 + (e[1] as int - 0x80) == m2;
      assert ((e[0] as int - 0xF0) * 64 + (e[1] as int - 0x80)) * 64 + (e[2] as int - 0x80) == m;
    }
  }

  /** Decoding an encoding gives the string back. */
  lemma {:induction false} RoundTrip(s: string)
    ensures Decode(Encode(s)) == Some(s)
  {
    if s != [] {
      var e := EncodeChar(s[0]);
      var k := |e|;
      assert Encode(s)[..k] == e;
      assert Encode(s)[k..] == Encode(s[1..]);
      EncodeCharRoundTrip(s[0]);
      RoundTrip(s[1..]);
      assert [s[0]] + s[1..] == s;
    }
  }

  /** Distinct strings have distinct encodings. */
  lemma EncodeInjective(s: string, t: string)
    requires Encode(s) == Encode(t)
    ensures s == t
  {
    RoundTrip(s);
    RoundTrip(t);
  }

  /** Encoding distributes over concatenation. */
  lemma {:induction false} EncodeConcat(s: string, t: string)
    ensures Encode(s + t) == Encode(s) + Encode(t)
  {
    if s != [] {
      assert (s + t)[1..] == s[1..] + t;
      EncodeConcat(s[1..], t);
    } else {
      assert s + t == t;
    }
  }
}
