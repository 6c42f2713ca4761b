/**
 * Base64 as section 4 of RFC 4648 defines it (what `Buffer.toString('base64')`
 * produces): each group of three bytes becomes four characters of the 64-letter
 * alphabet, and a final group of one or two bytes is padded with `=`.
 */
module Base64 {
  import opened Wrappers
  import opened Utf8

  /** The alphabet of Table 1: A-Z, a-z, 0-9, '+', '/'. */
  function Letter(i: int): (c: char)
    requires 0 <= i < 64
    ensures IsLetter(c)
  {
    if i < 26 then ('A' as int + i) as char
    else if i < 52 then ('a' as int + (i - 26)) as char
    else if i < 62 then ('0' as int + (i - 52)) as char
    else if i == 62 then '+'
    else '/'
  }

  predicate IsLetter(c: char) {
    'A' <= c <= 'Z' || 'a' <= c <= 'z' || '0' <= c <= '9' || c == '+' || c == '/'
  }

  /** The 6-bit value of an alphabet character; None for any other character. */
  function ValueOf(c: char): (r: Option<int>)
    ensures r.Some? <==> IsLetter(c)
    ensures r.Some? ==> 0 <= r.value < 64 && Letter(r.value) == c
  {
    if 'A' <= c <= 'Z' then Some(c as int - 'A' as int)
    else if 'a' <= c <= 'z' then Some(c as int - 'a' as int + 26)
    else if '0' <= c <= '9' then Some(c as int - '0' as int + 52)
    else if c == '+' then Some(62)
    else if c == '/' then Some(63)
    else None
  }

  lemma ValueOfLetter(i: int)
    requires 0 <= i < 64
    ensures ValueOf(Letter(i)) == Some(i)
  {
  }

  function Encode(b: seq<Byte>): (r: string)
    ensures forall i :: 0 <= i < |r| ==> IsLetter(r[i]) || r[i] == '='
  {
    if |b| == 0 then ""
    else if |b| == 1 then
      [Letter(b[0] / 4), Letter(b[0] % 4 * 16), '=', '=']
    else if |b| == 2 then
      [Letter(b[0] / 4), Letter(b[0] % 4 * 16 + b[1] / 16), Letter(b[1] % 16 * 4), '=']
    else Group(b[0], b[1], b[2]) + Encode(b[3..])
  }

  /** The four characters for three bytes: their 24 bits in four 6-bit pieces. */
  function Group(x: Byte, y: Byte, z: Byte): (r: string)
    ensures |r| == 4 && forall i :: 0 <= i < 4 ==> IsLetter(r[i])
  {
    [Letter(x / 4), Letter(x % 4 * 16 + y / 16), Letter(y % 16 * 4 + z / 64), Letter(z % 64)]
  }

  /**
   * Decoding: the input must be a whole number of 4-character groups of alphabet
   * characters, with padding only at the end and zero pad bits (the canonical
   * encoding); anything else is rejected.
   */
  function Decode(s: string): (r: Option<seq<Byte>>)
  {
    if |s| == 0 then Some([])
    else if |s| < 4 then None
    else
      var v0, v1 := ValueOf(s[0]), ValueOf(s[1]);
      if v0.None? || v1.None? then None
      else if |s| == 4 && s[2] == '=' && s[3] == '=' then
        if v1.value % 16 == 0 then Some([v0.value * 4 + v1.value / 16]) else None
      else
        var v2 := ValueOf(s[2]);
        if v2.None? then None
        else if |s| == 4 && s[3] == '=' then
          if v2.value % 4 == 0 then Some([v0.value * 4 + v1.value / 16, v1.value % 16 * 16 + v2.value / 4]) else None
        else
          var v3 := ValueOf(s[3]);
          if v3.None? then None
          else match Decode(s[4..])
            case None => None
            case Some(rest) =>
              Some([v0.value * 4 + v1.value / 16, v1.value % 16 * 16 + v2.value / 4, v2.value % 4 * 64 + v3.value] + rest)
  }

  lemma SingleRoundTrip(x: Byte)
    ensures Decode(Encode([x])) == Some([x])
  {
    ValueOfLetter(x / 4);
    ValueOfLetter(x % 4 * 16);
  }

  lemma PairRoundTrip(x: Byte, y: Byte)
    ensures Decode(Encode([x, y])) == Some([x, y])
  {
    var v0, v1, v2 := x / 4, x % 4 * 16 + y / 16, y % 16 * 4;
    ValueOfLetter(v0);
    ValueOfLetter(v1);
    ValueOfLetter(v2);
    assert v1 / 16 == x % 4 && v1 % 16 == y / 16;
    assert v2 / 4 == y % 16 && v2 % 4 == 0;
    assert Encode([x, y]) == [Letter(v0), Letter(v1), Letter(v2), '='];
  }

  /** The values a full group decodes to are the three bytes it was made from. */
  lemma TripleValues(x: Byte, y: Byte, z: Byte)
    ensures var v0, v1, v2, v3 := x / 4, x % 4 * 16 + y / 16, y % 16 * 4 + z / 64, z % 64;
      && 0 <= v1 < 64 && 0 <= v2 < 64
      && v0 * 4 + v1 / 16 == x && v1 % 16 * 16 + v2 / 4 == y && v2 % 4 * 64 + v3 == z
  {
    var v1, v2 := x % 4 * 16 + y / 16, y % 16 * 4 + z / 64;
    assert v1 / 16 == x % 4 && v1 % 16 == y / 16;
    assert v2 / 4 == y % 16 && v2 % 4 == z / 64;
  }

  /** A group of four alphabet characters decodes to three bytes ahead of what the rest decodes to. */
  lemma DecodeGroup(g: string, t: string)
    requires |g| == 4 && forall i :: 0 <= i < 4 ==> IsLetter(g[i])
    ensures var v0, v1, v2, v3 := ValueOf(g[0]).value, ValueOf(g[1]).value, ValueOf(g[2]).value, ValueOf(g[3]).value;
      Decode(g + t) == if Decode(t).Some? then Some([v0 * 4 + v1 / 16, v1 % 16 * 16 + v2 / 4, v2 % 4 * 64 + v3] + Decode(t).value) else None
  {
    AfterGroup(g, t);
    assert (g + t)[3] != '=';
  }

  /** What follows a four-character group is the rest. */
  lemma AfterGroup(g: string, t: string)
    requires |g| == 4
    ensures (g + t)[4..] == t
  {
  }

  /** Decoding the encoding of any byte string gives the byte string back. */
  lemma {:induction false} RoundTrip(b: seq<Byte>)
    ensures Decode(Encode(b)) == Some(b)
  {
    if 1 <= |b| <= 2 {
      ShortRoundTrip(b);
    } else if |b| >= 3 {
      RoundTrip(b[3..]);
      GroupRoundTrip(b[0], b[1], b[2], Encode(b[3..]));
      EncodeSplits(b);
      Pieces(b);
    }
  }

  lemma ShortRoundTrip(b: seq<Byte>)
    requires 1 <= |b| <= 2
    ensures Decode(Encode(b)) == Some(b)
  {
    Pieces(b);
    if |b| == 1 {
      SingleRoundTrip(b[0]);
    } else {
      PairRoundTrip(b[0], b[1]);
    }
  }

  /** Three or more bytes encode as the group of the first three ahead of the encoding of the rest. */
  lemma EncodeSplits(b: seq<Byte>)
    requires |b| >= 3
    ensures Encode(b) == Group(b[0], b[1], b[2]) + Encode(b[3..])
  {
  }

  /** A byte string is its leading bytes followed by the rest. */
  lemma Pieces(b: seq<Byte>)
    ensures |b| == 1 ==> b == [b[0]]
    ensures |b| == 2 ==> b == [b[0], b[1]]
    ensures |b| >= 3 ==> b == [b[0], b[1], b[2]] + b[3..]
  {
  }

  lemma GroupRoundTrip(x: Byte, y: Byte, z: Byte, t: string)
    ensures Decode(Group(x, y, z) + t) == if Decode(t).Some? then Some([x, y, z] + Decode(t).value) else None
  {
    var v0, v1, v2, v3 := x / 4, x % 4 * 16 + y / 16, y % 16 * 4 + z / 64, z % 64;
    TripleValues(x, y, z);
    ValueOfLetter(v0);
    ValueOfLetter(v1);
    ValueOfLetter(v2);
    ValueOfLetter(v3);
    DecodeGroup(Group(x, y, z), t);
  }

  /** Base64 of the UTF-8 bytes of a string: `Buffer.from(s).toString('base64')`. */
  function EncodeString(s: string): string {
    Encode(Utf8.Encode(s))
  }

  /** Decoding `Buffer.from(s).toString('base64')` and then the UTF-8 gives `s` back. */
  lemma EncodeStringRoundTrip(s: string)
    ensures Decode(EncodeString(s)) == Some(Utf8.Encode(s))
    ensures Utf8.Decode(Decode(EncodeString(s)).value) == Some(s)
  {
    RoundTrip(Utf8.Encode(s));
    Utf8.RoundTrip(s);
  }

  /** Different strings never share a Base64 form. */
  lemma EncodeStringInjective(s: string, t: string)
    requires EncodeString(s) == EncodeString(t)
    ensures s == t
  {
    EncodeStringRoundTrip(s);
    EncodeStringRoundTrip(t);
  }
}
