/**
 * `encodeURIComponent` and its inverse: every character outside the unreserved set
 * `A-Z a-z 0-9 - _ . ! ~ * ' ( )` is replaced by the percent-encoding (section 2.1 of
 * RFC 3986, upper-case hexadecimal) of each byte of its UTF-8 encoding.
 */
module UriComponent {
  import opened Wrappers
  import opened JsText
  import Utf8

  predicate IsUnreserved(c: char) {
    IsAsciiLetter(c) || IsDigit(c) || c == '-' || c == '_' || c == '.' || c == '!' || c == '~'
    || c == '*' || c == '\'' || c == '(' || c == ')'
  }

  const HexDigits := "0123456789ABCDEF"

  predicate IsHex(c: char) { IsDigit(c) || 'A' <= c <= 'F' || 'a' <= c <= 'f' }

  function HexValue(c: char): (r: int)
    requires IsHex(c)
    ensures 0 <= r < 16
  {
    if IsDigit(c) then c as int - '0' as int
    else if 'A' <= c <= 'F' then c as int - 'A' as int + 10
    else c as int - 'a' as int + 10
  }

  lemma HexDigitValue(n: int)
    requires 0 <= n < 16
    ensures IsHex(HexDigits[n]) && HexValue(HexDigits[n]) == n
  {
  }

  /** `%XY` for one byte. */
  function EscapeByte(b: Utf8.Byte): (r: string)
    ensures |r| == 3 && r[0] == '%' && IsHex(r[1]) && IsHex(r[2])
    ensures HexValue(r[1]) * 16 + HexValue(r[2]) == b
  {
    HexDigitValue(b / 16);
    HexDigitValue(b % 16);
    ['%', HexDigits[b / 16], HexDigits[b % 16]]
  }

  function EscapeBytes(bs: seq<Utf8.Byte>): (r: string)
    ensures forall i :: 0 <= i < |r| ==> IsUnreserved(r[i]) || r[i] == '%'
  {
    if bs == [] then "" else EscapeByte(bs[0]) + EscapeBytes(bs[1..])
  }

  /** The encoding of one character. */
  function EncodeChar(c: char): (r: string)
    ensures forall i :: 0 <= i < |r| ==> IsUnreserved(r[i]) || r[i] == '%'
  {
    if IsUnreserved(c) then [c] else EscapeBytes(Utf8.EncodeChar(c))
  }

  /**
   * `encodeURIComponent(s)`: the result holds only unreserved characters and `%`, so
   * none of the delimiters `& = ? #` of a URI query.
   */
  function Encode(s: string): (r: string)
    ensures forall i :: 0 <= i < |r| ==> IsUnreserved(r[i]) || r[i] == '%'
    ensures forall i :: 0 <= i < |r| ==> r[i] != '&' && r[i] != '=' && r[i] != '?' && r[i] != '#'
  {
    if s == [] then "" else EncodeChar(s[0]) + Encode(s[1..])
  }

  /** The bytes a percent-encoded string stands for; None when a `%` is not followed by two hexadecimal digits. */
  function ToBytes(s: string): Option<seq<Utf8.Byte>>
    decreases |s|
  {
    if s == [] then Some([])
    else if s[0] == '%' then
      if |s| >= 3 && IsHex(s[1]) && IsHex(s[2]) then
        match ToBytes(s[3..])
        case None => None
        case Some(rest) => Some([HexValue(s[1]) * 16 + HexValue(s[2])] + rest)
      else None
    else
      match ToBytes(s[1..])
      case None => None
      case Some(rest) => Some(Utf8.EncodeChar(s[0]) + rest)
  }

  /** `decodeURIComponent(s)`, None where it throws a URIError. */
  function Decode(s: string): Option<string> {
    match ToBytes(s)
    case None => None
    case Some(bytes) => Utf8.Decode(bytes)
  }

  lemma {:induction false} ToBytesEscapes(bs: seq<Utf8.Byte>, rest: string)
    requires ToBytes(rest).Some?
    ensures ToBytes(EscapeBytes(bs) + rest) == Some(bs + ToBytes(rest).value)
  {
    var r := ToBytes(rest).value;
    if bs != [] {
      ToBytesEscapes(bs[1..], rest);
      ToBytesAfterEscape(EscapeByte(bs[0]), EscapeBytes(bs[1..]) + rest);
      Regroup(EscapeByte(bs[0]), EscapeBytes(bs[1..]), rest);
      Regroup([bs[0]], bs[1..], r);
      assert [bs[0]] + bs[1..] == bs;
    } else {
      assert EscapeBytes(bs) == [];
      Regroup(EscapeBytes(bs), rest, []);
      Regroup(bs, r, []);
    }
  }

  /** An escape `%XY` ahead of a string contributes the byte XY ahead of the string's bytes. */
  lemma ToBytesAfterEscape(e: string, tail: string)
    requires |e| == 3 && e[0] == '%' && IsHex(e[1]) && IsHex(e[2])
    ensures ToBytes(e + tail) == if ToBytes(tail).Some? then Some([HexValue(e[1]) * 16 + HexValue(e[2])] + ToBytes(tail).value) else None
  {
    var s := e + tail;
    assert s[0] == '%' && s[1] == e[1] && s[2] == e[2];
    assert s[3..] == tail;
  }

  lemma Regroup<T>(a: seq<T>, b: seq<T>, c: seq<T>)
    ensures a + b + c == a + (b + c)
    ensures a == [] ==> a + b == b
  {
  }

  lemma {:induction false} ToBytesEncode(s: string)
    ensures ToBytes(Encode(s)) == Some(Utf8.Encode(s))
  {
    if s != [] {
      ToBytesEncode(s[1..]);
      var c := s[0];
      var tail := Encode(s[1..]);
      if IsUnreserved(c) {
        assert Encode(s) == [c] + tail;
        assert (Encode(s))[1..] == tail;
      } else {
        ToBytesEscapes(Utf8.EncodeChar(c), tail);
      }
    }
  }

  /** Decoding an encoded string gives it back. */
  lemma RoundTrip(s: string)
    ensures Decode(Encode(s)) == Some(s)
  {
    ToBytesEncode(s);
    Utf8.RoundTrip(s);
  }

  /** Distinct strings have distinct encodings. */
  lemma EncodeInjective(s: string, t: string)
    requires Encode(s) == Encode(t)
    ensures s == t
  {
    RoundTrip(s);
    RoundTrip(t);
  }
}
