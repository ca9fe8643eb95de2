/** ECMAScript's `encodeURIComponent` on a string of Unicode scalar values,
    and the matching decoder: every character outside the unreserved set is
    written as the percent-escaped bytes of its UTF-8 encoding. */
module UriComponent {
  import opened Wrappers
  import Utf8

  /** The characters `encodeURIComponent` leaves alone: letters, digits
      and `- _ . ! ~ * ' ( )`. */
  predicate Unreserved(b: int) {
    || ('A' as int <= b <= 'Z' as int)
    || ('a' as int <= b <= 'z' as int)
    || ('0' as int <= b <= '9' as int)
    || b == '-' as int || b == '_' as int || b == '.' as int || b == '!' as int
    || b == '~' as int || b == '*' as int || b == '\'' as int || b == '(' as int
    || b == ')' as int
  }

  /** A character that can appear in the output of the encoder. */
  predicate EncodedChar(c: char) {
    Unreserved(c as int) || c == '%'
  }

  /** An upper-case hexadecimal digit. */
  function HexDigit(d: int): (c: char)
    requires 0 <= d < 16
    ensures Unreserved(c as int) && HexValue(c) == Some(d)
  {
    if d < 10 then ('0' as int + d) as char else ('A' as int + d - 10) as char
  }

  function HexValue(c: char): Option<int> {
    if '0' <= c <= '9' then Some(c as int - '0' as int)
    else if 'A' <= c <= 'F' then Some(c as int - 'A' as int + 10)
    else if 'a' <= c <= 'f' then Some(c as int - 'a' as int + 10)
    else None
  }

  function EncodeByte(b: Utf8.Byte): (t: string)
    ensures forall i :: 0 <= i < |t| ==> EncodedChar(t[i])
  {
    if Unreserved(b) then [b as char] else ['%', HexDigit(b / 16), HexDigit(b % 16)]
  }

  function EncodeBytes(bs: seq<Utf8.Byte>): (t: string)
    ensures forall i :: 0 <= i < |t| ==> EncodedChar(t[i])
  {
    if bs == [] then [] else EncodeByte(bs[0]) + EncodeBytes(bs[1..])
  }

  /** `encodeURIComponent(s)`. */
  function Encode(s: string): (t: string)
    ensures forall i :: 0 <= i < |t| ==> EncodedChar(t[i])
  {
    EncodeBytes(Utf8.Encode(s))
  }

  /** The bytes a percent-encoded text stands for: `%XY` is one byte, any
      other character its own UTF-8 bytes; a `%` without two hex digits
      after it is malformed. */
  function DecodeBytes(t: string): Option<seq<Utf8.Byte>>
    decreases |t|
  {
    if t == [] then Some([])
    else if t[0] == '%' then
      if |t| < 3 then None
      else match (HexValue(t[1]), HexValue(t[2]), DecodeBytes(t[3..]))
        case (Some(hi), Some(lo), Some(rest)) => Some([hi * 16 + lo] + rest)
        case _ => None
    else match DecodeBytes(t[1..])
      case Some(rest) => Some(Utf8.EncodeChar(t[0]) + rest)
      case None => None
  }

  /** `decodeURIComponent(t)`, with None where it would throw. */
  function Decode(t: string): Option<string> {
    match DecodeBytes(t)
    case Some(bs) => Utf8.Decode(bs)
    case None => None
  }

  /** No colon survives encoding, so a colon can separate two encoded
      values without ambiguity. */
  lemma EncodeHasNoColon(s: string)
    ensures ':' !in Encode(s)
  {
  }

  lemma DecodeEncodeByte(b: Utf8.Byte, rest: string)
    ensures DecodeBytes(EncodeByte(b) + rest) ==
      match DecodeBytes(rest)
      case Some(more) => Some([b] + more)
      case None => None
  {
    var t := EncodeByte(b) + rest;
    if Unreserved(b) {
      assert t[0] == b as char && t[1..] == rest;
      assert Utf8.EncodeChar(b as char) == [b];
    } else {
      assert t[0] == '%' && t[1] == HexDigit(b / 16) && t[2] == HexDigit(b % 16) && t[3..] == rest;
    }
  }

  lemma {:induction false} DecodeEncodeBytes(bs: seq<Utf8.Byte>)
    ensures DecodeBytes(EncodeBytes(bs)) == Some(bs)
  {
    if bs != [] {
      DecodeEncodeBytes(bs[1..]);
      DecodeEncodeByte(bs[0], EncodeBytes(bs[1..]));
      assert [bs[0]] + bs[1..] == bs;
    }
  }

  /** Decoding what `encodeURIComponent` produced gives back the input. */
  lemma RoundTrip(s: string)
    ensures Decode(Encode(s)) == Some(s)
  {
    DecodeEncodeBytes(Utf8.Encode(s));
    Utf8.RoundTrip(s);
  }
}
