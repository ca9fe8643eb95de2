/** The base64 encoding of section 4 of RFC 4648, with `=` padding: what
    `Buffer.toString('base64')` produces, and the matching decoder. */
module Base64 {
  import opened Wrappers
  import Utf8

  type Sextet = d: int | 0 <= d < 64

  /** The character of the 64-letter alphabet (Table 1 of RFC 4648). */
  function Letter(d: Sextet): (c: char)
    ensures LetterValue(c) == Some(d)
  {
    if d < 26 then ('A' as int + d) as char
    else if d < 52 then ('a' as int + d - 26) as char
    else if d < 62 then ('0' as int + d - 52) as char
    else if d == 62 then '+'
    else '/'
  }

  function LetterValue(c: char): Option<Sextet> {
    if 'A' <= c <= 'Z' then Some(c as int - 'A' as int)
    else if 'a' <= c <= 'z' then Some(c as int - 'a' as int + 26)
    else if '0' <= c <= '9' then Some(c as int - '0' as int + 52)
    else if c == '+' then Some(62)
    else if c == '/' then Some(63)
    else None
  }

  predicate InAlphabet(c: char) {
    LetterValue(c).Some?
  }

  /** Three bytes as four letters. */
  function Group(b0: Utf8.Byte, b1: Utf8.Byte, b2: Utf8.Byte): string {
    [Letter(b0 / 4), Letter(b0 % 4 * 16 + b1 / 16), Letter(b1 % 16 * 4 + b2 / 64), Letter(b2 % 64)]
  }

  /** A final two bytes as three letters and one `=`. */
  function TailOfTwo(b0: Utf8.Byte, b1: Utf8.Byte): string {
    [Letter(b0 / 4), Letter(b0 % 4 * 16 + b1 / 16), Letter(b1 % 16 * 4), '=']
  }

  /** A final byte as two letters and two `=`. */
  function TailOfOne(b0: Utf8.Byte): string {
    [Letter(b0 / 4), Letter(b0 % 4 * 16), '=', '=']
  }

  function Encode(bs: seq<Utf8.Byte>): (t: string)
    ensures |t| == (|bs| + 2) / 3 * 4
    ensures forall i :: 0 <= i < |t| ==> InAlphabet(t[i]) || t[i] == '='
  {
    if |bs| == 0 then []
    else if |bs| == 1 then TailOfOne(bs[0])
    else if |bs| == 2 then TailOfTwo(bs[0], bs[1])
    else Group(bs[0], bs[1], bs[2]) + Encode(bs[3..])
  }

  /** The bytes of one four-letter group; `=` may only end the last group. */
  function DecodeQuad(q: string, last: bool): Option<seq<Utf8.Byte>>
    requires |q| == 4
  {
    match (LetterValue(q[0]), LetterValue(q[1]), LetterValue(q[2]), LetterValue(q[3]))
    case (Some(a), Some(b), Some(c), Some(d)) =>
      Some([a as int * 4 + b / 16, b % 16 * 16 + c / 4, c % 4 * 64 + d as int])
    case (Some(a), Some(b), Some(c), None) =>
      if last && q[3] == '=' then Some([a as int * 4 + b / 16, b % 16 * 16 + c / 4]) else None
    case (Some(a), Some(b), None, None) =>
      if last && q[2] == '=' && q[3] == '=' then Some([a as int * 4 + b / 16]) else None
    case _ => None
  }

  /** Decodes a padded base64 text; None when it is malformed. */
  function Decode(t: string): Option<seq<Utf8.Byte>>
    decreases |t|
  {
    if t == [] then Some([])
    else if |t| < 4 then None
    else match (DecodeQuad(t[..4], |t| == 4), Decode(t[4..]))
      case (Some(head), Some(rest)) => Some(head + rest)
      case _ => None
  }

  lemma GroupArithmetic(b0: Utf8.Byte, b1: Utf8.Byte, b2: Utf8.Byte)
    ensures var b := b0 % 4 * 16 + b1 / 16; var c := b1 % 16 * 4 + b2 / 64;
      && b0 / 4 * 4 + b / 16 == b0
      && b % 16 * 16 + c / 4 == b1
      && c % 4 * 64 + b2 % 64 == b2
  {
    var b := b0 % 4 * 16 + b1 / 16;
    var c := b1 % 16 * 4 + b2 / 64;
    assert b / 16 == b0 % 4 && b % 16 == b1 / 16;
    assert c / 4 == b1 % 16 && c % 4 == b2 / 64;
  }

  lemma DecodeGroup(b0: Utf8.Byte, b1: Utf8.Byte, b2: Utf8.Byte, last: bool)
    ensures DecodeQuad(Group(b0, b1, b2), last) == Some([b0, b1, b2])
  {
    var d0: Sextet, d1: Sextet, d2: Sextet, d3: Sextet := b0 / 4, b0 % 4 * 16 + b1 / 16, b1 % 16 * 4 + b2 / 64, b2 % 64;
    var q := Group(b0, b1, b2);
    assert q[0] == Letter(d0) && q[1] == Letter(d1) && q[2] == Letter(d2) && q[3] == Letter(d3);
    assert LetterValue(q[0]) == Some(d0) && LetterValue(q[1]) == Some(d1);
    assert LetterValue(q[2]) == Some(d2) && LetterValue(q[3]) == Some(d3);
    GroupArithmetic(b0, b1, b2);
  }

  lemma DecodeTailOfTwo(b0: Utf8.Byte, b1: Utf8.Byte)
    ensures DecodeQuad(TailOfTwo(b0, b1), true) == Some([b0, b1])
  {
    var d0: Sextet, d1: Sextet, d2: Sextet := b0 / 4, b0 % 4 * 16 + b1 / 16, b1 % 16 * 4;
    var q := TailOfTwo(b0, b1);
    assert q[0] == Letter(d0) && q[1] == Letter(d1) && q[2] == Letter(d2) && q[3] == '=';
    assert LetterValue(q[0]) == Some(d0) && LetterValue(q[1]) == Some(d1) && LetterValue(q[2]) == Some(d2);
    GroupArithmetic(b0, b1, 0);
  }

  lemma DecodeTailOfOne(b0: Utf8.Byte)
    ensures DecodeQuad(TailOfOne(b0), true) == Some([b0])
  {
    var d0: Sextet, d1: Sextet := b0 / 4, b0 % 4 * 16;
    var q := TailOfOne(b0);
    assert q[0] == Letter(d0) && q[1] == Letter(d1) && q[2] == '=' && q[3] == '=';
    assert LetterValue(q[0]) == Some(d0) && LetterValue(q[1]) == Some(d1);
    GroupArithmetic(b0, 0, 0);
  }

  lemma DecodeFirstQuad(q: string, rest: string, head: seq<Utf8.Byte>)
    requires |q| == 4 && DecodeQuad(q, rest == []) == Some(head)
    ensures Decode(q + rest) == match Decode(rest)
      case Some(more) => Some(head + more)
      case None => None
  {
    var t := q + rest;
    assert t[..4] == q && t[4..] == rest;
  }

  lemma DecodeTail(q: string, head: seq<Utf8.Byte>)
    requires |q| == 4 && DecodeQuad(q, true) == Some(head)
    ensures Decode(q) == Some(head)
  {
    DecodeFirstQuad(q, [], head);
    assert q + [] == q && head + [] == head;
  }

  lemma RoundTripOne(b0: Utf8.Byte)
    ensures Decode(Encode([b0])) == Some([b0])
  {
    assert Encode([b0]) == TailOfOne(b0);
    DecodeTailOfOne(b0);
    DecodeTail(TailOfOne(b0), [b0]);
  }

  lemma RoundTripTwo(b0: Utf8.Byte, b1: Utf8.Byte)
    ensures Decode(Encode([b0, b1])) == Some([b0, b1])
  {
    assert Encode([b0, b1]) == TailOfTwo(b0, b1);
    DecodeTailOfTwo(b0, b1);
    DecodeTail(TailOfTwo(b0, b1), [b0, b1]);
  }

  /** Decoding the encoding of any byte string gives back that string. */
  lemma {:induction false} RoundTrip(bs: seq<Utf8.Byte>)
    ensures Decode(Encode(bs)) == Some(bs)
  {
    if |bs| == 1 {
      RoundTripOne(bs[0]);
      assert [bs[0]] == bs;
    } else if |bs| == 2 {
      RoundTripTwo(bs[0], bs[1]);
      assert [bs[0], bs[1]] == bs;
    } else if |bs| >= 3 {
      var rest := Encode(bs[3..]);
      var q := Group(bs[0], bs[1], bs[2]);
      assert Encode(bs) == q + rest;
      DecodeGroup(bs[0], bs[1], bs[2], rest == []);
      RoundTrip(bs[3..]);
      DecodeFirstQuad(q, rest, [bs[0], bs[1], bs[2]]);
      assert [bs[0], bs[1], bs[2]] + bs[3..] == bs;
    }
  }
}
