/** UTF-8 as section 3 of RFC 3629 defines it: what `Buffer.from(text)`
    produces from a string and what `encodeURIComponent` percent-encodes. */
module Utf8 {
  import opened Wrappers

  type Byte = b: int | 0 <= b < 256

  /** Unicode scalar values are exactly the values a `char` holds. */
  predicate IsScalar(n: int) {
    0 <= n < 0xD800 || 0xE000 <= n < 0x11_0000
  }

  predicate IsContinuation(b: Byte) {
    0x80 <= b < 0xC0
  }

  /** The one to four bytes of a character. */
  function EncodeChar(c: char): (bs: seq<Byte>)
    ensures 1 <= |bs| <= 4
    ensures |bs| == 1 <==> c as int < 0x80
    ensures |bs| == 1 ==> bs[0] == c as int
    ensures forall i :: 1 <= i < |bs| ==> IsContinuation(bs[i])
  {
    var n := c as int;
    if n < 0x80 then [n]
    else if n < 0x800 then [0xC0 + n / 64, 0x80 + n % 64]
    else if n < 0x1_0000 then [0xE0 + n / 4096, 0x80 + (n / 64) % 64, 0x80 + n % 64]
    else [0xF0 + n / 262144, 0x80 + (n / 4096) % 64, 0x80 + (n / 64) % 64, 0x80 + n % 64]
  }

  function Encode(s: string): (bs: seq<Byte>)
    ensures |bs| >= |s|
  {
    if s == [] then [] else EncodeChar(s[0]) + Encode(s[1..])
  }

  /** How many bytes a sequence starting with `lead` has; 0 when `lead`
      cannot start one. */
  function SequenceLength(lead: Byte): nat {
    if lead < 0x80 then 1
    else if 0xC2 <= lead < 0xE0 then 2
    else if 0xE0 <= lead < 0xF0 then 3
    else if 0xF0 <= lead < 0xF5 then 4
    else 0
  }

  predicate Continuations(bs: seq<Byte>) {
    forall i :: 1 <= i < |bs| ==> IsContinuation(bs[i])
  }

  /** The value a multi-byte sequence carries in its payload bits. */
  function CodePoint(bs: seq<Byte>): int
    requires 2 <= |bs| <= 4
  {
    if |bs| == 2 then (bs[0] as int - 0xC0) * 64 + (bs[1] as int - 0x80)
    else if |bs| == 3 then (bs[0] as int - 0xE0) * 4096 + (bs[1] as int - 0x80) * 64 + (bs[2] as int - 0x80)
    else (bs[0] as int - 0xF0) * 262144 + (bs[1] as int - 0x80) * 4096 + (bs[2] as int - 0x80) * 64 + (bs[3] as int - 0x80)
  }

  /** Decodes one complete sequence, refusing overlong forms, surrogates
      and values beyond U+10FFFF. */
  function DecodeChar(bs: seq<Byte>): Option<char>
    requires 1 <= |bs| <= 4 && |bs| == SequenceLength(bs[0])
  {
    if |bs| == 1 then Some(bs[0] as char)
    else if !Continuations(bs) then None
    else
      var n := CodePoint(bs);
      if (|bs| == 3 && n < 0x800) || (|bs| == 4 && n < 0x1_0000) || !IsScalar(n) then None
      else Some(n as char)
  }

  function Decode(bs: seq<Byte>): Option<string>
    decreases |bs|
  {
    if bs == [] then Some([])
    else
      var k := SequenceLength(bs[0]);
      if k == 0 || |bs| < k then None
      else match DecodeChar(bs[..k])
        case None => None
        case Some(c) =>
          match Decode(bs[k..])
          case None => None
          case Some(rest) => Some([c] + rest)
  }

  lemma SplitBy64(n: int)
    requires 0 <= n
    ensures n == (n / 64) * 64 + n % 64 && n / 4096 == (n / 64) / 64 && n / 262144 == (n / 4096) / 64
  {
    var q := n / 64;
    var r := q / 64;
    assert n == q * 64 + n % 64;
    assert q == r * 64 + q % 64;
    assert n == r * 4096 + (q % 64) * 64 + n % 64;
    var s := r / 64;
    assert r == s * 64 + r % 64;
    assert n == s * 262144 + (r % 64) * 4096 + (q % 64) * 64 + n % 64;
  }

  lemma CodePointOfEncodeChar(c: char)
    requires 0x80 <= c as int
    ensures CodePoint(EncodeChar(c)) == c as int
  {
    var n := c as int;
    SplitBy64(n);
    SplitBy64(n / 64);
  }

  lemma DecodeEncodeChar(c: char)
    ensures SequenceLength(EncodeChar(c)[0]) == |EncodeChar(c)|
    ensures DecodeChar(EncodeChar(c)) == Some(c)
  {
    if 0x80 <= c as int {
      CodePointOfEncodeChar(c);
    }
  }

  /** Decoding the bytes of a string gives back the string. */
  lemma {:induction false} RoundTrip(s: string)
    ensures Decode(Encode(s)) == Some(s)
  {
    if s != [] {
      var head := EncodeChar(s[0]);
      var bs := Encode(s);
      DecodeEncodeChar(s[0]);
      assert bs == head + Encode(s[1..]);
      assert bs[0] == head[0];
      assert bs[..|head|] == head;
      assert bs[|head|..] == Encode(s[1..]);
      RoundTrip(s[1..]);
      assert [s[0]] + s[1..] == s;
    }
  }

  /** On ASCII text the encoding is the sequence of character codes. */
  lemma {:induction false} EncodeAscii(s: string)
    requires forall i :: 0 <= i < |s| ==> s[i] as int < 0x80
    ensures Encode(s) == seq(|s|, i requires 0 <= i < |s| => s[i] as int)
  {
    if s != [] {
      EncodeAscii(s[1..]);
    }
  }

  lemma {:induction false} EncodeAppend(s: string, t: string)
    ensures Encode(s + t) == Encode(s) + Encode(t)
  {
    if s != [] {
      assert (s + t)[0] == s[0] && (s + t)[1..] == s[1..] + t;
      EncodeAppend(s[1..], t);
      calc {
        Encode(s + t);
        EncodeChar(s[0]) + Encode(s[1..] + t);
        EncodeChar(s[0]) + (Encode(s[1..]) + Encode(t));
        (EncodeChar(s[0]) + Encode(s[1..])) + Encode(t);
      }
    } else {
      assert s + t == t;
    }
  }
}
