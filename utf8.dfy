/** Utf8: the UTF-8 encoding of RFC 3629, as String.getBytes(StandardCharsets.UTF_8) applies it to
    the JSON text of a batch operation's body. A Dafny `char` is a Unicode scalar value, so each
    character is one code point and no unpaired surrogate can occur. */
module Utf8 {
  import opened Wrappers

  type Byte = b: int | 0 <= b < 256

  /** The number of octets section 3 of RFC 3629 uses for a code point. */
  function Width(c: char): nat {
    var v := c as int;
    if v < 0x80 then 1 else if v < 0x800 then 2 else if v < 0x1_0000 then 3 else 4
  }

  predicate IsContinuation(b: Byte) { 0x80 <= b < 0xC0 }

  /** The octets of one code point: a lead octet that announces the width, then continuation
      octets carrying six bits each. */
  function EncodeChar(c: char): (bs: seq<Byte>)
    ensures |bs| == Width(c)
    ensures (c as int) < 0x80 ==> bs == [c as int]
    ensures forall i :: 0 < i < |bs| ==> IsContinuation(bs[i])
  {
    var v := c as int;
    var q := v / 64;
    var q2 := q / 64;
    if v < 0x80 then [v]
    else if v < 0x800 then [0xC0 + q, 0x80 + v % 64]
    else if v < 0x1_0000 then [0xE0 + q2, 0x80 + q % 64, 0x80 + v % 64]
    else [0xF0 + q2 / 64, 0x80 + q2 % 64, 0x80 + q % 64, 0x80 + v % 64]
  }

  function Encode(s: string): (bs: seq<Byte>)
    ensures |bs| >= |s|
  {
    if |s| == 0 then [] else EncodeChar(s[0]) + Encode(s[1..])
  }

  /** The code point at the head of `bs` and its width, or None when the head is not a
      well-formed sequence: a stray continuation octet, a truncated sequence, an overlong form,
      a surrogate or a value past U+10FFFF (section 4 of RFC 3629). */
  function DecodeHead(bs: seq<Byte>): Option<(char, nat)>
    requires |bs| > 0
  {
    var b0 := bs[0] as int;
    if b0 < 0x80 then Some((b0 as char, 1))
    else if 0xC2 <= b0 < 0xE0 then
      if |bs| < 2 || !IsContinuation(bs[1]) then None
      else Some((((b0 - 0xC0) * 64 + (bs[1] as int - 0x80)) as char, 2))
    else if 0xE0 <= b0 < 0xF0 then
      if |bs| < 3 || !IsContinuation(bs[1]) || !IsContinuation(bs[2]) then None
      else
        var v := ((b0 - 0xE0) * 64 + (bs[1] as int - 0x80)) * 64 + (bs[2] as int - 0x80);
        if v < 0x800 || 0xD800 <= v < 0xE000 then None else Some((v as char, 3))
    else if 0xF0 <= b0 < 0xF5 then
      if |bs| < 4 || !IsContinuation(bs[1]) || !IsContinuation(bs[2]) || !IsContinuation(bs[3]) then None
      else
        var v := (((b0 - 0xF0) * 64 + (bs[1] as int - 0x80)) * 64 + (bs[2] as int - 0x80)) * 64 + (bs[3] as int - 0x80);
        if v < 0x1_0000 || v > 0x10_FFFF then None else Some((v as char, 4))
    else None
  }

  /** The text of a well-formed octet sequence. */
  function Decode(bs: seq<Byte>): Option<string>
    decreases |bs|
  {
    if |bs| == 0 then Some("")
    else
      match DecodeHead(bs)
      case None => None
      case Some((c, w)) =>
        if w == 0 || w > |bs| then None
        else
          match Decode(bs[w..])
          case None => None
          case Some(rest) => Some([c] + rest)
  }

  /** A code point's octets decode to that code point, whatever follows them. */
  lemma DecodeHeadOfEncodeChar(c: char, rest: seq<Byte>)
    ensures DecodeHead(EncodeChar(c) + rest) == Some((c, Width(c)))
  {
    var v := c as int;
    if v < 0x80 {
    } else if v < 0x800 {
      DecodeTwo(c, rest);
    } else if v < 0x1_0000 {
      DecodeThree(c, rest);
    } else {
      DecodeFour(c, rest);
    }
  }

  lemma DecodeTwo(c: char, rest: seq<Byte>)
    requires 0x80 <= c as int < 0x800
    ensures DecodeHead(EncodeChar(c) + rest) == Some((c, 2))
  {
    var v := c as int;
    var bs := EncodeChar(c) + rest;
    assert bs[0] == 0xC0 + v / 64 && bs[1] == 0x80 + v % 64;
    assert (bs[0] as int - 0xC0) * 64 + (bs[1] as int - 0x80) == v;
  }

  lemma DecodeThree(c: char, rest: seq<Byte>)
    requires 0x800 <= c as int < 0x1_0000
    ensures DecodeHead(EncodeChar(c) + rest) == Some((c, 3))
  {
    var v := c as int;
    var q := v / 64;
    var bs := EncodeChar(c) + rest;
    assert bs[0] == 0xE0 + q / 64 && bs[1] == 0x80 + q % 64 && bs[2] == 0x80 + v % 64;
    assert (bs[0] as int - 0xE0) * 64 + (bs[1] as int - 0x80) == q;
  }

  lemma DecodeFour(c: char, rest: seq<Byte>)
    requires 0x1_0000 <= c as int
    ensures DecodeHead(EncodeChar(c) + rest) == Some((c, 4))
  {
    var v := c as int;
    var q := v / 64;
    var q2 := q / 64;
    var bs := EncodeChar(c) + rest;
    assert bs[0] == 0xF0 + q2 / 64 && bs[1] == 0x80 + q2 % 64 && bs[2] == 0x80 + q % 64 && bs[3] == 0x80 + v % 64;
    assert (bs[0] as int - 0xF0) * 64 + (bs[1] as int - 0x80) == q2;
    assert ((bs[0] as int - 0xF0) * 64 + (bs[1] as int - 0x80)) * 64 + (bs[2] as int - 0x80) == q;
  }

  /** Decoding undoes encoding. */
  lemma {:induction false} DecodeEncode(s: string)
    ensures Decode(Encode(s)) == Some(s)
  {
    if |s| > 0 {
      var bs := Encode(s);
      DecodeHeadOfEncodeChar(s[0], Encode(s[1..]));
      assert bs[Width(s[0])..] == Encode(s[1..]);
      DecodeEncode(s[1..]);
      assert [s[0]] + s[1..] == s;
    }
  }

  /** Different texts have different octets. */
  lemma EncodeInjective(s: string, t: string)
    requires Encode(s) == Encode(t)
    ensures s == t
  {
    DecodeEncode(s);
    DecodeEncode(t);
  }
}
