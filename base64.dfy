/** Base64: the encoding of section 4 of RFC 4648 (standard alphabet, `=` padding) that
    Base64.getEncoder().encodeToString applies to a batch operation's body, with the decoder that
    undoes it. */
module Base64 {
  import opened Wrappers
  import opened Utf8

  /** The 64 symbols of the alphabet, in value order: A-Z, a-z, 0-9, '+', '/'. */
  predicate IsSymbol(c: char) {
    'A' <= c <= 'Z' || 'a' <= c <= 'z' || '0' <= c <= '9' || c == '+' || c == '/'
  }

  const Pad: char := '='

  /** The value of a symbol; None for any other character, the pad included. */
  function Value(c: char): (r: Option<int>)
    ensures r.Some? <==> IsSymbol(c)
    ensures r.Some? ==> 0 <= r.value < 64
  {
    if 'A' <= c <= 'Z' then Some(c as int - 'A' as int)
    else if 'a' <= c <= 'z' then Some(c as int - 'a' as int + 26)
    else if '0' <= c <= '9' then Some(c as int - '0' as int + 52)
    else if c == '+' then Some(62)
    else if c == '/' then Some(63)
    else None
  }

  /** The symbol of a 6-bit value; Value reads it back. */
  function Symbol(v: int): (c: char)
    requires 0 <= v < 64
    ensures IsSymbol(c) && c != Pad
    ensures Value(c) == Some(v)
  {
    if v < 26 then ('A' as int + v) as char
    else if v < 52 then ('a' as int + v - 26) as char
    else if v < 62 then ('0' as int + v - 52) as char
    else if v == 62 then '+'
    else '/'
  }

  /** The four 6-bit groups of three octets a, b, c, high bits first. */
  function Sextets(a: Byte, b: Byte, c: Byte): seq<int> {
    [a / 4, (a % 4) * 16 + b / 16, (b % 16) * 4 + c / 64, c % 64]
  }

  /** The sextets are the 24-bit group a*2^16 + b*2^8 + c read six bits at a time. */
  lemma SextetsOfGroup(a: Byte, b: Byte, c: Byte)
    ensures var n := a * 65536 + b * 256 + c;
      Sextets(a, b, c) == [n / 262144, n / 4096 % 64, n / 64 % 64, n % 64]
  {
    var n := a * 65536 + b * 256 + c;
    var m := a * 1024 + b * 4 + c / 64;
    var h := a * 16 + b / 16;
    ShiftSix(a * 1024 + b * 4, c);
    ShiftSix(h, (b % 16) * 4 + c / 64);
    ShiftSix(a / 4, (a % 4) * 16 + b / 16);
    DivDiv(n);
    GroupDigits(n, m, h, a / 4, c % 64, (b % 16) * 4 + c / 64, (a % 4) * 16 + b / 16);
  }

  /** Reading n's sextets from the quotients of successive divisions by 64. */
  lemma GroupDigits(n: int, m: int, h: int, d3: int, d0: int, d1: int, d2: int)
    requires 0 <= n
    requires n / 64 == m && n % 64 == d0
    requires m / 64 == h && m % 64 == d1
    requires h / 64 == d3 && h % 64 == d2
    requires n / 4096 == n / 64 / 64 && n / 262144 == n / 4096 / 64
    ensures [d3, d2, d1, d0] == [n / 262144, n / 4096 % 64, n / 64 % 64, n % 64]
  {
  }

  /** Dropping the low six bits of x*64 + y. */
  lemma ShiftSix(x: int, y: int)
    requires 0 <= y
    ensures (x * 64 + y) / 64 == x + y / 64 && (x * 64 + y) % 64 == y % 64
  {
  }

  /** Dividing by 64 twice, or three times, is dividing by 4096, or by 262144. */
  lemma DivDiv(n: int)
    requires 0 <= n
    ensures n / 4096 == n / 64 / 64 && n / 262144 == n / 4096 / 64
  {
    var q := n / 64;
    assert n == 64 * q + n % 64;
    assert n / 4096 == q / 64;
    var p := n / 4096;
    assert n == 4096 * p + n % 4096;
    assert n / 262144 == p / 64;
  }

  /** encodeToString: whole groups of three octets give four symbols each; a final one or two
      octets give two or three symbols, padded to four with `=`. */
  function Encode(s: seq<Byte>): (r: string)
    ensures |r| == 4 * ((|s| + 2) / 3)
    ensures forall i :: 0 <= i < |r| ==> IsSymbol(r[i]) || r[i] == Pad
    decreases |s|
  {
    if |s| == 0 then ""
    else if |s| == 1 then
      var g := Sextets(s[0], 0, 0);
      [Symbol(g[0]), Symbol(g[1]), Pad, Pad]
    else if |s| == 2 then
      var g := Sextets(s[0], s[1], 0);
      [Symbol(g[0]), Symbol(g[1]), Symbol(g[2]), Pad]
    else
      var g := Sextets(s[0], s[1], s[2]);
      [Symbol(g[0]), Symbol(g[1]), Symbol(g[2]), Symbol(g[3])] + Encode(s[3..])
  }

  /** The octets of one quantum of four characters; `last` allows the padded forms. */
  function DecodeQuantum(q: string, last: bool): Option<seq<Byte>>
    requires |q| == 4
  {
    match (Value(q[0]), Value(q[1]), Value(q[2]), Value(q[3]))
    case (Some(v0), Some(v1), None, None) =>
      if last && q[2] == Pad && q[3] == Pad then Some([v0 * 4 + v1 / 16]) else None
    case (Some(v0), Some(v1), Some(v2), None) =>
      if last && q[3] == Pad then Some([v0 * 4 + v1 / 16, (v1 % 16) * 16 + v2 / 4]) else None
    case (Some(v0), Some(v1), Some(v2), Some(v3)) =>
      Some([v0 * 4 + v1 / 16, (v1 % 16) * 16 + v2 / 4, (v2 % 4) * 64 + v3])
    case _ => None
  }

  /** The octets of a text made of whole quanta, padding only at the end. */
  function Decode(t: string): Option<seq<Byte>>
    decreases |t|
  {
    if |t| == 0 then Some([])
    else if |t| < 4 then None
    else
      match DecodeQuantum(t[..4], |t| == 4)
      case None => None
      case Some(head) =>
        match Decode(t[4..])
        case None => None
        case Some(rest) => Some(head + rest)
  }

  /** The octets a sextet group was made of come back out of it. */
  lemma OctetsOfSextets(a: Byte, b: Byte, c: Byte)
    ensures var g := Sextets(a, b, c);
      g[0] * 4 + g[1] / 16 == a && (g[1] % 16) * 16 + g[2] / 4 == b && (g[2] % 4) * 64 + g[3] == c
  {
  }

  lemma DecodeOneOctet(a: Byte)
    ensures Decode(Encode([a])) == Some([a])
  {
    var g := Sextets(a, 0, 0);
    var t := Encode([a]);
    assert t == [Symbol(g[0]), Symbol(g[1]), Pad, Pad];
    OctetsOfSextets(a, 0, 0);
    assert Value(t[0]) == Some(g[0]) && Value(t[1]) == Some(g[1]) && Value(t[2]) == None && Value(t[3]) == None;
    assert DecodeQuantum(t, true) == Some([a]);
    assert t[..4] == t && t[4..] == "";
    assert [a] + [] == [a];
  }

  lemma DecodeTwoOctets(a: Byte, b: Byte)
    ensures Decode(Encode([a, b])) == Some([a, b])
  {
    var g := Sextets(a, b, 0);
    var t := Encode([a, b]);
    assert t == [Symbol(g[0]), Symbol(g[1]), Symbol(g[2]), Pad];
    OctetsOfSextets(a, b, 0);
    assert Value(t[0]) == Some(g[0]) && Value(t[1]) == Some(g[1]) && Value(t[2]) == Some(g[2]) && Value(t[3]) == None;
    assert DecodeQuantum(t, true) == Some([a, b]);
    assert t[..4] == t && t[4..] == "";
    assert [a, b] + [] == [a, b];
  }

  lemma DecodeWholeQuantum(s: seq<Byte>)
    requires |s| >= 3
    ensures var t := Encode(s);
      |t| >= 4 && DecodeQuantum(t[..4], |t| == 4) == Some(s[..3]) && t[4..] == Encode(s[3..])
  {
    var t := Encode(s);
    OctetsOfSextets(s[0], s[1], s[2]);
    assert DecodeQuantum(t[..4], |t| == 4) == Some([s[0], s[1], s[2]]);
    assert [s[0], s[1], s[2]] == s[..3];
  }

  /** Decoding undoes encodeToString. */
  lemma {:induction false} DecodeEncode(s: seq<Byte>)
    ensures Decode(Encode(s)) == Some(s)
    decreases |s|
  {
    if |s| == 0 {
    } else if |s| == 1 {
      assert s == [s[0]];
      DecodeOneOctet(s[0]);
    } else if |s| == 2 {
      assert s == [s[0], s[1]];
      DecodeTwoOctets(s[0], s[1]);
    } else {
      DecodeWholeQuantum(s);
      DecodeEncode(s[3..]);
      assert s[..3] + s[3..] == s;
    }
  }
}
