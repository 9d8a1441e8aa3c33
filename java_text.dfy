/** The pieces of java.lang text handling that the connector relies on, restricted to what it
    uses: ASCII case mapping, Character.isWhitespace and StringUtil.isBlank,
    String.valueOf(int) and Integer.parseInt, 32-bit int addition, and String.split on a
    single literal character. */
module JavaText {
  import opened Wrappers

  // ----- ASCII letters, digits and case mapping -----

  predicate IsAsciiUpper(c: char) { 'A' <= c <= 'Z' }
  predicate IsAsciiLower(c: char) { 'a' <= c <= 'z' }
  predicate IsAsciiDigit(c: char) { '0' <= c <= '9' }
  predicate IsAsciiLetter(c: char) { IsAsciiUpper(c) || IsAsciiLower(c) }

  /** Character.toUpperCase restricted to ASCII: other characters are left alone. */
  function ToUpperChar(c: char): (u: char)
    ensures !IsAsciiLower(u)
    ensures IsAsciiLower(c) ==> IsAsciiUpper(u)
    ensures !IsAsciiLower(c) ==> u == c
  {
    if IsAsciiLower(c) then (c as int - 32) as char else c
  }

  /** Character.toLowerCase restricted to ASCII. */
  function ToLowerChar(c: char): (l: char)
    ensures !IsAsciiUpper(l)
    ensures IsAsciiUpper(c) ==> IsAsciiLower(l)
    ensures !IsAsciiUpper(c) ==> l == c
  {
    if IsAsciiUpper(c) then (c as int + 32) as char else c
  }

  lemma LowerOfUpper(c: char)
    requires IsAsciiLower(c) || IsAsciiDigit(c)
    ensures ToLowerChar(ToUpperChar(c)) == c
  {
  }

  /** String.toLowerCase restricted to ASCII. */
  function LowerString(s: string): (r: string)
  {
    seq(|s|, i requires 0 <= i < |s| => ToLowerChar(s[i]))
  }

  // ----- whitespace and blankness -----

  /** Character.isWhitespace: the Unicode space, line and paragraph separators except the
      no-break spaces U+00A0, U+2007 and U+202F, and the controls U+0009-U+000D, U+001C-U+001F. */
  predicate IsJavaWhitespace(c: char) {
    || c == ' ' || ('\t' <= c <= '\r') || ('\U{1C}' <= c <= '\U{1F}')
    || c == '\U{1680}' || ('\U{2000}' <= c <= '\U{2006}') || ('\U{2008}' <= c <= '\U{200A}')
    || c == '\U{2028}' || c == '\U{2029}' || c == '\U{205F}' || c == '\U{3000}'
  }

  /** StringUtil.isBlank: null, empty, or whitespace only. */
  predicate IsBlank(s: Option<string>) {
    s.None? || forall i :: 0 <= i < |s.value| ==> IsJavaWhitespace(s.value[i])
  }

  /** The text Java's string concatenation produces for a possibly null String. */
  function JavaString(s: Option<string>): string {
    if s.Some? then s.value else "null"
  }

  // ----- decimal rendering and parsing of ints -----

  const MinInt: int := -0x8000_0000
  const MaxInt: int := 0x7FFF_FFFF

  predicate IsInt32(n: int) { MinInt <= n <= MaxInt }

  /** Java int addition: the mathematical sum wrapped to 32 bits. */
  function AddInt32(a: int, b: int): (r: int)
    requires IsInt32(a) && IsInt32(b)
    ensures IsInt32(r)
    ensures IsInt32(a + b) ==> r == a + b
  {
    var m := (a + b - MinInt) % 0x1_0000_0000;
    m + MinInt
  }

  function DigitChar(d: int): char
    requires 0 <= d < 10
  {
    ('0' as int + d) as char
  }

  function NatToString(n: nat): string
    decreases n
  {
    if n < 10 then [DigitChar(n)] else NatToString(n / 10) + [DigitChar(n % 10)]
  }

  /** String.valueOf(int). */
  function IntToString(n: int): string {
    if n < 0 then "-" + NatToString(-n) else NatToString(n)
  }

  predicate AllDigits(s: string) {
    forall i :: 0 <= i < |s| ==> IsAsciiDigit(s[i])
  }

  function DigitsValue(s: string): nat
    requires AllDigits(s)
  {
    if |s| == 0 then 0 else DigitsValue(s[..|s| - 1]) * 10 + (s[|s| - 1] as int - '0' as int)
  }

  /** Integer.parseInt(s) (radix 10, ASCII digits): an optional sign, at least one digit, and a
      value that fits in 32 bits; anything else is a NumberFormatException. */
  function ParseInt(s: string): Result<int> {
    if |s| == 0 then Failure(NumberFormat)
    else
      var digits := if s[0] == '-' || s[0] == '+' then s[1..] else s;
      if |digits| == 0 || !AllDigits(digits) then Failure(NumberFormat)
      else
        var magnitude: int := DigitsValue(digits);
        var v := if s[0] == '-' then -magnitude else magnitude;
        if IsInt32(v) then Success(v) else Failure(NumberFormat)
  }

  lemma {:induction false} NatToStringDigits(n: nat)
    ensures |NatToString(n)| >= 1 && AllDigits(NatToString(n))
    ensures DigitsValue(NatToString(n)) == n
    decreases n
  {
    if n >= 10 {
      NatToStringDigits(n / 10);
      var s := NatToString(n);
      assert s[..|s| - 1] == NatToString(n / 10);
    }
  }

  /** Integer.parseInt reads back what String.valueOf(int) writes, for every Java int. */
  lemma ParseIntOfIntToString(n: int)
    requires IsInt32(n)
    ensures ParseInt(IntToString(n)) == Success(n)
  {
    var m: nat := if n < 0 then -n else n;
    NatToStringDigits(m);
    var digits := NatToString(m);
    assert IsAsciiDigit(digits[0]);
    var s := IntToString(n);
    if n < 0 {
      assert s == "-" + digits;
      assert s[1..] == digits;
    } else {
      assert s == digits;
    }
  }

  /** Distinct ints are rendered as distinct strings. */
  lemma IntToStringInjective(a: int, b: int)
    requires IsInt32(a) && IsInt32(b) && IntToString(a) == IntToString(b)
    ensures a == b
  {
    ParseIntOfIntToString(a);
    ParseIntOfIntToString(b);
  }

  // ----- String.split on one literal character -----

  /** Every piece between separators, empty pieces included (split with a negative limit). */
  function SplitAll(s: string, sep: char): (parts: seq<string>)
    ensures |parts| >= 1
    decreases |s|
  {
    if |s| == 0 then [""]
    else if s[0] == sep then [""] + SplitAll(s[1..], sep)
    else
      var rest := SplitAll(s[1..], sep);
      [[s[0]] + rest[0]] + rest[1..]
  }

  function DropTrailingEmpty(parts: seq<string>): seq<string> {
    if |parts| > 0 && parts[|parts| - 1] == "" then DropTrailingEmpty(parts[..|parts| - 1])
    else parts
  }

  /** String.split(String.valueOf(sep)): the input itself when the separator does not occur,
      otherwise every piece with the trailing empty pieces removed (a leading empty piece stays). */
  function Split(s: string, sep: char): seq<string> {
    if sep !in s then [s] else DropTrailingEmpty(SplitAll(s, sep))
  }

  function Join(parts: seq<string>, sep: char): string
    requires |parts| >= 1
  {
    if |parts| == 1 then parts[0] else parts[0] + [sep] + Join(parts[1..], sep)
  }

  lemma {:induction false} SplitAllPieces(s: string, sep: char)
    ensures forall k :: 0 <= k < |SplitAll(s, sep)| ==> sep !in SplitAll(s, sep)[k]
    decreases |s|
  {
    if |s| > 0 {
      SplitAllPieces(s[1..], sep);
    }
  }

  lemma {:induction false} JoinPrepend(c: char, parts: seq<string>, sep: char)
    requires |parts| >= 1
    ensures Join([[c] + parts[0]] + parts[1..], sep) == [c] + Join(parts, sep)
  {
    var ps := [[c] + parts[0]] + parts[1..];
    if |parts| > 1 {
      assert ps[1..] == parts[1..];
    }
  }

  /** Joining the pieces with the separator gives back the input. */
  lemma {:induction false} JoinOfSplitAll(s: string, sep: char)
    ensures Join(SplitAll(s, sep), sep) == s
    decreases |s|
  {
    if |s| > 0 {
      JoinOfSplitAll(s[1..], sep);
      var rest := SplitAll(s[1..], sep);
      if s[0] == sep {
        assert ([""] + rest)[1..] == rest;
      } else {
        JoinPrepend(s[0], rest, sep);
      }
    }
  }

  lemma {:induction false} SplitAllNoSep(p: string, sep: char)
    requires sep !in p
    ensures SplitAll(p, sep) == [p]
    decreases |p|
  {
    if |p| > 0 {
      SplitAllNoSep(p[1..], sep);
      assert [p[0]] + p[1..] == p;
    }
  }

  lemma {:induction false} SplitAllCons(p: string, sep: char, rest: string)
    requires sep !in p
    ensures SplitAll(p + [sep] + rest, sep) == [p] + SplitAll(rest, sep)
    decreases |p|
  {
    var s := p + [sep] + rest;
    if |p| == 0 {
      assert s[1..] == rest;
    } else {
      assert s[1..] == p[1..] + [sep] + rest;
      SplitAllCons(p[1..], sep, rest);
      assert [p[0]] + p[1..] == p;
    }
  }

  /** Splitting a join of separator-free pieces gives back the pieces. */
  lemma {:induction false} SplitAllOfJoin(parts: seq<string>, sep: char)
    requires |parts| >= 1
    requires forall k :: 0 <= k < |parts| ==> sep !in parts[k]
    ensures SplitAll(Join(parts, sep), sep) == parts
    decreases |parts|
  {
    if |parts| == 1 {
      SplitAllNoSep(parts[0], sep);
    } else {
      SplitAllOfJoin(parts[1..], sep);
      SplitAllCons(parts[0], sep, Join(parts[1..], sep));
    }
  }
}
