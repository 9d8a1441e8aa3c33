/** SNUtils: the error helpers, the emptiness test, and the translation between the service's
    snake_case attribute names (`user_name`) and the connector's camelCase field names (`userName`). */
module SNUtils {
  import opened Wrappers
  import opened JavaText
  import opened Framework

  // ----- error helpers -----

  /** handleGeneralError(message): always throws a ConnectorException carrying the message. */
  function HandleGeneralError(message: string): (o: Outcome)
    ensures o.Fail? && o.error.IsConnectorException()
    ensures o.error.ConnectorError? && o.error.message == message
  {
    Fail(ConnectorError(message))
  }

  /** wrapGeneralError(message, ex): always throws; a ConnectorException is rethrown as it is and
      anything else is wrapped in one. */
  function WrapGeneralError(message: string, ex: Failure): (o: Outcome)
    ensures o.Fail? && o.error.IsConnectorException()
    ensures ex.IsConnectorException() ==> o.error == ex
    ensures !ex.IsConnectorException() ==> o.error == Wrapped(ex)
  {
    Fail(if ex.IsConnectorException() then ex else Wrapped(ex))
  }

  /** isEmptyObject: null, an empty list, or a blank string. */
  function IsEmptyObject(o: Obj): (r: bool)
    ensures r <==> o.Null? || (o.ListOf? && |o.items| == 0) || (o.Str? && IsBlank(Some(o.s)))
    ensures o.Str? && (exists i :: 0 <= i < |o.s| && !IsJavaWhitespace(o.s[i])) ==> !r
  {
    match o
    case Null => true
    case ListOf(items) => |items| == 0
    case Str(s) => IsBlank(Some(s))
    case _ => false
  }

  // ----- snake_case to camelCase -----

  predicate HasDoubleUnderscore(s: string)
    decreases |s|
  {
    |s| >= 2 && ((s[0] == '_' && s[1] == '_') || HasDoubleUnderscore(s[1..]))
  }

  /** One part with its first character upper-cased and the rest lower-cased. */
  function Capitalized(p: string): string
    requires |p| > 0
  {
    [ToUpperChar(p[0])] + LowerString(p[1..])
  }

  predicate AllNonEmpty(parts: seq<string>) {
    forall i :: 0 <= i < |parts| ==> |parts[i]| > 0
  }

  /** The capitalised parts, concatenated in order. */
  function CapitalizedBody(parts: seq<string>): string
    requires AllNonEmpty(parts)
  {
    if |parts| == 0 then "" else Capitalized(parts[0]) + CapitalizedBody(parts[1..])
  }

  /** The concatenation the loop of fromUnderscoredToCamelCase builds; an empty part makes
      `substring(0, 1)` throw. */
  function ConcatCapitalized(parts: seq<string>): Result<string> {
    if AllNonEmpty(parts) then Success(CapitalizedBody(parts)) else Failure(IndexOutOfBounds)
  }

  /** fromUnderscoredToCamelCase: the input itself when it has no `_` or has `__`; otherwise the
      parts of `split("_")` capitalised and concatenated, with the very first character lower-cased.
      An empty part (a leading `_`) or an empty concatenation throws. */
  function UnderscoredToCamel(s: string): Result<string> {
    if '_' !in s || HasDoubleUnderscore(s) then Success(s)
    else
      match ConcatCapitalized(Split(s, '_'))
      case Failure(e) => Failure(e)
      case Success(c) => if |c| == 0 then Failure(IndexOutOfBounds) else Success([ToLowerChar(c[0])] + c[1..])
  }

  lemma {:induction false} CapitalizedBodySnoc(parts: seq<string>, p: string)
    requires AllNonEmpty(parts) && |p| > 0
    ensures AllNonEmpty(parts + [p])
    ensures CapitalizedBody(parts + [p]) == CapitalizedBody(parts) + Capitalized(p)
    decreases |parts|
  {
    if |parts| == 0 {
      assert parts + [p] == [p];
    } else {
      assert (parts + [p])[1..] == parts[1..] + [p];
      CapitalizedBodySnoc(parts[1..], p);
    }
  }

  /** The loop of fromUnderscoredToCamelCase, accumulating `camelCaseString` part by part. */
  method FromUnderscoredToCamelCase(str: string) returns (r: Result<string>)
    ensures r == UnderscoredToCamel(str)
  {
    if '_' !in str || HasDoubleUnderscore(str) {
      return Success(str);
    }
    var parts := Split(str, '_');
    var camel := "";
    for i := 0 to |parts|
      invariant AllNonEmpty(parts[..i])
      invariant camel == CapitalizedBody(parts[..i])
    {
      if |parts[i]| == 0 {
        assert !AllNonEmpty(parts);
        return Failure(IndexOutOfBounds);
      }
      CapitalizedBodySnoc(parts[..i], parts[i]);
      assert parts[..i + 1] == parts[..i] + [parts[i]];
      camel := camel + Capitalized(parts[i]);
    }
    assert parts[..|parts|] == parts;
    if |camel| == 0 {
      return Failure(IndexOutOfBounds);
    }
    r := Success([ToLowerChar(camel[0])] + camel[1..]);
  }

  // ----- camelCase to snake_case -----

  /** replaceAll("([a-z])([A-Z]+)", "$1_$2"): one `_` between every lower-case letter and an
      upper-case letter right after it. */
  function InsertUnderscores(s: string): string
    decreases |s|
  {
    if |s| < 2 then s
    else if IsAsciiLower(s[0]) && IsAsciiUpper(s[1]) then [s[0], '_'] + InsertUnderscores(s[1..])
    else [s[0]] + InsertUnderscores(s[1..])
  }

  /** fromCamelCaseToUnderscored: the underscores inserted, then everything lower-cased. */
  function CamelToUnderscored(s: string): (r: string)
    ensures forall i :: 0 <= i < |r| ==> !IsAsciiUpper(r[i])
  {
    LowerString(InsertUnderscores(s))
  }

  // ----- facts about the translation -----

  lemma {:induction false} DropTrailingEmptyPrefix(parts: seq<string>)
    ensures |DropTrailingEmpty(parts)| <= |parts|
    ensures DropTrailingEmpty(parts) == parts[..|DropTrailingEmpty(parts)|]
    decreases |parts|
  {
    if |parts| > 0 && parts[|parts| - 1] == "" {
      DropTrailingEmptyPrefix(parts[..|parts| - 1]);
    }
  }

  lemma SplitPieces(s: string, sep: char)
    ensures forall k :: 0 <= k < |Split(s, sep)| ==> sep !in Split(s, sep)[k]
  {
    if sep in s {
      SplitAllPieces(s, sep);
      DropTrailingEmptyPrefix(SplitAll(s, sep));
    }
  }

  lemma {:induction false} CapitalizedBodyAvoids(parts: seq<string>, x: char)
    requires AllNonEmpty(parts)
    requires forall k :: 0 <= k < |parts| ==> x !in parts[k]
    requires !IsAsciiLetter(x)
    ensures x !in CapitalizedBody(parts)
    decreases |parts|
  {
    if |parts| > 0 {
      CapitalizedBodyAvoids(parts[1..], x);
      var p := parts[0];
      assert forall i :: 1 <= i < |p| ==> p[i] in p;
    }
  }

  /** A converted name contains no `_`. */
  lemma CamelHasNoUnderscore(s: string)
    requires '_' in s && !HasDoubleUnderscore(s) && UnderscoredToCamel(s).Success?
    ensures '_' !in UnderscoredToCamel(s).value
  {
    var parts := Split(s, '_');
    SplitPieces(s, '_');
    CapitalizedBodyAvoids(parts, '_');
    var c := CapitalizedBody(parts);
    assert forall i :: 1 <= i < |c| ==> c[i] in c;
  }

  /** A leading `_` makes the conversion throw: the first part is empty, or there are no parts. */
  lemma LeadingUnderscoreFails(s: string)
    requires |s| > 0 && s[0] == '_' && !HasDoubleUnderscore(s)
    ensures UnderscoredToCamel(s).Failure?
  {
    var all := SplitAll(s, '_');
    assert all[0] == "";
    DropTrailingEmptyPrefix(all);
    var parts := Split(s, '_');
    if |parts| > 0 {
      assert parts[0] == "";
      assert !AllNonEmpty(parts);
    }
  }

  lemma {:induction false} SplitAllSnoc(s: string, sep: char)
    ensures SplitAll(s + [sep], sep) == SplitAll(s, sep) + [""]
    decreases |s|
  {
    if |s| == 0 {
      assert ([sep])[1..] == [];
    } else {
      assert (s + [sep])[1..] == s[1..] + [sep];
      SplitAllSnoc(s[1..], sep);
    }
  }

  /** A trailing `_` is dropped by `split`, so it does not change the result of a name without
      `__` (one with `__` is returned as it is). */
  lemma TrailingUnderscoreIgnored(s: string)
    requires '_' in s && s[|s| - 1] != '_' && !HasDoubleUnderscore(s)
    ensures UnderscoredToCamel(s + "_") == UnderscoredToCamel(s)
  {
    var t := s + "_";
    assert '_' in t by { assert t[|s|] == '_'; }
    var all := SplitAll(s, '_');
    SplitAllSnoc(s, '_');
    assert (all + [""])[..|all|] == all;
    assert Split(t, '_') == DropTrailingEmpty(all + [""]) == DropTrailingEmpty(all) == Split(s, '_');
    HasDoubleUnderscoreSnoc(s);
  }

  lemma {:induction false} HasDoubleUnderscoreSnoc(s: string)
    requires |s| > 0 && s[|s| - 1] != '_'
    ensures HasDoubleUnderscore(s + "_") == HasDoubleUnderscore(s)
    decreases |s|
  {
    var t := s + "_";
    if |s| >= 2 {
      assert t[1..] == s[1..] + "_";
      HasDoubleUnderscoreSnoc(s[1..]);
    }
  }

  // ----- the round trip -----

  predicate LowerOrDigit(c: char) { IsAsciiLower(c) || IsAsciiDigit(c) }

  predicate LowerDigitPart(p: string) {
    |p| > 0 && forall j :: 0 <= j < |p| ==> LowerOrDigit(p[j])
  }

  function Last(s: string): char
    requires |s| > 0
  {
    s[|s| - 1]
  }

  /** The parts of a snake_case name that survives both translations: non-empty parts of lower-case
      letters and digits; at every `_` a lower-case letter on both sides; and every part strictly
      between two others at least two characters long, so that its last letter stays lower-case
      after capitalisation. */
  predicate SnakeParts(parts: seq<string>) {
    && |parts| >= 1
    && (forall i :: 0 <= i < |parts| ==> LowerDigitPart(parts[i]))
    && (forall i :: 0 <= i < |parts| - 1 ==> IsAsciiLower(Last(parts[i])))
    && (forall i :: 0 < i < |parts| ==> IsAsciiLower(parts[i][0]))
    && (forall i :: 0 < i < |parts| - 1 ==> |parts[i]| >= 2)
  }

  /** The camelCase name of well-formed parts: the first part as it is, then the others capitalised. */
  function CamelName(parts: seq<string>): string
    requires SnakeParts(parts)
  {
    assert AllNonEmpty(parts[1..]) by {
      forall i | 0 <= i < |parts[1..]| ensures |parts[1..][i]| > 0 {
        assert LowerDigitPart(parts[i + 1]);
      }
    }
    parts[0] + CapitalizedBody(parts[1..])
  }

  /** The snake_case name of the parts. */
  function SnakeName(parts: seq<string>): string
    requires |parts| >= 1
  {
    Join(parts, '_')
  }

  predicate NoUpperAfterFirst(s: string) {
    forall j :: 1 <= j < |s| ==> !IsAsciiUpper(s[j])
  }

  lemma LowerStringOfLower(s: string)
    requires forall j :: 0 <= j < |s| ==> !IsAsciiUpper(s[j])
    ensures LowerString(s) == s
  {
  }

  lemma LowerStringConcat(a: string, b: string)
    ensures LowerString(a + b) == LowerString(a) + LowerString(b)
  {
  }

  lemma {:induction false} InsertUnderscoresPlain(s: string)
    requires NoUpperAfterFirst(s)
    ensures InsertUnderscores(s) == s
    decreases |s|
  {
    if |s| >= 2 {
      InsertUnderscoresPlain(s[1..]);
    }
  }

  lemma {:induction false} InsertUnderscoresConcat(x: string, y: string)
    requires |x| > 0
    ensures InsertUnderscores(x + y) ==
      InsertUnderscores(x) + (if |y| > 0 && IsAsciiLower(Last(x)) && IsAsciiUpper(y[0]) then "_" else "") + InsertUnderscores(y)
    decreases |x|
  {
    var xy := x + y;
    if |x| == 1 {
      if |y| > 0 {
        assert xy[1..] == y;
      } else {
        assert xy == x;
      }
    } else {
      assert xy[1..] == x[1..] + y;
      InsertUnderscoresConcat(x[1..], y);
    }
  }

  /** `_` followed by each capitalised part. */
  function UnderscoredCaps(parts: seq<string>): string
    requires AllNonEmpty(parts)
  {
    if |parts| == 0 then "" else "_" + Capitalized(parts[0]) + UnderscoredCaps(parts[1..])
  }

  /** `_` followed by each part. */
  function UnderscoredParts(parts: seq<string>): string {
    if |parts| == 0 then "" else "_" + parts[0] + UnderscoredParts(parts[1..])
  }

  lemma CapitalizedOfLower(p: string)
    requires LowerDigitPart(p)
    ensures Capitalized(p)[1..] == p[1..]
    ensures NoUpperAfterFirst(Capitalized(p))
    ensures LowerString(Capitalized(p)) == p
    ensures IsAsciiLower(p[0]) ==> IsAsciiUpper(Capitalized(p)[0])
  {
    LowerStringOfLower(p[1..]);
    LowerOfUpper(p[0]);
  }

  /** Camel parts: each one non-empty, of lower-case letters and digits, starting with a letter,
      and every one but the last at least two characters long and ending with a letter. */
  predicate CamelTail(qs: seq<string>) {
    && AllNonEmpty(qs)
    && (forall i :: 0 <= i < |qs| ==> LowerDigitPart(qs[i]) && IsAsciiLower(qs[i][0]))
    && (forall i :: 0 <= i < |qs| - 1 ==> |qs[i]| >= 2 && IsAsciiLower(Last(qs[i])))
  }

  /** What the rest of camel parts keeps, and what the capitalised first part looks like. */
  lemma CamelTailStep(qs: seq<string>)
    requires CamelTail(qs) && |qs| > 0
    ensures CamelTail(qs[1..])
    ensures |Capitalized(qs[0])| > 0 && NoUpperAfterFirst(Capitalized(qs[0]))
    ensures IsAsciiUpper(Capitalized(qs[0])[0])
    ensures |qs| > 1 ==> IsAsciiLower(Last(Capitalized(qs[0])))
  {
    var q := qs[0];
    var rest := qs[1..];
    forall i | 0 <= i < |rest|
      ensures |rest[i]| > 0 && LowerDigitPart(rest[i]) && IsAsciiLower(rest[i][0])
    {
      assert rest[i] == qs[i + 1];
    }
    forall i | 0 <= i < |rest| - 1
      ensures |rest[i]| >= 2 && IsAsciiLower(Last(rest[i]))
    {
      assert rest[i] == qs[i + 1];
    }
    assert LowerDigitPart(q) && IsAsciiLower(q[0]);
    CapitalizedOfLower(q);
    if |qs| > 1 {
      assert |q| >= 2 && IsAsciiLower(Last(q));
      var g := Capitalized(q);
      assert Last(g) == g[1..][|g| - 2] == Last(q);
    }
  }

  /** One step of InsertIntoCamel: a capitalised part after a lower-case letter gets its `_`. */
  lemma InsertBeforeCapital(f: string, g: string, tail: string, tailU: string)
    requires |f| > 0 && NoUpperAfterFirst(f) && IsAsciiLower(Last(f))
    requires |g| > 0 && IsAsciiUpper(g[0])
    requires InsertUnderscores(g + tail) == g + tailU
    ensures InsertUnderscores(f + (g + tail)) == f + ("_" + g + tailU)
  {
    InsertUnderscoresPlain(f);
    var y := g + tail;
    assert y[0] == g[0];
    InsertUnderscoresConcat(f, y);
  }

  lemma {:induction false} InsertIntoCamel(f: string, qs: seq<string>)
    requires |f| > 0 && NoUpperAfterFirst(f)
    requires CamelTail(qs)
    requires |qs| > 0 ==> IsAsciiLower(Last(f))
    ensures InsertUnderscores(f + CapitalizedBody(qs)) == f + UnderscoredCaps(qs)
    decreases |qs|
  {
    if |qs| == 0 {
      InsertUnderscoresPlain(f);
      assert f + CapitalizedBody(qs) == f;
    } else {
      var rest := qs[1..];
      var g := Capitalized(qs[0]);
      CamelTailStep(qs);
      InsertIntoCamel(g, rest);
      InsertBeforeCapital(f, g, CapitalizedBody(rest), UnderscoredCaps(rest));
      assert CapitalizedBody(qs) == g + CapitalizedBody(rest);
      assert UnderscoredCaps(qs) == "_" + g + UnderscoredCaps(rest);
    }
  }

  lemma {:induction false} LowerUnderscoredCaps(qs: seq<string>)
    requires AllNonEmpty(qs)
    requires forall i :: 0 <= i < |qs| ==> LowerDigitPart(qs[i])
    ensures LowerString(UnderscoredCaps(qs)) == UnderscoredParts(qs)
    decreases |qs|
  {
    if |qs| > 0 {
      CapitalizedOfLower(qs[0]);
      LowerUnderscoredCaps(qs[1..]);
      LowerStringConcat("_" + Capitalized(qs[0]), UnderscoredCaps(qs[1..]));
      LowerStringConcat("_", Capitalized(qs[0]));
    }
  }

  lemma {:induction false} JoinAsUnderscored(parts: seq<string>)
    requires |parts| >= 1
    ensures Join(parts, '_') == parts[0] + UnderscoredParts(parts[1..])
    decreases |parts|
  {
    if |parts| > 1 {
      JoinAsUnderscored(parts[1..]);
      assert parts[1..][1..] == parts[2..];
    }
  }

  lemma SnakePartsTail(parts: seq<string>)
    requires SnakeParts(parts)
    ensures CamelTail(parts[1..])
    ensures |parts| > 1 ==> IsAsciiLower(Last(parts[0]))
  {
    var qs := parts[1..];
    forall i | 0 <= i < |qs|
      ensures LowerDigitPart(qs[i]) && IsAsciiLower(qs[i][0])
    {
      assert qs[i] == parts[i + 1];
    }
    forall i | 0 <= i < |qs| - 1
      ensures |qs[i]| >= 2 && IsAsciiLower(Last(qs[i]))
    {
      assert qs[i] == parts[i + 1];
    }
  }

  lemma {:induction false} HasDoubleUnderscoreConcat(a: string, b: string)
    requires HasDoubleUnderscore(a + b)
    ensures HasDoubleUnderscore(a) || HasDoubleUnderscore(b) || (|a| > 0 && |b| > 0 && a[|a| - 1] == '_' && b[0] == '_')
    decreases |a|
  {
    var ab := a + b;
    if |a| == 0 {
      assert ab == b;
    } else if |a| == 1 {
      if !(ab[0] == '_' && ab[1] == '_') {
        assert ab[1..] == b;
      }
    } else {
      if !(ab[0] == '_' && ab[1] == '_') {
        assert ab[1..] == a[1..] + b;
        HasDoubleUnderscoreConcat(a[1..], b);
      }
    }
  }

  lemma {:induction false} NoUnderscoreNoDouble(s: string)
    requires '_' !in s
    ensures !HasDoubleUnderscore(s)
    decreases |s|
  {
    if |s| >= 2 {
      assert s[0] in s;
      NoUnderscoreNoDouble(s[1..]);
    }
  }

  lemma {:induction false} JoinNoDouble(parts: seq<string>)
    requires |parts| >= 1 && forall i :: 0 <= i < |parts| ==> |parts[i]| > 0 && '_' !in parts[i]
    ensures !HasDoubleUnderscore(Join(parts, '_'))
    ensures Join(parts, '_')[0] == parts[0][0]
    decreases |parts|
  {
    NoUnderscoreNoDouble(parts[0]);
    if |parts| > 1 {
      var p := parts[0];
      var rest := Join(parts[1..], '_');
      JoinNoDouble(parts[1..]);
      assert p[|p| - 1] in p;
      assert rest[0] == parts[1][0] && parts[1][0] in parts[1];
      if HasDoubleUnderscore("_" + rest) {
        HasDoubleUnderscoreConcat("_", rest);
      }
      assert p + "_" + rest == p + ("_" + rest);
      if HasDoubleUnderscore(p + ("_" + rest)) {
        HasDoubleUnderscoreConcat(p, "_" + rest);
      }
    }
  }

  lemma PartsAvoidUnderscore(parts: seq<string>)
    requires forall i :: 0 <= i < |parts| ==> LowerDigitPart(parts[i])
    ensures forall i :: 0 <= i < |parts| ==> |parts[i]| > 0 && '_' !in parts[i]
  {
    forall i | 0 <= i < |parts|
      ensures '_' !in parts[i]
    {
      var p := parts[i];
      assert forall j :: 0 <= j < |p| ==> p[j] != '_';
    }
  }

  /** Splitting the snake_case name on `_` gives back the parts. */
  lemma SplitSnakeName(parts: seq<string>)
    requires |parts| >= 2 && forall i :: 0 <= i < |parts| ==> LowerDigitPart(parts[i])
    ensures '_' in SnakeName(parts) && !HasDoubleUnderscore(SnakeName(parts))
    ensures Split(SnakeName(parts), '_') == parts
  {
    var s := SnakeName(parts);
    PartsAvoidUnderscore(parts);
    JoinNoDouble(parts);
    JoinAsUnderscored(parts);
    assert s[|parts[0]|] == '_';
    SplitAllOfJoin(parts, '_');
    assert parts[|parts| - 1] != "";
  }

  /** snake_case to camelCase on well-formed parts gives their camelCase name. */
  lemma SnakeToCamel(parts: seq<string>)
    requires SnakeParts(parts)
    ensures UnderscoredToCamel(SnakeName(parts)) == Success(CamelName(parts))
  {
    var p := parts[0];
    SnakePartsTail(parts);
    if |parts| == 1 {
      assert SnakeName(parts) == p;
      PartsAvoidUnderscore(parts);
      assert '_' !in p;
      assert parts[1..] == [];
      assert CamelName(parts) == p;
    } else {
      SplitSnakeName(parts);
      assert AllNonEmpty(parts);
      var c := CapitalizedBody(parts);
      CapitalizedOfLower(p);
      assert c == Capitalized(p) + CapitalizedBody(parts[1..]);
      LowerOfUpper(p[0]);
      assert [ToLowerChar(c[0])] + c[1..] == p + CapitalizedBody(parts[1..]);
    }
  }

  /** camelCase to snake_case on the camelCase name of well-formed parts gives their snake_case
      name. */
  lemma CamelToSnake(parts: seq<string>)
    requires SnakeParts(parts)
    ensures CamelToUnderscored(CamelName(parts)) == SnakeName(parts)
  {
    var p := parts[0];
    var qs := parts[1..];
    SnakePartsTail(parts);
    LowerStringOfLower(p);
    InsertIntoCamel(p, qs);
    LowerUnderscoredCaps(qs);
    LowerStringConcat(p, UnderscoredCaps(qs));
    JoinAsUnderscored(parts);
  }

  /** The round trip: the camelCase name of well-formed parts converts back to their snake_case
      name, and the snake_case name converts to the camelCase name. */
  lemma RoundTrip(parts: seq<string>)
    requires SnakeParts(parts)
    ensures UnderscoredToCamel(SnakeName(parts)) == Success(CamelName(parts))
    ensures CamelToUnderscored(CamelName(parts)) == SnakeName(parts)
  {
    SnakeToCamel(parts);
    CamelToSnake(parts);
  }

  /** `user_name` and `userName` correspond. */
  lemma UserNameExample(parts: seq<string>, snake: string, camel: string)
    requires parts == ["user", "name"] && snake == "user_name" && camel == "userName"
    ensures UnderscoredToCamel(snake) == Success(camel)
    ensures CamelToUnderscored(camel) == snake
  {
    assert LowerDigitPart(parts[0]) && LowerDigitPart(parts[1]);
    RoundTrip(parts);
    var tail := parts[1..];
    assert tail == ["name"] && tail[1..] == [];
    assert Join(tail, '_') == "name";
    assert SnakeName(parts) == snake;
    assert Capitalized("name") == "Name";
    assert CapitalizedBody(tail) == "Name";
    assert CamelName(parts) == camel;
  }

  /** With a one-letter part in the middle the round trip fails: `a_b_c` becomes `aBC`, which
      becomes `a_bc`, because no `_` goes between two capitals. */
  lemma SingleLetterPartBreaksRoundTrip(parts: seq<string>, snake: string, camel: string)
    requires parts == ["a", "b", "c"] && snake == "a_b_c" && camel == "aBC"
    ensures UnderscoredToCamel(snake) == Success(camel)
    ensures CamelToUnderscored(camel) == "a_bc" != snake
  {
    assert LowerDigitPart(parts[0]) && LowerDigitPart(parts[1]) && LowerDigitPart(parts[2]);
    SplitSnakeName(parts);
    var tail := parts[1..];
    assert tail == ["b", "c"] && tail[1..] == ["c"] && tail[1..][1..] == [];
    assert Join(tail[1..], '_') == "c";
    assert Join(tail, '_') == "b_c";
    assert SnakeName(parts) == snake;
    assert Capitalized("a") == "A" && Capitalized("b") == "B" && Capitalized("c") == "C";
    assert CapitalizedBody(tail[1..]) == "C";
    assert CapitalizedBody(tail) == "BC";
    assert CapitalizedBody(parts) == "ABC";
    var c := CapitalizedBody(parts);
    assert [ToLowerChar(c[0])] + c[1..] == camel;
    assert camel[1..] == "BC" && camel[1..][1..] == "C";
    var bc := camel[1..];
    assert InsertUnderscores(bc[1..]) == "C";
    assert InsertUnderscores(bc) == ['B'] + InsertUnderscores(bc[1..]) == "BC";
    assert InsertUnderscores(camel) == ['a', '_'] + InsertUnderscores(bc) == "a_BC";
    var u := LowerString("a_BC");
    assert u[0] == 'a' && u[1] == '_' && u[2] == 'b' && u[3] == 'c';
  }
}
