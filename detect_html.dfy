/** DetectHtml: whether a service response body looks like HTML. The four patterns of the
    source are regular expressions without back-references or look-around, so a `find` over them
    is a question about a regular language: does some substring of the text belong to it? The
    language is given by `Matches`, a relation defined by splitting the string; the executable
    test `Find` works with Brzozowski derivatives and is proved to answer exactly that question. */
module DetectHtml {
  import opened Wrappers

  // ----- character classes of java.util.regex -----

  datatype CharClass =
    | AnyChar          // `.` under DOTALL: every character, line terminators included
    | Lit(c: char)     // an escaped or plain literal
    | WordChar         // \w: [a-zA-Z_0-9]
    | SpaceChar        // \s: [ \t\n\x0B\f\r]
    | LetterChar       // [a-zA-Z]
    | AlnumChar        // [a-zA-Z0-9]
    | UnquotedChar     // [^'"\>\s]
  {
    predicate Contains(x: char) {
      match this
      case AnyChar => true
      case Lit(c) => x == c
      case WordChar => ('a' <= x <= 'z') || ('A' <= x <= 'Z') || ('0' <= x <= '9') || x == '_'
      case SpaceChar => x == ' ' || x == '\t' || x == '\n' || x == '\U{0B}' || x == '\U{0C}' || x == '\r'
      case LetterChar => ('a' <= x <= 'z') || ('A' <= x <= 'Z')
      case AlnumChar => ('a' <= x <= 'z') || ('A' <= x <= 'Z') || ('0' <= x <= '9')
      case UnquotedChar =>
        !(x == '\'' || x == '"' || x == '>' || x == ' ' || x == '\t' || x == '\n' || x == '\U{0B}' || x == '\U{0C}' || x == '\r')
    }
  }

  datatype Regex =
    | Nothing
    | Epsilon
    | Char(cls: CharClass)
    | Cat(left: Regex, right: Regex)
    | Alt(left: Regex, right: Regex)
    | Star(body: Regex)

  function Plus(r: Regex): Regex { Cat(r, Star(r)) }
  function Optional(r: Regex): Regex { Alt(Epsilon, r) }
  function Literal(c: char): Regex { Char(Lit(c)) }

  /** The language of a regular expression: `s` matches `r`. */
  ghost predicate Matches(r: Regex, s: string)
    decreases r, |s|
  {
    match r
    case Nothing => false
    case Epsilon => |s| == 0
    case Char(cls) => |s| == 1 && cls.Contains(s[0])
    case Cat(a, b) => exists k :: 0 <= k <= |s| && Matches(a, s[..k]) && Matches(b, s[k..])
    case Alt(a, b) => Matches(a, s) || Matches(b, s)
    case Star(a) => |s| == 0 || exists k :: 0 < k <= |s| && Matches(a, s[..k]) && Matches(Star(a), s[k..])
  }

  /** Matcher.find(): some substring of `s` is in the language of `r`. */
  ghost predicate ContainsMatch(r: Regex, s: string) {
    exists i, j :: 0 <= i <= j <= |s| && Matches(r, s[i..j])
  }

  // ----- the derivative matcher -----

  function Nullable(r: Regex): bool {
    match r
    case Nothing => false
    case Epsilon => true
    case Char(_) => false
    case Cat(a, b) => Nullable(a) && Nullable(b)
    case Alt(a, b) => Nullable(a) || Nullable(b)
    case Star(_) => true
  }

  /** The strings `t` such that `c` followed by `t` matches `r`. */
  function Derive(r: Regex, c: char): Regex {
    match r
    case Nothing => Nothing
    case Epsilon => Nothing
    case Char(cls) => if cls.Contains(c) then Epsilon else Nothing
    case Cat(a, b) =>
      if Nullable(a) then Alt(Cat(Derive(a, c), b), Derive(b, c)) else Cat(Derive(a, c), b)
    case Alt(a, b) => Alt(Derive(a, c), Derive(b, c))
    case Star(a) => Cat(Derive(a, c), Star(a))
  }

  /** Some prefix of `s` matches `r`. */
  function PrefixMatches(r: Regex, s: string): bool
    decreases |s|
  {
    Nullable(r) || (|s| > 0 && PrefixMatches(Derive(r, s[0]), s[1..]))
  }

  /** Some substring of `s` matches `r`: a prefix of `s`, or a substring of its tail. */
  function Find(r: Regex, s: string): bool
    decreases |s|
  {
    PrefixMatches(r, s) || (|s| > 0 && Find(r, s[1..]))
  }

  lemma {:induction false} NullableCorrect(r: Regex)
    ensures Nullable(r) <==> Matches(r, [])
  {
    var e: string := [];
    match r
    case Nothing =>
    case Epsilon =>
    case Char(_) =>
    case Cat(a, b) =>
      NullableCorrect(a);
      NullableCorrect(b);
      if Nullable(a) && Nullable(b) {
        assert e[..0] == e && e[0..] == e;
      }
    case Alt(a, b) =>
      NullableCorrect(a);
      NullableCorrect(b);
    case Star(_) =>
  }

  lemma CatIntro(a: Regex, b: Regex, s: string, k: int)
    requires 0 <= k <= |s| && Matches(a, s[..k]) && Matches(b, s[k..])
    ensures Matches(Cat(a, b), s)
  {
  }

  lemma StarIntro(a: Regex, s: string, k: int)
    requires 0 < k <= |s| && Matches(a, s[..k]) && Matches(Star(a), s[k..])
    ensures Matches(Star(a), s)
  {
  }

  /** The derivative is correct: `s` matches the derivative of `r` by `c` exactly when `c`
      followed by `s` matches `r`. */
  lemma {:induction false} DeriveCorrect(r: Regex, c: char, s: string)
    ensures Matches(Derive(r, c), s) <==> Matches(r, [c] + s)
    decreases r, 1
  {
    match r
    case Nothing =>
    case Epsilon =>
    case Char(cls) =>
    case Alt(a, b) =>
      DeriveCorrect(a, c, s);
      DeriveCorrect(b, c, s);
    case Cat(a, b) =>
      if Matches(r, [c] + s) {
        DeriveCatForward(a, b, c, s);
      }
      if Matches(Derive(r, c), s) {
        DeriveCatBackward(a, b, c, s);
      }
    case Star(a) =>
      if Matches(r, [c] + s) {
        DeriveStarForward(a, c, s);
      }
      if Matches(Derive(r, c), s) {
        DeriveStarBackward(a, c, s);
      }
  }

  lemma {:induction false} DeriveCatForward(a: Regex, b: Regex, c: char, s: string)
    requires Matches(Cat(a, b), [c] + s)
    ensures Matches(Derive(Cat(a, b), c), s)
    decreases Cat(a, b), 0
  {
    var t := [c] + s;
    var k :| 0 <= k <= |t| && Matches(a, t[..k]) && Matches(b, t[k..]);
    if k == 0 {
      NullableCorrect(a);
      assert t[..0] == [];
      assert t[0..] == t;
      DeriveCorrect(b, c, s);
    } else {
      assert t[..k] == [c] + s[..k - 1];
      assert t[k..] == s[k - 1..];
      DeriveCorrect(a, c, s[..k - 1]);
      CatIntro(Derive(a, c), b, s, k - 1);
    }
  }

  lemma {:induction false} DeriveCatBackward(a: Regex, b: Regex, c: char, s: string)
    requires Matches(Derive(Cat(a, b), c), s)
    ensures Matches(Cat(a, b), [c] + s)
    decreases Cat(a, b), 0
  {
    var t := [c] + s;
    var da := Derive(a, c);
    if Matches(Cat(da, b), s) {
      var k :| 0 <= k <= |s| && Matches(da, s[..k]) && Matches(b, s[k..]);
      DeriveCorrect(a, c, s[..k]);
      assert t[..k + 1] == [c] + s[..k];
      assert t[k + 1..] == s[k..];
      CatIntro(a, b, t, k + 1);
    } else {
      NullableCorrect(a);
      DeriveCorrect(b, c, s);
      assert t[..0] == [];
      assert t[0..] == t;
      CatIntro(a, b, t, 0);
    }
  }

  lemma {:induction false} DeriveStarForward(a: Regex, c: char, s: string)
    requires Matches(Star(a), [c] + s)
    ensures Matches(Derive(Star(a), c), s)
    decreases Star(a), 0
  {
    var t := [c] + s;
    var k :| 0 < k <= |t| && Matches(a, t[..k]) && Matches(Star(a), t[k..]);
    assert t[..k] == [c] + s[..k - 1];
    assert t[k..] == s[k - 1..];
    DeriveCorrect(a, c, s[..k - 1]);
    CatIntro(Derive(a, c), Star(a), s, k - 1);
  }

  lemma {:induction false} DeriveStarBackward(a: Regex, c: char, s: string)
    requires Matches(Derive(Star(a), c), s)
    ensures Matches(Star(a), [c] + s)
    decreases Star(a), 0
  {
    var t := [c] + s;
    var k :| 0 <= k <= |s| && Matches(Derive(a, c), s[..k]) && Matches(Star(a), s[k..]);
    DeriveCorrect(a, c, s[..k]);
    assert t[..k + 1] == [c] + s[..k];
    assert t[k + 1..] == s[k..];
    StarIntro(a, t, k + 1);
  }

  /** `PrefixMatches` decides whether some prefix of `s` is in the language of `r`. */
  lemma {:induction false} PrefixMatchesCorrect(r: Regex, s: string)
    ensures PrefixMatches(r, s) <==> exists j :: 0 <= j <= |s| && Matches(r, s[..j])
    decreases |s|
  {
    NullableCorrect(r);
    assert s[..0] == [];
    if |s| > 0 {
      var d := Derive(r, s[0]);
      var rest := s[1..];
      PrefixMatchesCorrect(d, rest);
      if PrefixMatches(d, rest) {
        var j :| 0 <= j <= |rest| && Matches(d, rest[..j]);
        DeriveCorrect(r, s[0], rest[..j]);
        assert rest[..j] == s[1..j + 1];
        assert [s[0]] + rest[..j] == s[..j + 1];
      }
      if j :| 0 < j <= |s| && Matches(r, s[..j]) {
        assert rest[..j - 1] == s[1..j];
        assert s[..j] == [s[0]] + s[1..j];
        assert s[..j] == [s[0]] + rest[..j - 1];
        DeriveCorrect(r, s[0], rest[..j - 1]);
      }
    }
  }

  lemma PrefixContained(r: Regex, s: string, j: int)
    requires 0 <= j <= |s| && Matches(r, s[..j])
    ensures ContainsMatch(r, s)
  {
    assert s[0..j] == s[..j];
  }

  lemma TailContained(r: Regex, s: string)
    requires |s| > 0 && ContainsMatch(r, s[1..])
    ensures ContainsMatch(r, s)
  {
    var rest := s[1..];
    var i, j :| 0 <= i <= j <= |rest| && Matches(r, rest[i..j]);
    assert rest[i..j] == s[i + 1..j + 1];
  }

  /** A match in `s` starts at its first character or lies in its tail. */
  lemma ContainedSplit(r: Regex, s: string)
    requires ContainsMatch(r, s)
    ensures (exists j :: 0 <= j <= |s| && Matches(r, s[..j])) || (|s| > 0 && ContainsMatch(r, s[1..]))
  {
    var i, j :| 0 <= i <= j <= |s| && Matches(r, s[i..j]);
    if i == 0 {
      assert s[i..j] == s[..j];
    } else {
      var rest := s[1..];
      assert rest[i - 1..j - 1] == s[i..j];
      assert 0 <= i - 1 <= j - 1 <= |rest| && Matches(r, rest[i - 1..j - 1]);
    }
  }

  /** `Find` decides whether some substring of `s` is in the language of `r`. */
  lemma {:induction false} FindCorrect(r: Regex, s: string)
    ensures Find(r, s) <==> ContainsMatch(r, s)
    decreases |s|
  {
    PrefixMatchesCorrect(r, s);
    if PrefixMatches(r, s) {
      var j :| 0 <= j <= |s| && Matches(r, s[..j]);
      PrefixContained(r, s, j);
    }
    if |s| > 0 {
      FindCorrect(r, s[1..]);
      if Find(r, s[1..]) {
        TailContained(r, s);
      }
    }
    if ContainsMatch(r, s) {
      ContainedSplit(r, s);
    }
  }

  /** A match somewhere in `t` is a match somewhere in any text that contains `t`. */
  lemma ContainsMatchInContext(r: Regex, u: string, t: string, v: string)
    requires ContainsMatch(r, t)
    ensures ContainsMatch(r, u + t + v)
  {
    var i, j :| 0 <= i <= j <= |t| && Matches(r, t[i..j]);
    assert (u + t + v)[|u| + i..|u| + j] == t[i..j];
  }

  // ----- the HTML pattern -----

  function Spaces(): Regex { Star(Char(SpaceChar)) }
  function Word(): Regex { Plus(Char(WordChar)) }

  /** "...", '...' or a run of characters that are neither quotes, `>` nor blanks. */
  function AttributeValue(): Regex {
    Alt(Alt(Cat(Literal('"'), Cat(Star(Char(AnyChar)), Literal('"'))),
            Cat(Literal('\''), Cat(Star(Char(AnyChar)), Literal('\'')))),
        Plus(Char(UnquotedChar)))
  }

  /** \s+\w+(\s*=\s*value)? */
  function Attribute(): Regex {
    Cat(Plus(Char(SpaceChar)),
        Cat(Word(), Optional(Cat(Spaces(), Cat(Literal('='), Cat(Spaces(), AttributeValue()))))))
  }

  /** (attribute+\s*|\s*) */
  function Attributes(): Regex { Alt(Cat(Plus(Attribute()), Spaces()), Spaces()) }

  /** TAGSTART: <name attributes> */
  function TagStart(): Regex { Cat(Literal('<'), Cat(Word(), Cat(Attributes(), Literal('>')))) }

  /** TAGEND: </name> */
  function TagEnd(): Regex { Cat(Literal('<'), Cat(Literal('/'), Cat(Word(), Literal('>')))) }

  /** TAGSELFCLOSING: <name attributes/> */
  function TagSelfClosing(): Regex {
    Cat(Literal('<'), Cat(Word(), Cat(Attributes(), Cat(Literal('/'), Literal('>')))))
  }

  /** HTMLENTITY: &[a-zA-Z][a-zA-Z0-9]+; */
  function HtmlEntity(): Regex {
    Cat(Literal('&'), Cat(Char(LetterChar), Cat(Plus(Char(AlnumChar)), Literal(';'))))
  }

  /** A start tag, anything (across lines), and an end tag. */
  function TagPair(): Regex { Cat(TagStart(), Cat(Star(Char(AnyChar)), TagEnd())) }

  /** HTMLPATTERN: (TAGSTART.*TAGEND)|(TAGSELFCLOSING)|(HTMLENTITY). */
  function HtmlPattern(): Regex { Alt(Alt(TagPair(), TagSelfClosing()), HtmlEntity()) }

  /** isHtml: false for null, otherwise whether the pattern is found in the text. */
  function IsHtml(text: Option<string>): bool {
    text.Some? && Find(HtmlPattern(), text.value)
  }

  /** isHtml holds exactly when some substring of the text is a start tag followed later by an end
      tag, a self-closing tag, or an entity. */
  lemma IsHtmlCorrect(text: Option<string>)
    ensures IsHtml(text) <==> text.Some? && ContainsMatch(HtmlPattern(), text.value)
  {
    if text.Some? {
      FindCorrect(HtmlPattern(), text.value);
    }
  }

  /** A text that is HTML stays HTML inside any larger text. */
  lemma IsHtmlMonotonic(u: string, t: string, v: string)
    requires IsHtml(Some(t))
    ensures IsHtml(Some(u + t + v))
  {
    IsHtmlCorrect(Some(t));
    ContainsMatchInContext(HtmlPattern(), u, t, v);
    IsHtmlCorrect(Some(u + t + v));
  }

  // ----- structural facts about the matches -----

  /** A match of `Literal(x)` followed by `r` starts with `x`. */
  lemma LiteralFirst(x: char, r: Regex, s: string)
    requires Matches(Cat(Literal(x), r), s)
    ensures |s| >= 1 && s[0] == x && Matches(r, s[1..])
  {
    var k :| 0 <= k <= |s| && Matches(Literal(x), s[..k]) && Matches(r, s[k..]);
    assert k == 1;
  }

  /** Some suffix of a match of `Cat(a, b)` matches `b`. */
  lemma CatSuffix(a: Regex, b: Regex, s: string) returns (k: int)
    requires Matches(Cat(a, b), s)
    ensures 0 <= k <= |s| && Matches(b, s[k..])
  {
    k :| 0 <= k <= |s| && Matches(a, s[..k]) && Matches(b, s[k..]);
  }

  /** The shortest length a match of `r` can have. */
  ghost function MinLength(r: Regex): nat {
    match r
    case Nothing => 0
    case Epsilon => 0
    case Char(_) => 1
    case Cat(a, b) => MinLength(a) + MinLength(b)
    case Alt(a, b) => if MinLength(a) <= MinLength(b) then MinLength(a) else MinLength(b)
    case Star(_) => 0
  }

  lemma {:induction false} MinLengthBound(r: Regex, s: string)
    requires Matches(r, s)
    ensures |s| >= MinLength(r)
    decreases r
  {
    match r
    case Nothing =>
    case Epsilon =>
    case Char(_) =>
    case Cat(a, b) =>
      var k :| 0 <= k <= |s| && Matches(a, s[..k]) && Matches(b, s[k..]);
      MinLengthBound(a, s[..k]);
      MinLengthBound(b, s[k..]);
    case Alt(a, b) =>
      if Matches(a, s) {
        MinLengthBound(a, s);
      } else {
        MinLengthBound(b, s);
      }
    case Star(_) =>
  }

  /** An entity starts with `&` and has at least four characters (`&`, a letter, at least one
      letter or digit, `;`). */
  lemma EntityShape(s: string)
    requires Matches(HtmlEntity(), s)
    ensures |s| >= 4 && s[0] == '&'
  {
    MinLengthBound(HtmlEntity(), s);
    LiteralFirst('&', Cat(Char(LetterChar), Cat(Plus(Char(AlnumChar)), Literal(';'))), s);
  }

  /** Every tag match contains a `/`: in its end tag, or before the closing `>`. */
  lemma TagsContainSlash(s: string)
    requires Matches(TagPair(), s) || Matches(TagSelfClosing(), s)
    ensures '/' in s
  {
    if Matches(TagPair(), s) {
      var k1 := CatSuffix(TagStart(), Cat(Star(Char(AnyChar)), TagEnd()), s);
      var s1 := s[k1..];
      var k2 := CatSuffix(Star(Char(AnyChar)), TagEnd(), s1);
      var s2 := s1[k2..];
      LiteralFirst('<', Cat(Literal('/'), Cat(Word(), Literal('>'))), s2);
      LiteralFirst('/', Cat(Word(), Literal('>')), s2[1..]);
      assert s[k1 + k2 + 1] == '/';
    } else {
      var tail := Cat(Word(), Cat(Attributes(), Cat(Literal('/'), Literal('>'))));
      LiteralFirst('<', tail, s);
      var s1 := s[1..];
      var k2 := CatSuffix(Word(), Cat(Attributes(), Cat(Literal('/'), Literal('>'))), s1);
      var s2 := s1[k2..];
      var k3 := CatSuffix(Attributes(), Cat(Literal('/'), Literal('>')), s2);
      var s3 := s2[k3..];
      LiteralFirst('/', Literal('>'), s3);
      assert s[1 + k2 + k3] == '/';
    }
  }

  /** Every match of the pattern starts with `<` or `&`. */
  lemma MatchStartsWithMarkup(s: string)
    requires Matches(HtmlPattern(), s)
    ensures |s| >= 1 && (s[0] == '<' || s[0] == '&')
  {
    if Matches(TagPair(), s) {
      var k :| 0 <= k <= |s| && Matches(TagStart(), s[..k]) && Matches(Cat(Star(Char(AnyChar)), TagEnd()), s[k..]);
      LiteralFirst('<', Cat(Word(), Cat(Attributes(), Literal('>'))), s[..k]);
    } else if Matches(TagSelfClosing(), s) {
      LiteralFirst('<', Cat(Word(), Cat(Attributes(), Cat(Literal('/'), Literal('>')))), s);
    } else {
      EntityShape(s);
    }
  }

  /** Text with neither `<` nor `&` is never HTML. */
  lemma NoMarkupNotHtml(s: string)
    requires '<' !in s && '&' !in s
    ensures !IsHtml(Some(s))
  {
    IsHtmlCorrect(Some(s));
    if ContainsMatch(HtmlPattern(), s) {
      var i, j :| 0 <= i <= j <= |s| && Matches(HtmlPattern(), s[i..j]);
      MatchStartsWithMarkup(s[i..j]);
      assert false;
    }
  }

  /** Text without `/` is HTML only through an entity. */
  lemma NoSlashOnlyEntity(s: string)
    requires '/' !in s && ContainsMatch(HtmlPattern(), s)
    ensures ContainsMatch(HtmlEntity(), s)
  {
    var i, j :| 0 <= i <= j <= |s| && Matches(HtmlPattern(), s[i..j]);
    var m := s[i..j];
    assert Matches(Alt(TagPair(), TagSelfClosing()), m) || Matches(HtmlEntity(), m);
    if Matches(TagPair(), m) || Matches(TagSelfClosing(), m) {
      TagsContainSlash(m);
      assert false;
    }
    assert Matches(HtmlEntity(), s[i..j]);
  }

  /** A lone start tag is not HTML. */
  lemma LoneStartTagNotHtml()
    ensures !IsHtml(Some("<b>"))
  {
    var s := "<b>";
    IsHtmlCorrect(Some(s));
    if ContainsMatch(HtmlPattern(), s) {
      NoSlashOnlyEntity(s);
      var i, j :| 0 <= i <= j <= |s| && Matches(HtmlEntity(), s[i..j]);
      EntityShape(s[i..j]);
      assert false;
    }
  }

  lemma LiteralMinLength(c: char)
    ensures MinLength(Literal(c)) == 1
  {
  }

  lemma WordMinLength()
    ensures MinLength(Word()) == 1
  {
    assert MinLength(Star(Char(WordChar))) == 0;
  }

  lemma AttributesMinLength()
    ensures MinLength(Attributes()) == 0
  {
    assert MinLength(Spaces()) == 0;
  }

  lemma TagStartMinLength()
    ensures MinLength(TagStart()) == 3
  {
    LiteralMinLength('<');
    LiteralMinLength('>');
    WordMinLength();
    AttributesMinLength();
  }

  lemma TagPairMinLength()
    ensures MinLength(TagPair()) >= 4
  {
    TagStartMinLength();
    LiteralMinLength('<');
    LiteralMinLength('/');
    LiteralMinLength('>');
    WordMinLength();
    assert MinLength(TagEnd()) == 4;
  }

  lemma TagSelfClosingMinLength()
    ensures MinLength(TagSelfClosing()) == 4
  {
    LiteralMinLength('<');
    LiteralMinLength('/');
    LiteralMinLength('>');
    WordMinLength();
    AttributesMinLength();
  }

  lemma HtmlEntityMinLength()
    ensures MinLength(HtmlEntity()) == 4
  {
    LiteralMinLength('&');
    LiteralMinLength(';');
    assert MinLength(Plus(Char(AlnumChar))) == 1;
  }

  /** A match of the pattern is at least four characters long: an entity needs two name
      characters between `&` and `;`, and the shortest tag is `<a/>`. */
  lemma PatternMinLength()
    ensures MinLength(HtmlPattern()) == 4
  {
    TagPairMinLength();
    TagSelfClosingMinLength();
    HtmlEntityMinLength();
  }

  /** No text shorter than four characters is HTML; `&a;` is one. */
  lemma ShortTextNotHtml(s: string)
    requires |s| < 4
    ensures !IsHtml(Some(s))
  {
    IsHtmlCorrect(Some(s));
    if ContainsMatch(HtmlPattern(), s) {
      var i, j :| 0 <= i <= j <= |s| && Matches(HtmlPattern(), s[i..j]);
      MinLengthBound(HtmlPattern(), s[i..j]);
      PatternMinLength();
      assert false;
    }
  }

  lemma CharMatch(cls: CharClass, x: char)
    requires cls.Contains(x)
    ensures Matches(Char(cls), [x])
  {
  }

  lemma EmptyStar(r: Regex)
    ensures Matches(Star(r), [])
  {
  }

  /** A run of one or more characters of one class matches its `Plus`. */
  lemma {:induction false} PlusOfClass(cls: CharClass, s: string)
    requires |s| >= 1 && forall i :: 0 <= i < |s| ==> cls.Contains(s[i])
    ensures Matches(Plus(Char(cls)), s) && Matches(Star(Char(cls)), s)
    decreases |s|
  {
    CharMatch(cls, s[0]);
    assert s[..1] == [s[0]];
    if |s| == 1 {
      EmptyStar(Char(cls));
      assert s[1..] == [];
    } else {
      PlusOfClass(cls, s[1..]);
    }
    StarIntro(Char(cls), s, 1);
    CatIntro(Char(cls), Star(Char(cls)), s, 1);
  }

  /** A substring that matches one of the alternatives makes the text HTML. */
  lemma HtmlWhenFound(s: string, i: int, j: int)
    requires 0 <= i <= j <= |s|
    requires Matches(TagPair(), s[i..j]) || Matches(TagSelfClosing(), s[i..j]) || Matches(HtmlEntity(), s[i..j])
    ensures IsHtml(Some(s))
  {
    var m := s[i..j];
    assert Matches(Alt(TagPair(), TagSelfClosing()), m) || Matches(HtmlEntity(), m);
    assert Matches(HtmlPattern(), m);
    IsHtmlCorrect(Some(s));
  }

  lemma EntityTailExample()
    ensures Matches(Cat(Plus(Char(AlnumChar)), Literal(';')), "mp;")
  {
    PlusOfClass(AlnumChar, "mp");
    CharMatch(Lit(';'), ';');
    assert "mp;"[..2] == "mp" && "mp;"[2..] == ";";
    CatIntro(Plus(Char(AlnumChar)), Literal(';'), "mp;", 2);
  }

  lemma EntityNameExample()
    ensures Matches(Cat(Char(LetterChar), Cat(Plus(Char(AlnumChar)), Literal(';'))), "amp;")
  {
    EntityTailExample();
    CharMatch(LetterChar, 'a');
    assert "amp;"[..1] == "a" && "amp;"[1..] == "mp;";
    CatIntro(Char(LetterChar), Cat(Plus(Char(AlnumChar)), Literal(';')), "amp;", 1);
  }

  lemma AmpEntityExample()
    ensures Matches(HtmlEntity(), "&amp;")
  {
    var s := "&amp;";
    EntityNameExample();
    CharMatch(Lit('&'), '&');
    assert s[..1] == "&" && s[1..] == "amp;";
    CatIntro(Literal('&'), Cat(Char(LetterChar), Cat(Plus(Char(AlnumChar)), Literal(';'))), s, 1);
  }

  /** `&amp;` is HTML. */
  lemma AmpEntityIsHtml()
    ensures IsHtml(Some("&amp;"))
  {
    var s := "&amp;";
    AmpEntityExample();
    assert s[0..5] == s;
    HtmlWhenFound(s, 0, 5);
  }

  lemma StartTagTailExample()
    ensures Matches(Cat(Attributes(), Literal('>')), ">")
  {
    EmptyStar(Char(SpaceChar));
    assert Matches(Attributes(), []);
    CharMatch(Lit('>'), '>');
    assert ">"[..0] == [] && ">"[0..] == ">";
    CatIntro(Attributes(), Literal('>'), ">", 0);
  }

  lemma StartTagBodyExample()
    ensures Matches(Cat(Word(), Cat(Attributes(), Literal('>'))), "a>")
  {
    StartTagTailExample();
    PlusOfClass(WordChar, "a");
    assert "a>"[..1] == "a" && "a>"[1..] == ">";
    CatIntro(Word(), Cat(Attributes(), Literal('>')), "a>", 1);
  }

  /** `<a>` is a start tag. */
  lemma StartTagExample()
    ensures Matches(TagStart(), "<a>")
  {
    var s := "<a>";
    StartTagBodyExample();
    CharMatch(Lit('<'), '<');
    assert s[..1] == "<" && s[1..] == "a>";
    CatIntro(Literal('<'), Cat(Word(), Cat(Attributes(), Literal('>'))), s, 1);
  }

  /** `</b>` is an end tag. */
  lemma EndTagExample()
    ensures Matches(TagEnd(), "</b>")
  {
    var s := "</b>";
    CharMatch(Lit('>'), '>');
    PlusOfClass(WordChar, "b");
    assert "b>"[..1] == "b" && "b>"[1..] == ">";
    CatIntro(Word(), Literal('>'), "b>", 1);
    CharMatch(Lit('/'), '/');
    assert "/b>"[..1] == "/" && "/b>"[1..] == "b>";
    CatIntro(Literal('/'), Cat(Word(), Literal('>')), "/b>", 1);
    CharMatch(Lit('<'), '<');
    assert s[..1] == "<" && s[1..] == "/b>";
    CatIntro(Literal('<'), Cat(Literal('/'), Cat(Word(), Literal('>'))), s, 1);
  }

  lemma MismatchedTagsExample()
    ensures Matches(TagPair(), "<a></b>")
  {
    var s := "<a></b>";
    StartTagExample();
    EndTagExample();
    EmptyStar(Char(AnyChar));
    assert "</b>"[..0] == [] && "</b>"[0..] == "</b>";
    CatIntro(Star(Char(AnyChar)), TagEnd(), "</b>", 0);
    assert s[..3] == "<a>" && s[3..] == "</b>";
    CatIntro(TagStart(), Cat(Star(Char(AnyChar)), TagEnd()), s, 3);
  }

  /** A start tag followed by an end tag with a different name is HTML. */
  lemma MismatchedTagsAreHtml()
    ensures IsHtml(Some("<a></b>"))
  {
    var s := "<a></b>";
    MismatchedTagsExample();
    assert s[0..7] == s;
    HtmlWhenFound(s, 0, 7);
  }
}
