/** Lexing by the rules of the GraphQL specification of October 2021, and how the scanner's differs. */
module October {
  import opened Lexical

  // ---------- the rules ----------

  // A comment ends at a carriage return as well as at a line feed (sections 2.1.2 and 2.1.4), and in a
  // block string `\"""` does not close the string (section 2.9.4).  A string with a line break or an
  // unknown escape, which the specification rejects, is read as the scanner reads it.

  /** A carriage return with a line feed behind it is one line terminator with it and stays with the
      comment; a lone one ends the comment. */
  function CommentLength(s: string): (n: nat)
    ensures n <= |s|
  {
    if s == [] || s[0] == '\n' || (s[0] == '\r' && !(|s| > 1 && s[1] == '\n')) then 0 else 1 + CommentLength(s[1..])
  }

  const ESCAPED := "\\\"\"\""

  predicate EscapeAt(s: string, k: nat) { k + 4 <= |s| && s[k..k + 4] == ESCAPED }

  /** The length of the block string body s starts with: up to three quotes that are not escaped. */
  function RawLength(s: string): (n: nat)
    ensures n <= |s|
  {
    if |s| < 3 then |s|
    else if s[..3] == TRIPLE then 0
    else if EscapeAt(s, 0) then 4 + RawLength(s[4..])
    else 1 + RawLength(s[1..])
  }

  function SpecFirst(s: string): (r: (Lexeme, nat))
    requires s != ""
    ensures 0 < r.1 <= |s|
  {
    if s[0] == '#' then SpecComment(s)
    else if |s| > 2 && s[0] == '"' && s[1] == '"' && s[2] == '"' then SpecBlock(s)
    else First(s)
  }

  function SpecComment(s: string): (r: (Lexeme, nat))
    requires s != ""
    ensures 0 < r.1 <= |s|
  {
    var n := 1 + CommentLength(s[1..]);
    (Comment(s[1..n]), n)
  }

  function SpecBlock(s: string): (r: (Lexeme, nat))
    requires |s| > 2
    ensures 0 < r.1 <= |s|
  {
    var n := 3 + RawLength(s[3..]);
    RawEnd(s[3..]);
    if n == |s| then (OpenBlock(s[3..]), n) else (Block(s[3..n]), n + 3)
  }

  function SpecLex(s: string): seq<Lexeme>
    decreases |s|
  {
    if s == "" then [] else [SpecFirst(s).0] + SpecLex(s[SpecFirst(s).1..])
  }

  lemma {:induction false} RawEnd(s: string)
    ensures RawLength(s) == |s| || TripleAt(s, RawLength(s))
    decreases |s|
  {
    hide TripleAt, EscapeAt;
    var n := RawLength(s);
    TripleHead(s, 0);
    if |s| < 3 || s[..3] == TRIPLE {
    } else if EscapeAt(s, 0) {
      EscapeSize(s, 0);
      RawEnd(s[4..]);
      TripleDrop(s, 4, n - 4);
    } else {
      RawEnd(s[1..]);
      TripleDrop(s, 1, n - 1);
    }
  }

  lemma TripleDrop(s: string, d: nat, i: nat)
    requires d <= |s|
    ensures TripleAt(s[d..], i) == TripleAt(s, d + i)
  {
    if d + i + 3 <= |s| { assert s[d..][i..i + 3] == s[d + i..d + i + 3]; }
  }

  lemma EscapeDrop(s: string, d: nat, i: nat)
    requires d <= |s|
    ensures EscapeAt(s[d..], i) == EscapeAt(s, d + i)
  {
    if d + i + 4 <= |s| { assert s[d..][i..i + 4] == s[d + i..d + i + 4]; }
  }

  lemma EscapeSize(s: string, k: nat)
    requires EscapeAt(s, k)
    ensures k + 4 <= |s| && TripleAt(s, k + 1)
  {
    assert s[k + 1..k + 4] == s[k..k + 4][1..];
  }

  // ---------- where the two agree ----------

  /** A comment that a lone carriage return ends. */
  predicate ReturnEnded(x: Lexeme, rest: string) { x.Comment? && rest != "" && rest[0] == '\r' }

  /** A block string, closed or not, that holds an escape. */
  predicate Escaped(x: Lexeme) {
    (x.Block? || x.OpenBlock?) && exists k: nat | k < |x.body| :: EscapeAt(x.body, k)
  }

  /** No comment is ended by a lone carriage return, and no block string holds an escape. */
  predicate Readable(ls: seq<Lexeme>) {
    ls == [] || (!ReturnEnded(ls[0], Text(ls[1..])) && !Escaped(ls[0]) && Readable(ls[1..]))
  }

  lemma {:induction false} CommentLengths(s: string)
    ensures var n := CommentLength(s);
      && (n < |s| ==> s[n] == '\n' || s[n] == '\r')
      && (LineLength(s) == n <==> n == |s| || s[n] == '\n')
      && n <= LineLength(s)
  {
    if s != [] && s[0] != '\n' && !(s[0] == '\r' && !(|s| > 1 && s[1] == '\n')) {
      CommentLengths(s[1..]);
    }
  }

  lemma {:induction false} BlockLengths(s: string)
    ensures BlockLength(s) <= RawLength(s)
    ensures BlockLength(s) == RawLength(s) <==> forall k: nat :: k + 4 <= RawLength(s) ==> !EscapeAt(s, k)
    decreases |s|
  {
    hide TripleAt, EscapeAt;
    var n := RawLength(s);
    if |s| < 3 || s[..3] == TRIPLE {
    } else if EscapeAt(s, 0) {
      EscapeSize(s, 0);
      BlockOf(s);
      assert BlockLength(s) <= 1;
      assert n >= 4;
    } else {
      BlockLengths(s[1..]);
      forall k: nat
        ensures EscapeAt(s[1..], k) == EscapeAt(s, 1 + k)
      {
        EscapeDrop(s, 1, k);
      }
      if BlockLength(s) == n {
        forall k: nat | k + 4 <= n
          ensures !EscapeAt(s, k)
        {
          if k > 0 { assert !EscapeAt(s[1..], k - 1); }
        }
      } else {
        var k: nat :| k + 4 <= n - 1 && EscapeAt(s[1..], k);
        assert EscapeAt(s, 1 + k);
      }
    }
  }

  lemma SpecFirstText(s: string)
    requires s != ""
    ensures var (x, n) := SpecFirst(s); TextOf(x) + s[n..] == s
  {
    hide First, CommentLength, RawLength;
    if s[0] == '#' {
      var n := 1 + CommentLength(s[1..]);
      assert s == "#" + s[1..n] + s[n..];
    } else if |s| > 2 && s[0] == '"' && s[1] == '"' && s[2] == '"' {
      var n := 3 + RawLength(s[3..]);
      RawEnd(s[3..]);
      assert s[..3] == TRIPLE;
      if n == |s| {
        assert s == TRIPLE + s[3..];
      } else {
        TripleDrop(s, 3, n - 3);
        assert s == s[..3] + s[3..n] + s[n..n + 3] + s[n + 3..];
      }
    } else {
      FirstIsValid(s);
    }
  }

  lemma {:induction false} SpecLexText(s: string)
    ensures Text(SpecLex(s)) == s
    decreases |s|
  {
    hide SpecFirst, TextOf;
    if s != "" {
      var (x, n) := SpecFirst(s);
      SpecFirstText(s);
      SpecLexText(s[n..]);
      MoreLexemes(x, SpecLex(s[n..]));
    }
  }

  lemma FirstAgrees(s: string)
    requires s != ""
    ensures var (x, n) := SpecFirst(s);
      First(s).0 == x <==> !ReturnEnded(x, s[n..]) && !Escaped(x)
    ensures First(s).0 == SpecFirst(s).0 ==> First(s).1 == SpecFirst(s).1
  {
    hide FirstComment, FirstString, FirstBlock, SpecComment, SpecBlock, EscapeAt;
    if s[0] == '#' {
      CommentAgrees(s);
    } else if |s| > 2 && s[0] == '"' && s[1] == '"' && s[2] == '"' {
      BlockAgrees(s);
    } else {
      OthersAgree(s);
    }
  }

  lemma OthersAgree(s: string)
    requires s != "" && s[0] != '#' && !(|s| > 2 && s[0] == '"' && s[1] == '"' && s[2] == '"')
    ensures var x := First(s).0; !x.Comment? && !x.Block? && !x.OpenBlock?
  {
    hide BodyLength;
  }

  lemma CommentAgrees(s: string)
    requires s != "" && s[0] == '#'
    ensures var (x, n) := SpecComment(s);
      && (FirstComment(s).0 == x <==> !ReturnEnded(x, s[n..]))
      && x.Comment?
      && (FirstComment(s).0 == x ==> FirstComment(s).1 == n)
  {
    hide CommentLength, LineLength;
    CommentLengths(s[1..]);
    var n := CommentLength(s[1..]);
    assert n < |s[1..]| ==> s[1..][n] == s[1 + n];
    assert |FirstComment(s).0.text| == LineLength(s[1..]) && |SpecComment(s).0.text| == n;
  }

  lemma BlockAgrees(s: string)
    requires |s| > 2 && s[0] == s[1] == s[2] == '"'
    ensures var (x, n) := SpecBlock(s);
      && (FirstBlock(s).0 == x <==> !Escaped(x))
      && (x.Block? || x.OpenBlock?)
      && (FirstBlock(s).0 == x ==> FirstBlock(s).1 == n)
  {
    hide RawLength, BlockLength, EscapeAt, TripleAt;
    var t := s[3..];
    var n := RawLength(t);
    BlockLengths(t);
    RawEnd(t);
    TripleHead(t, BlockLength(t));
    TripleHead(t, n);
    var x := SpecBlock(s).0;
    assert s[3..3 + n] == t[..n] && x.body == t[..n];
    forall k: nat
      ensures EscapeAt(t[..n], k) <==> k + 4 <= n && EscapeAt(t, k)
    {
      EscapeTake(t, n, k);
    }
    if BlockLength(t) == n {
    } else {
      var k: nat :| k + 4 <= n && EscapeAt(t, k);
      assert EscapeAt(x.body, k);
      assert BlockLength(t) < n && |FirstBlock(s).0.body| == BlockLength(t);
    }
  }

  lemma EscapeTake(t: string, n: nat, k: nat)
    requires n <= |t|
    ensures EscapeAt(t[..n], k) <==> k + 4 <= n && EscapeAt(t, k)
  {
    if k + 4 <= n { assert t[..n][k..k + 4] == t[k..k + 4]; }
  }

  /** On every text the scanner's lexing is the specification's if and only if no comment of the text is
      ended by a lone carriage return and none of its block strings holds an escape. */
  lemma {:induction false} AgreeExactly(s: string)
    ensures Lex(s) == SpecLex(s) <==> Readable(SpecLex(s))
    decreases |s|
  {
    hide First, SpecFirst, ReturnEnded, Escaped;
    if s != "" {
      var (x, n) := SpecFirst(s);
      var rest := SpecLex(s[n..]);
      FirstAgrees(s);
      SpecLexText(s[n..]);
      AgreeExactly(s[n..]);
      assert SpecLex(s)[0] == x && SpecLex(s)[1..] == rest;
      assert Lex(s)[0] == First(s).0 && Lex(s)[1..] == Lex(s[First(s).1..]);
    }
  }

  // ---------- the specification's lexing is unique, too ----------

  predicate SpecValidBefore(x: Lexeme, rest: string) {
    match x
    case Comment(text) => CommentLength(text + rest) == |text|
    case Block(body) => RawLength(body + TRIPLE) == |body|
    case OpenBlock(body) => rest == "" && RawLength(body) == |body|
    case _ => ValidBefore(x, rest)
  }

  predicate SpecValid(ls: seq<Lexeme>) { ls == [] || (SpecValidBefore(ls[0], Text(ls[1..])) && SpecValid(ls[1..])) }

  /** What comes after the closing quotes does not matter. */
  lemma {:induction false} RawLengthStable(s: string, rest: string)
    requires TripleAt(s, RawLength(s))
    ensures RawLength(s + rest) == RawLength(s)
    decreases |s|
  {
    hide TripleAt, EscapeAt;
    var n := RawLength(s);
    TripleHead(s, n);
    assert (s + rest)[..3] == s[..3];
    if s[..3] != TRIPLE {
      assert n > 0 by { TripleHead(s, 0); }
      EscapePrefix(s, rest);
      if EscapeAt(s, 0) {
        EscapeSize(s, 0);
        TripleDrop(s, 4, n - 4);
        RawLengthStable(s[4..], rest);
        assert (s + rest)[4..] == s[4..] + rest;
      } else {
        TripleDrop(s, 1, n - 1);
        RawLengthStable(s[1..], rest);
        assert (s + rest)[1..] == s[1..] + rest;
      }
    }
  }

  lemma EscapePrefix(s: string, rest: string)
    requires |s| >= 4
    ensures EscapeAt(s + rest, 0) == EscapeAt(s, 0)
  {
    assert (s + rest)[0..4] == s[0..4];
  }

  lemma SpecFirstOf(x: Lexeme, rest: string)
    requires SpecValidBefore(x, rest)
    ensures TextOf(x) != "" && SpecFirst(TextOf(x) + rest) == (x, |TextOf(x)|)
  {
    hide First, RawLength, CommentLength, ValidBefore;
    var s := TextOf(x) + rest;
    match x
    case Comment(text) =>
      assert s[1..] == text + rest && s[1..1 + |text|] == text;
    case Block(body) => SpecBlockOf(body, rest);
    case OpenBlock(body) =>
      assert s[3..] == body;
    case Plain(c) =>
      FirstOf(x, rest);
      PlainValid(c, rest);
    case Str(body) =>
      FirstOf(x, rest);
      StringValid(x, rest);
    case OpenStr(body) =>
      FirstOf(x, rest);
      StringValid(x, rest);
  }

  lemma PlainValid(c: char, rest: string)
    requires ValidBefore(Plain(c), rest)
    ensures c != '#' && c != '"'
  {}

  lemma StringValid(x: Lexeme, rest: string)
    requires ValidBefore(x, rest) && (x.Str? || x.OpenStr?)
    ensures var s := TextOf(x) + rest; s[0] == '"' && !(|s| > 2 && s[1] == '"' && s[2] == '"')
  {
    if x.Str? { FirstStringOf(x.body, rest); } else { FirstOpenOf(x.body); }
  }

  lemma SpecBlockOf(body: string, rest: string)
    requires SpecValidBefore(Block(body), rest)
    ensures SpecBlock(TRIPLE + body + TRIPLE + rest) == (Block(body), 6 + |body|)
  {
    hide RawLength;
    var s, t := TRIPLE + body + TRIPLE + rest, body + TRIPLE;
    assert t[|body|..|body| + 3] == TRIPLE;
    RawLengthStable(t, rest);
    assert s[3..] == t + rest && s[3..3 + |body|] == body;
  }

  lemma {:induction false} SpecLexIsUnique(ls: seq<Lexeme>)
    requires SpecValid(ls)
    ensures SpecLex(Text(ls)) == ls
  {
    hide SpecFirst, SpecValidBefore, TextOf;
    if ls != [] {
      var x, rest, s := ls[0], Text(ls[1..]), Text(ls);
      SpecLexIsUnique(ls[1..]);
      SpecFirstOf(x, rest);
      assert s[|TextOf(x)|..] == rest;
    }
  }

  lemma MoreSpecLexemes(x: Lexeme, ls: seq<Lexeme>)
    requires SpecValidBefore(x, Text(ls)) && SpecValid(ls)
    ensures SpecValid([x] + ls)
  {
    hide SpecValidBefore;
    assert ([x] + ls)[1..] == ls;
  }

  lemma MoreReadable(x: Lexeme, ls: seq<Lexeme>)
    ensures Readable([x] + ls) <==> !ReturnEnded(x, Text(ls)) && !Escaped(x) && Readable(ls)
  {
    hide ReturnEnded, Escaped;
    assert ([x] + ls)[1..] == ls;
  }

  // ---------- what the scanner reads instead ----------

  function BlankChar(c: char): char { if c == '\r' then ' ' else c }

  /** A text with its carriage returns blanked. */
  function Blank(s: string): (r: string)
    ensures |r| == |s|
  {
    seq(|s|, i requires 0 <= i < |s| => BlankChar(s[i]))
  }

  /** Blanked, and with a blank for a backslash right before the closing quotes. */
  function NeutralBody(body: string): string {
    if body != "" && body[|body| - 1] == '\\' then Blank(body[..|body| - 1]) + " " else Blank(body)
  }

  function NeutralOf(x: Lexeme): Lexeme {
    match x
    case Plain(c) => Plain(BlankChar(c))
    case Comment(text) => Comment(Blank(text))
    case Str(body) => Str(Blank(body))
    case OpenStr(body) => OpenStr(Blank(body))
    case Block(body) => Block(NeutralBody(body))
    case OpenBlock(body) => OpenBlock(Blank(body))
  }

  function NeutralAll(ls: seq<Lexeme>): seq<Lexeme> { if ls == [] then [] else [NeutralOf(ls[0])] + NeutralAll(ls[1..]) }

  /** The text the scanner takes s for: blanks in place of carriage returns, and of each backslash that
      stands before the quotes at which the scanner closes a block string. */
  function Neutral(s: string): string { Text(NeutralAll(Lex(s))) }

  lemma {:induction false} BodyBlanked(s: string)
    ensures BodyOk(s) ==> BodyOk(Blank(s))
    ensures OpenBodyOk(s) ==> OpenBodyOk(Blank(s))
    decreases |s|
  {
    var t := Blank(s);
    if s != "" {
      assert t[1..] == Blank(s[1..]);
      BodyBlanked(s[1..]);
      if |s| > 1 {
        assert t[2..] == Blank(s[2..]);
        BodyBlanked(s[2..]);
      }
    }
  }

  /** Three quotes stand where three quotes stood. */
  lemma SameTriples(a: string, b: string)
    requires |a| == |b| && forall i :: 0 <= i < |a| ==> (a[i] == '"') == (b[i] == '"')
    ensures forall i: nat :: TripleAt(a, i) == TripleAt(b, i)
  {
    forall i: nat
      ensures TripleAt(a, i) == TripleAt(b, i)
    {
      if i + 3 <= |a| {
        assert a[i..i + 3] == [a[i], a[i + 1], a[i + 2]] && b[i..i + 3] == [b[i], b[i + 1], b[i + 2]];
      }
    }
  }

  lemma {:induction false} RawLengthOf(s: string, n: nat)
    requires n == |s| || (n < |s| && TripleAt(s, n))
    requires forall i: nat :: i < n ==> !TripleAt(s, i)
    requires n == 0 || n == |s| || s[n - 1] != '\\'
    ensures RawLength(s) == n
    decreases |s|
  {
    hide TripleAt, EscapeAt;
    TripleHead(s, n);
    if |s| >= 3 && s[..3] != TRIPLE {
      assert n > 0;
      if EscapeAt(s, 0) {
        EscapeSize(s, 0);
        EscapeHead(s);
      }
      forall i: nat
        ensures TripleAt(s[1..], i) == TripleAt(s, 1 + i)
      {
        TripleDrop(s, 1, i);
      }
      RawLengthOf(s[1..], n - 1);
    }
  }

  lemma EscapeHead(s: string)
    requires EscapeAt(s, 0)
    ensures s[0] == '\\'
  {
    assert s[0..4][0] == s[0];
  }

  lemma {:induction false} CommentLengthOf(text: string, rest: string)
    requires '\n' !in text && '\r' !in text
    requires rest == "" || rest[0] == '\n' || (rest[0] == '\r' && !(|rest| > 1 && rest[1] == '\n'))
    ensures CommentLength(text + rest) == |text|
  {
    if text == "" {
      assert text + rest == rest;
    } else {
      assert text[0] in text && forall c :: c in text[1..] ==> c in text;
      assert (text + rest)[1..] == text[1..] + rest;
      CommentLengthOf(text[1..], rest);
    }
  }

  lemma BlankHasNone(s: string)
    ensures '\r' !in Blank(s) && ('\n' !in s ==> '\n' !in Blank(s))
  {}

  lemma NeutralComment(text: string, rest: string, rest': string)
    requires ValidBefore(Comment(text), rest) && (rest' == "" || (rest != "" && rest'[0] == BlankChar(rest[0])))
    ensures ValidBefore(Comment(Blank(text)), rest') && SpecValidBefore(Comment(Blank(text)), rest')
  {
    BlankHasNone(text);
    CommentLengthOf(Blank(text), rest');
  }

  lemma NeutralBlock(body: string, rest: string)
    requires ValidBefore(Block(body), "")
    ensures var x := Block(NeutralBody(body)); ValidBefore(x, rest) && SpecValidBefore(x, rest) && |x.body| == |body|
  {
    hide TripleAt, RawLength;
    var was, now := body + TRIPLE, NeutralBody(body) + TRIPLE;
    SameTriples(was, now);
    TripleEnd(NeutralBody(body));
    RawLengthOf(now, |body|);
  }

  lemma TripleEnd(body: string)
    ensures TripleAt(body + TRIPLE, |body|)
  {
    assert (body + TRIPLE)[|body|..|body| + 3] == TRIPLE;
  }

  lemma NeutralOpenBlock(body: string)
    requires ValidBefore(OpenBlock(body), "")
    ensures var x := OpenBlock(Blank(body)); ValidBefore(x, "") && SpecValidBefore(x, "")
  {
    hide TripleAt, RawLength;
    SameTriples(body, Blank(body));
    RawLengthOf(Blank(body), |body|);
  }

  lemma NeutralOne(x: Lexeme, rest: string, rest': string)
    requires ValidBefore(x, rest) && |rest'| == |rest| && (rest != "" ==> rest'[0] == BlankChar(rest[0]))
    ensures ValidBefore(NeutralOf(x), rest') && SpecValidBefore(NeutralOf(x), rest')
  {
    hide BodyOk, OpenBodyOk, TripleAt, RawLength, CommentLength, Blank;
    match x
    case Plain(c) =>
    case Comment(text) => NeutralComment(text, rest, rest');
    case Str(body) => BodyBlanked(body);
    case OpenStr(body) => BodyBlanked(body);
    case Block(body) => NeutralBlock(body, rest');
    case OpenBlock(body) => NeutralOpenBlock(body);
  }

  /** Blanked in the one place or the other, and otherwise the same. */
  predicate AlmostSame(s: string, s': string) {
    |s'| == |s| && forall i :: 0 <= i < |s| ==> s'[i] == s[i] || (s'[i] == ' ' && s[i] in {'\r', '\\'})
  }

  lemma AlmostSameConcat(a: string, a': string, b: string, b': string)
    requires AlmostSame(a, a') && AlmostSame(b, b')
    ensures AlmostSame(a + b, a' + b')
  {}

  lemma BodyAlmostSame(body: string)
    ensures AlmostSame(body, Blank(body)) && AlmostSame(body, NeutralBody(body))
  {}

  /** Quotes and number signs stay around a body. */
  lemma Framed(open: string, body: string, body': string, close: string)
    requires AlmostSame(body, body') && open != "" && open[0] != '\r'
    ensures var t, t' := open + body + close, open + body' + close;
      t != "" && AlmostSame(t, t') && t'[0] == t[0] == BlankChar(t[0])
  {}

  lemma NeutralText(x: Lexeme)
    ensures var t, t' := TextOf(x), TextOf(NeutralOf(x));
      t != "" && AlmostSame(t, t') && t'[0] == BlankChar(t[0]) && ImageOf(NeutralOf(x)) == Blank(ImageOf(x))
  {
    hide AlmostSame, Blank, NeutralBody;
    ImageBlanked(x);
    match x
    case Plain(c) => CharAlmostSame(c);
    case Comment(text) =>
      BodyAlmostSame(text);
      Framed("#", text, Blank(text), "");
      assert "#" + text + "" == "#" + text && "#" + Blank(text) + "" == "#" + Blank(text);
    case Str(body) =>
      BodyAlmostSame(body);
      Framed("\"", body, Blank(body), "\"");
    case OpenStr(body) =>
      BodyAlmostSame(body);
      Framed("\"", body, Blank(body), "");
      assert "\"" + body + "" == "\"" + body && "\"" + Blank(body) + "" == "\"" + Blank(body);
    case Block(body) =>
      BodyAlmostSame(body);
      Framed(TRIPLE, body, NeutralBody(body), TRIPLE);
    case OpenBlock(body) =>
      BodyAlmostSame(body);
      Framed(TRIPLE, body, Blank(body), "");
      assert TRIPLE + body + "" == TRIPLE + body && TRIPLE + Blank(body) + "" == TRIPLE + Blank(body);
  }

  lemma CharAlmostSame(c: char)
    ensures AlmostSame([c], [BlankChar(c)])
  {}

  lemma ImageBlanked(x: Lexeme)
    ensures ImageOf(NeutralOf(x)) == Blank(ImageOf(x))
  {}

  lemma {:induction false} NeutralValid(ls: seq<Lexeme>)
    requires Valid(ls)
    ensures var ls', t, t' := NeutralAll(ls), Text(ls), Text(NeutralAll(ls));
      && Valid(ls') && SpecValid(ls') && Image(ls') == Blank(Image(ls)) && AlmostSame(t, t')
      && (t != "" ==> t'[0] == BlankChar(t[0]))
  {
    hide ValidBefore, SpecValidBefore, NeutralOf, TextOf, ImageOf, AlmostSame, Text, Image;
    if ls == [] {
      NeutralNothing();
    } else {
      var x, rest, rest' := ls[0], ls[1..], NeutralAll(ls[1..]);
      NeutralValid(rest);
      SameLength(Text(rest), Text(rest'));
      NeutralOne(x, Text(rest), Text(rest'));
      NeutralText(x);
      MoreLexemes(NeutralOf(x), rest');
      MoreSpecLexemes(NeutralOf(x), rest');
      MoreLexemes(x, rest);
      assert ls == [x] + rest;
      AlmostSameConcat(TextOf(x), TextOf(NeutralOf(x)), Text(rest), Text(rest'));
      SameLength(TextOf(x), TextOf(NeutralOf(x)));
      assert Blank(ImageOf(x)) + Blank(Image(rest)) == Blank(ImageOf(x) + Image(rest));
    }
  }

  lemma NeutralNothing()
    ensures Text([]) == "" && Image([]) == "" && AlmostSame("", "") && Blank("") == ""
  {}

  lemma SameLength(s: string, s': string)
    requires AlmostSame(s, s')
    ensures |s'| == |s|
  {}

  /** The scanner reads every text as the specification reads its neutral text, in which nothing but
      carriage returns and backslashes is blanked; what it strips the two to differs in blanks alone. */
  lemma ReadsNeutral(s: string)
    ensures SpecLex(Neutral(s)) == Lex(Neutral(s)) == NeutralAll(Lex(s))
    ensures Strip(Neutral(s)) == Blank(Strip(s)) && AlmostSame(s, Neutral(s))
  {
    hide Valid, SpecValid, Lex, SpecLex, Text, Image, NeutralAll, AlmostSame;
    LexIsValid(s);
    NeutralValid(Lex(s));
    LexIsUnique(NeutralAll(Lex(s)));
    SpecLexIsUnique(NeutralAll(Lex(s)));
  }
}
