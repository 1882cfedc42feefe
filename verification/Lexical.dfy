/** Taking comments and strings out of a GraphQL document (stripGraphQL in
    internal/tools/lineargql/parse.go), against a lexical specification. */
module Lexical {

  // ---------- lexemes ----------

  // Every text is the concatenation of exactly one valid list of lexemes, and stripping maps each string
  // literal to one blank, each comment to nothing and every other byte to itself.  Bytes are chars below 256.

  /** OpenStr and OpenBlock are literals the text ends in the middle of. */
  datatype Lexeme =
    | Plain(c: char)
    | Comment(text: string)
    | Str(body: string)
    | OpenStr(body: string)
    | Block(body: string)
    | OpenBlock(body: string)

  const TRIPLE := "\"\"\""

  function TextOf(x: Lexeme): string {
    match x
    case Plain(c) => [c]
    case Comment(text) => "#" + text
    case Str(body) => "\"" + body + "\""
    case OpenStr(body) => "\"" + body
    case Block(body) => TRIPLE + body + TRIPLE
    case OpenBlock(body) => TRIPLE + body
  }

  function Text(ls: seq<Lexeme>): string { if ls == [] then "" else TextOf(ls[0]) + Text(ls[1..]) }

  function ImageOf(x: Lexeme): string { if x.Plain? then [x.c] else if x.Comment? then "" else " " }

  function Image(ls: seq<Lexeme>): string { if ls == [] then "" else ImageOf(ls[0]) + Image(ls[1..]) }

  /** A string body: escapes of two bytes, and no bare quote or backslash. */
  predicate BodyOk(s: string) {
    s == [] || (s[0] == '\\' && |s| > 1 && BodyOk(s[2..])) || (s[0] != '\\' && s[0] != '"' && BodyOk(s[1..]))
  }

  /** The body of a string that never closes may also end in a lone backslash. */
  predicate OpenBodyOk(s: string) {
    s == [] || (s[0] == '\\' && (|s| == 1 || OpenBodyOk(s[2..]))) || (s[0] != '\\' && s[0] != '"' && OpenBodyOk(s[1..]))
  }

  predicate TripleAt(s: string, i: nat) { i + 3 <= |s| && s[i..i + 3] == TRIPLE }

  /** x is well formed where `rest` follows it. */
  predicate ValidBefore(x: Lexeme, rest: string) {
    match x
    case Plain(c) => c != '#' && c != '"'
    case Comment(text) => '\n' !in text && (rest == "" || rest[0] == '\n')
    case Str(body) => BodyOk(body) && (body == "" && rest != "" ==> rest[0] != '"')
    case OpenStr(body) => OpenBodyOk(body) && rest == ""
    case Block(body) => forall i: nat :: i < |body| ==> !TripleAt(body + TRIPLE, i)
    case OpenBlock(body) => rest == "" && forall i: nat :: i < |body| ==> !TripleAt(body, i)
  }

  predicate Valid(ls: seq<Lexeme>) { ls == [] || (ValidBefore(ls[0], Text(ls[1..])) && Valid(ls[1..])) }

  // ---------- lexing ----------

  function LineLength(s: string): (n: nat)
    ensures n <= |s|
  {
    if s == [] || s[0] == '\n' then 0 else 1 + LineLength(s[1..])
  }

  /** The length of the string body s starts with: up to its closing quote, or to the end. */
  function BodyLength(s: string): (n: nat)
    ensures n <= |s|
    ensures n < |s| ==> s[n] == '"'
  {
    if s == [] || s[0] == '"' then 0
    else if s[0] == '\\' && |s| > 1 then 2 + BodyLength(s[2..])
    else 1 + BodyLength(s[1..])
  }

  /** The length of the block string body s starts with: up to the first three quotes, or to the end. */
  function BlockLength(s: string): (n: nat)
    ensures n == |s| || (n + 3 <= |s| && TripleAt(s, n))
  {
    if |s| < 3 then |s| else if s[..3] == TRIPLE then 0 else 1 + BlockLength(s[1..])
  }

  /** The lexeme s starts with, and its length. */
  function First(s: string): (r: (Lexeme, nat))
    requires s != ""
    ensures 0 < r.1 <= |s|
  {
    if s[0] == '#' then FirstComment(s)
    else if s[0] != '"' then (Plain(s[0]), 1)
    else if |s| > 2 && s[1] == '"' && s[2] == '"' then FirstBlock(s)
    else FirstString(s)
  }

  function FirstComment(s: string): (r: (Lexeme, nat))
    requires s != ""
    ensures 0 < r.1 <= |s|
  {
    var n := 1 + LineLength(s[1..]);
    (Comment(s[1..n]), n)
  }

  function FirstString(s: string): (r: (Lexeme, nat))
    requires s != ""
    ensures 0 < r.1 <= |s|
  {
    var n := 1 + BodyLength(s[1..]);
    if n == |s| then (OpenStr(s[1..]), n) else (Str(s[1..n]), n + 1)
  }

  function FirstBlock(s: string): (r: (Lexeme, nat))
    requires |s| > 2
    ensures 0 < r.1 <= |s|
  {
    var n := 3 + BlockLength(s[3..]);
    if n == |s| then (OpenBlock(s[3..]), n) else (Block(s[3..n]), n + 3)
  }

  function Lex(s: string): seq<Lexeme>
    decreases |s|
  {
    if s == "" then [] else [First(s).0] + Lex(s[First(s).1..])
  }

  function Strip(s: string): string { Image(Lex(s)) }

  // ---------- every text has exactly one lexing ----------

  lemma {:induction false} LineOf(s: string)
    ensures '\n' !in s[..LineLength(s)] && (LineLength(s) == |s| || s[LineLength(s)] == '\n')
  {
    if s != [] && s[0] != '\n' {
      LineOf(s[1..]);
      assert s[..LineLength(s)] == [s[0]] + s[1..][..LineLength(s[1..])];
    }
  }

  lemma {:induction false} BodyOf(s: string)
    ensures BodyLength(s) < |s| ==> BodyOk(s[..BodyLength(s)])
    ensures BodyLength(s) == |s| ==> OpenBodyOk(s)
  {
    if s == [] || s[0] == '"' {
    } else if s[0] == '\\' && |s| > 1 {
      BodyOf(s[2..]);
      assert BodyLength(s) < |s| ==> s[..BodyLength(s)][2..] == s[2..][..BodyLength(s[2..])];
    } else {
      BodyOf(s[1..]);
      assert BodyLength(s) < |s| ==> s[..BodyLength(s)][1..] == s[1..][..BodyLength(s[1..])];
      if s[0] == '\\' { assert |s| == 1; }
    }
  }

  lemma TripleShift(s: string, i: nat)
    requires s != []
    ensures TripleAt(s[1..], i) == TripleAt(s, i + 1)
  {
    if i + 4 <= |s| { assert s[1..][i..i + 3] == s[i + 1..i + 4]; }
  }

  lemma TripleHead(s: string, i: nat)
    ensures TripleAt(s, 0) <==> |s| >= 3 && s[..3] == TRIPLE
    ensures TripleAt(s, i) ==> i + 3 <= |s|
  {
    if |s| >= 3 { assert s[0..3] == s[..3]; }
  }

  lemma {:induction false} BlockOf(s: string)
    ensures forall i: nat :: i < BlockLength(s) ==> !TripleAt(s, i)
  {
    hide TripleAt;
    if |s| >= 3 && s[..3] != TRIPLE {
      BlockOf(s[1..]);
      forall i: nat | i < BlockLength(s)
        ensures !TripleAt(s, i)
      {
        TripleHead(s, i);
        if i > 0 { TripleShift(s, i - 1); }
      }
    } else {
      forall i: nat | i < BlockLength(s)
        ensures !TripleAt(s, i)
      {
        TripleHead(s, i);
      }
    }
  }

  /** The first lexeme is a prefix of the text, valid before the rest. */
  lemma FirstIsValid(s: string)
    requires s != ""
    ensures var (x, n) := First(s); TextOf(x) + s[n..] == s && ValidBefore(x, s[n..])
  {
    hide FirstComment, FirstBlock, FirstString, TextOf, ValidBefore;
    if s[0] == '#' {
      CommentParts(s);
    } else if s[0] != '"' {
      PlainParts(s);
    } else if |s| > 2 && s[1] == '"' && s[2] == '"' {
      BlockParts(s);
    } else {
      StringParts(s);
    }
  }

  lemma PlainParts(s: string)
    requires s != "" && s[0] != '#' && s[0] != '"'
    ensures TextOf(Plain(s[0])) + s[1..] == s && ValidBefore(Plain(s[0]), s[1..])
  {}

  lemma CommentParts(s: string)
    requires s != "" && s[0] == '#'
    ensures var (x, n) := FirstComment(s); TextOf(x) + s[n..] == s && ValidBefore(x, s[n..])
  {
    hide LineLength;
    var n := 1 + LineLength(s[1..]);
    LineOf(s[1..]);
    assert s[1..n] == s[1..][..n - 1];
  }

  lemma BlockParts(s: string)
    requires |s| > 2 && s[0] == s[1] == s[2] == '"'
    ensures var (x, n) := FirstBlock(s); TextOf(x) + s[n..] == s && ValidBefore(x, s[n..])
  {
    hide BlockLength;
    var t := s[3..];
    var m := BlockLength(t);
    BlockOf(t);
    assert s == TRIPLE + t;
    if m < |t| {
      NoTripleBefore(t, m);
      assert s[3..3 + m] == t[..m] && s[3 + m + 3..] == t[m + 3..];
      assert t == t[..m] + TRIPLE + t[m + 3..] by { assert t == t[..m] + t[m..m + 3] + t[m + 3..]; }
    }
  }

  lemma NoTripleBefore(t: string, m: nat)
    requires TripleAt(t, m) && forall i: nat :: i < m ==> !TripleAt(t, i)
    ensures forall i: nat :: i < m ==> !TripleAt(t[..m] + TRIPLE, i)
  {
    assert t[..m] + t[m..m + 3] == t[..m + 3];
    forall i: nat | i < m
      ensures !TripleAt(t[..m] + TRIPLE, i)
    {
      assert !TripleAt(t, i);
      assert t[..m + 3][i..i + 3] == t[i..i + 3];
    }
  }

  lemma StringParts(s: string)
    requires s != "" && s[0] == '"' && !(|s| > 2 && s[1] == '"' && s[2] == '"')
    ensures var (x, n) := FirstString(s); TextOf(x) + s[n..] == s && ValidBefore(x, s[n..])
  {
    hide BodyLength, BodyOk, OpenBodyOk, TripleAt;
    var t := s[1..];
    var m := BodyLength(t);
    BodyOf(t);
    if m < |t| {
      var body, rest := t[..m], t[m + 1..];
      assert s[1..1 + m] == body && s[m + 2..] == rest;
      assert s == "\"" + body + "\"" + rest;
      assert m == 0 && rest != "" ==> rest[0] == s[2] && t[0] == s[1];
    } else {
      assert s == "\"" + t;
    }
  }

  lemma MoreLexemes(x: Lexeme, ls: seq<Lexeme>)
    ensures Text([x] + ls) == TextOf(x) + Text(ls) && Image([x] + ls) == ImageOf(x) + Image(ls)
    ensures ValidBefore(x, Text(ls)) && Valid(ls) ==> Valid([x] + ls)
  {
    hide TextOf, ImageOf, ValidBefore;
    assert ([x] + ls)[1..] == ls;
  }

  lemma LastLexeme(x: Lexeme)
    ensures Text([x]) == TextOf(x) && Image([x]) == ImageOf(x) && (ValidBefore(x, "") ==> Valid([x]))
  {
    hide TextOf, ImageOf, ValidBefore;
    assert [x][1..] == [];
    assert TextOf(x) + "" == TextOf(x) && ImageOf(x) + "" == ImageOf(x);
  }

  lemma {:induction false} LexIsValid(s: string)
    ensures Text(Lex(s)) == s && Valid(Lex(s))
    decreases |s|
  {
    hide First, ValidBefore, TextOf;
    if s != "" {
      var (x, n) := First(s);
      FirstIsValid(s);
      LexIsValid(s[n..]);
      MoreLexemes(x, Lex(s[n..]));
    }
  }

  lemma {:induction false} LineLengthOf(text: string, rest: string)
    requires '\n' !in text && (rest == "" || rest[0] == '\n')
    ensures LineLength(text + rest) == |text|
  {
    if text != [] {
      assert (text + rest)[1..] == text[1..] + rest;
      LineLengthOf(text[1..], rest);
    } else {
      assert text + rest == rest;
    }
  }

  lemma {:induction false} BodyLengthOf(body: string, rest: string)
    requires BodyOk(body)
    ensures BodyLength(body + "\"" + rest) == |body|
  {
    var s := body + "\"" + rest;
    if body == [] {
    } else if body[0] == '\\' {
      assert s[2..] == body[2..] + "\"" + rest;
      BodyLengthOf(body[2..], rest);
    } else {
      assert s[1..] == body[1..] + "\"" + rest;
      BodyLengthOf(body[1..], rest);
    }
  }

  lemma {:induction false} OpenBodyLength(body: string)
    requires OpenBodyOk(body)
    ensures BodyLength(body) == |body|
  {
    if body == [] {
    } else if body[0] == '\\' && |body| > 1 {
      OpenBodyLength(body[2..]);
    } else {
      OpenBodyLength(body[1..]);
    }
  }

  lemma {:induction false} BlockLengthOf(s: string, n: nat)
    requires n == |s| || TripleAt(s, n)
    requires forall i: nat :: i < n ==> !TripleAt(s, i)
    ensures BlockLength(s) == n
  {
    hide TripleAt;
    TripleHead(s, n);
    if |s| >= 3 && s[..3] != TRIPLE {
      assert n > 0;
      forall i: nat
        ensures TripleAt(s[1..], i) == TripleAt(s, i + 1)
      {
        TripleShift(s, i);
      }
      BlockLengthOf(s[1..], n - 1);
    }
  }

  /** A valid list of lexemes is the lexing of its text. */
  lemma {:induction false} LexIsUnique(ls: seq<Lexeme>)
    requires Valid(ls)
    ensures Lex(Text(ls)) == ls
  {
    hide First, ValidBefore, TextOf;
    if ls != [] {
      var x, rest, s := ls[0], Text(ls[1..]), Text(ls);
      LexIsUnique(ls[1..]);
      FirstOf(x, rest);
      assert s[|TextOf(x)|..] == rest;
    }
  }

  lemma FirstOf(x: Lexeme, rest: string)
    requires ValidBefore(x, rest)
    ensures TextOf(x) != "" && First(TextOf(x) + rest) == (x, |TextOf(x)|)
  {
    hide FirstComment, FirstBlock, FirstString, BodyOk, OpenBodyOk, TripleAt;
    match x
    case Plain(c) =>
    case Comment(text) => FirstCommentOf(text, rest);
    case Str(body) => FirstStringOf(body, rest);
    case OpenStr(body) => FirstOpenOf(body);
    case Block(body) => FirstBlockOf(body, rest);
    case OpenBlock(body) => FirstOpenBlockOf(body);
  }

  lemma FirstCommentOf(text: string, rest: string)
    requires ValidBefore(Comment(text), rest)
    ensures FirstComment("#" + text + rest) == (Comment(text), 1 + |text|)
  {
    hide LineLength;
    assert ("#" + text + rest)[1..] == text + rest;
    LineLengthOf(text, rest);
  }

  lemma FirstStringOf(body: string, rest: string)
    requires ValidBefore(Str(body), rest)
    ensures var s := "\"" + body + "\"" + rest;
      FirstString(s) == (Str(body), 2 + |body|) && !(|s| > 2 && s[1] == '"' && s[2] == '"')
  {
    hide BodyLength, TripleAt;
    var s := "\"" + body + "\"" + rest;
    assert s[1..] == body + "\"" + rest && s[1..1 + |body|] == body;
    BodyLengthOf(body, rest);
    assert body != "" ==> s[1] == body[0] != '"';
    assert body == "" && rest != "" ==> s[2] == rest[0];
  }

  lemma FirstOpenOf(body: string)
    requires OpenBodyOk(body)
    ensures var s := "\"" + body + "";
      FirstString(s) == (OpenStr(body), 1 + |body|) && !(|s| > 2 && s[1] == '"' && s[2] == '"')
  {
    hide BodyLength;
    var s := "\"" + body + "";
    assert s[1..] == body;
    OpenBodyLength(body);
    assert body != "" ==> s[1] == body[0] != '"';
  }

  lemma FirstBlockOf(body: string, rest: string)
    requires ValidBefore(Block(body), rest)
    ensures FirstBlock(TRIPLE + body + TRIPLE + rest) == (Block(body), 6 + |body|)
  {
    hide BlockLength, BodyOk, OpenBodyOk;
    var s, n, t := TRIPLE + body + TRIPLE + rest, |body|, body + TRIPLE + rest;
    assert s[3..] == t;
    forall i: nat | i < n
      ensures !TripleAt(t, i)
    {
      assert !TripleAt(body + TRIPLE, i);
      assert t[i..i + 3] == (body + TRIPLE)[i..i + 3];
    }
    assert t[n..n + 3] == TRIPLE;
    BlockLengthOf(t, n);
    assert s[3..3 + n] == body;
  }

  lemma FirstOpenBlockOf(body: string)
    requires ValidBefore(OpenBlock(body), "")
    ensures FirstBlock(TRIPLE + body + "") == (OpenBlock(body), 3 + |body|)
  {
    hide BlockLength, BodyOk, OpenBodyOk, TripleAt;
    assert (TRIPLE + body + "")[3..] == body;
    BlockLengthOf(body, |body|);
  }

  // ---------- properties of stripping ----------

  predicate NoLiterals(s: string) { forall c :: c in s ==> c != '"' && c != '#' }

  /** Stripping leaves no quote and no number sign and never lengthens the text, whatever the text. */
  lemma StripRemoves(s: string)
    ensures NoLiterals(Strip(s)) && |Strip(s)| <= |s|
  {
    LexIsValid(s);
    ImageSmall(Lex(s));
  }

  lemma {:induction false} ImageSmall(ls: seq<Lexeme>)
    requires Valid(ls)
    ensures NoLiterals(Image(ls)) && |Image(ls)| <= |Text(ls)|
  {
    if ls != [] { ImageSmall(ls[1..]); }
  }

  lemma {:induction false} PlainUntouched(s: string)
    requires NoLiterals(s)
    ensures Strip(s) == s
  {
    if s != [] {
      assert s[0] in s && forall c :: c in s[1..] ==> c in s;
      PlainUntouched(s[1..]);
    }
  }

  lemma StripIdempotent(s: string)
    ensures Strip(Strip(s)) == Strip(s)
  {
    StripRemoves(s);
    PlainUntouched(Strip(s));
  }

  /** No literal and no comment is open at the end of s. */
  predicate LexicallyClosed(s: string) { ClosedEnd(Lex(s)) }

  predicate ClosedEnd(ls: seq<Lexeme>) {
    ls == [] || var last := ls[|ls| - 1]; !last.Comment? && !last.OpenStr? && !last.OpenBlock?
  }

  /** Stripping distributes over concatenation where the left part is lexically closed and the right
      part does not start with a quote (which could turn an empty string into a block string). */
  lemma StripConcat(a: string, b: string)
    requires LexicallyClosed(a) && (b != "" ==> b[0] != '"')
    ensures Lex(a + b) == Lex(a) + Lex(b) && Strip(a + b) == Strip(a) + Strip(b)
  {
    LexIsValid(a);
    LexIsValid(b);
    ValidConcat(Lex(a), Lex(b));
    TextConcat(Lex(a), Lex(b));
    ImageConcat(Lex(a), Lex(b));
    LexIsUnique(Lex(a) + Lex(b));
  }

  lemma {:induction false} TextConcat(a: seq<Lexeme>, b: seq<Lexeme>)
    ensures Text(a + b) == Text(a) + Text(b)
  {
    if a == [] {
      assert a + b == b;
    } else {
      assert (a + b)[1..] == a[1..] + b;
      TextConcat(a[1..], b);
    }
  }

  lemma {:induction false} ImageConcat(a: seq<Lexeme>, b: seq<Lexeme>)
    ensures Image(a + b) == Image(a) + Image(b)
  {
    if a == [] {
      assert a + b == b;
    } else {
      assert (a + b)[1..] == a[1..] + b;
      ImageConcat(a[1..], b);
    }
  }

  lemma {:induction false} ValidConcat(a: seq<Lexeme>, b: seq<Lexeme>)
    requires Valid(a) && Valid(b) && ClosedEnd(a) && (Text(b) != "" ==> Text(b)[0] != '"')
    ensures Valid(a + b)
  {
    hide ValidBefore, Text, ClosedEnd;
    if a == [] {
      assert a + b == b;
    } else {
      ValidTail(a);
      ValidConcat(a[1..], b);
      TextConcat(a[1..], b);
      ValidWithMore(a[0], Text(a[1..]), Text(b));
      MoreLexemes(a[0], a[1..] + b);
      assert a + b == [a[0]] + (a[1..] + b);
    }
  }

  lemma ValidTail(a: seq<Lexeme>)
    requires a != [] && Valid(a) && ClosedEnd(a)
    ensures ValidBefore(a[0], Text(a[1..])) && Valid(a[1..]) && ClosedEnd(a[1..])
    ensures Text(a[1..]) == "" ==> ClosedEnd([a[0]])
  {
    hide ValidBefore;
    if a[1..] != [] {
      assert a[1..][|a| - 2] == a[|a| - 1];
      TextNonempty(a[1..]);
    }
  }

  /** What follows a lexeme may go on, unless the lexeme was the last one. */
  lemma ValidWithMore(x: Lexeme, rest: string, more: string)
    requires ValidBefore(x, rest)
    requires rest == "" ==> ClosedEnd([x]) && (more != "" ==> more[0] != '"')
    ensures ValidBefore(x, rest + more)
  {
    assert rest == "" ==> rest + more == more;
  }

  lemma TextNonempty(ls: seq<Lexeme>)
    requires ls != []
    ensures Text(ls) != ""
  {}

  // ---------- the scanner ----------

  lemma StripFirst(s: string)
    requires s != ""
    ensures var (x, n) := First(s); Strip(s) == ImageOf(x) + Strip(s[n..])
  {
    hide First, ImageOf;
    var (x, n) := First(s);
    MoreLexemes(x, Lex(s[n..]));
  }

  /** What is left to strip at position i, which may have run past the end. */
  function Remaining(s: string, i: nat): string { if i <= |s| then Strip(s[i..]) else "" }

  lemma RemainingEnds(s: string)
    ensures Remaining(s, 0) == Strip(s) && forall i: nat :: i >= |s| ==> Remaining(s, i) == ""
  {
    assert s[0..] == s;
  }

  /** Past the first lexeme of what is left. */
  lemma FirstPassed(s: string, i: nat)
    requires i < |s|
    ensures var (x, n) := First(s[i..]); Remaining(s, i) == ImageOf(x) + Remaining(s, i + n)
  {
    hide First, Strip, ImageOf;
    var (x, n) := First(s[i..]);
    StripFirst(s[i..]);
    assert s[i..][n..] == s[i + n..];
  }

  lemma PlainPassed(s: string, i: nat)
    requires i < |s| && s[i] != '#' && s[i] != '"'
    ensures Remaining(s, i) == [s[i]] + Remaining(s, i + 1)
  {
    hide Strip, Remaining, FirstComment, FirstString, FirstBlock;
    FirstPassed(s, i);
  }

  lemma CommentPassed(s: string, start: nat, i: nat)
    requires start < |s| && s[start] == '#' && start <= i <= |s| && LineLength(s[start..]) == i - start
    ensures Remaining(s, start) == Remaining(s, i)
  {
    hide Strip, Remaining, FirstString, FirstBlock;
    FirstPassed(s, start);
    assert "" + Remaining(s, i) == Remaining(s, i);
  }

  lemma StringPassed(s: string, start: nat, i: nat)
    requires start < |s| && s[start] == '"' && !(start + 2 < |s| && s[start + 1] == '"' && s[start + 2] == '"')
    requires start < i <= |s| && 1 + BodyLength(s[start + 1..]) == i - start
    ensures Remaining(s, start) == " " + Remaining(s, i + 1)
  {
    hide Strip, Remaining, BodyLength, FirstComment, FirstBlock;
    assert s[start..][1..] == s[start + 1..];
    FirstPassed(s, start);
    RemainingEnds(s);
  }

  lemma BlockPassed(s: string, start: nat, i: nat)
    requires start + 2 < |s| && s[start] == s[start + 1] == s[start + 2] == '"'
    requires start + 3 <= i <= |s| && 3 + BlockLength(s[start + 3..]) == i - start
    ensures Remaining(s, start) == " " + Remaining(s, i + 3)
  {
    hide Strip, Remaining, BlockLength, FirstComment, FirstString;
    assert s[start..][3..] == s[start + 3..];
    FirstPassed(s, start);
    RemainingEnds(s);
  }

  lemma BodyStep(s: string, i: nat)
    requires i <= |s|
    ensures BodyLength(s[i..]) ==
      if i == |s| || s[i] == '"' then 0
      else if s[i] == '\\' && i + 1 < |s| then 2 + BodyLength(s[i + 2..])
      else 1 + BodyLength(s[i + 1..])
  {
    if i < |s| { assert s[i..][1..] == s[i + 1..]; }
    if i + 1 < |s| { assert s[i..][2..] == s[i + 2..]; }
  }

  lemma BlockStep(s: string, i: nat)
    requires i <= |s|
    ensures BlockLength(s[i..]) ==
      if i + 2 >= |s| then |s| - i
      else if s[i] == '"' && s[i + 1] == '"' && s[i + 2] == '"' then 0
      else 1 + BlockLength(s[i + 1..])
  {
    if i + 2 < |s| {
      assert s[i..][..3] == [s[i], s[i + 1], s[i + 2]];
      assert s[i..][1..] == s[i + 1..];
    }
  }

  /** stripGraphQL. */
  method StripGraphQL(s: string) returns (b: string)
    ensures b == Strip(s)
  {
    hide *;
    RemainingEnds(s);
    b := "";
    var i, n := 0, |s|;
    while i < n
      invariant b + Remaining(s, i) == Strip(s)
      decreases n - i
    {
      var c := s[i];
      if c == '#' {
        i := SkipComment(s, i);
      } else if c == '"' {
        if i + 2 < n && s[i + 1] == '"' && s[i + 2] == '"' {
          i := SkipBlock(s, i);
        } else {
          i := SkipString(s, i);
        }
        b := b + " ";
      } else {
        PlainPassed(s, i);
        b := b + [c];
        i := i + 1;
      }
    }
  }

  method SkipComment(s: string, start: nat) returns (i: nat)
    requires start < |s| && s[start] == '#'
    ensures start < i && Remaining(s, start) == Remaining(s, i)
  {
    hide Remaining;
    i := start;
    while i < |s| && s[i] != '\n'
      invariant start <= i <= |s|
      invariant LineLength(s[start..]) == i - start + LineLength(s[i..])
    {
      assert s[i..][1..] == s[i + 1..];
      i := i + 1;
    }
    CommentPassed(s, start, i);
  }

  method SkipString(s: string, start: nat) returns (i: nat)
    requires start < |s| && s[start] == '"' && !(start + 2 < |s| && s[start + 1] == '"' && s[start + 2] == '"')
    ensures start < i && Remaining(s, start) == " " + Remaining(s, i)
  {
    hide Remaining, BodyLength;
    i := start + 1;
    while i < |s| && s[i] != '"'
      invariant start < i <= |s|
      invariant 1 + BodyLength(s[start + 1..]) == i - start + BodyLength(s[i..])
    {
      BodyStep(s, i);
      if s[i] == '\\' && i + 1 < |s| {
        i := i + 1;
      }
      i := i + 1;
    }
    BodyStep(s, i);
    StringPassed(s, start, i);
    i := i + 1;
  }

  method SkipBlock(s: string, start: nat) returns (i: nat)
    requires start + 2 < |s| && s[start] == s[start + 1] == s[start + 2] == '"'
    ensures start < i && Remaining(s, start) == " " + Remaining(s, i)
  {
    hide Remaining, BlockLength;
    i := start + 3;
    while i + 2 < |s| && !(s[i] == '"' && s[i + 1] == '"' && s[i + 2] == '"')
      invariant start + 3 <= i <= |s|
      invariant 3 + BlockLength(s[start + 3..]) == i - start + BlockLength(s[i..])
    {
      BlockStep(s, i);
      i := i + 1;
    }
    BlockStep(s, i);
    if i + 2 >= |s| {
      BlockPassed(s, start, |s|);
      RemainingEnds(s);
    } else {
      BlockPassed(s, start, i);
    }
    i := i + 3;
  }
}
