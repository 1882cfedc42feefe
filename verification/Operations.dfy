/** Counting operations (countOperations and readWord in internal/tools/lineargql/parse.go), down to
    the tokens. */
module Operations {
  import opened Domain
  import opened Lexical
  import opened October

  // ---------- the byte scanner ----------

  predicate IsLetter(c: char) { 'a' <= c <= 'z' || 'A' <= c <= 'Z' || c == '_' }

  predicate IsDigit(c: char) { '0' <= c <= '9' }

  predicate IsWordChar(c: char) { IsLetter(c) || IsDigit(c) }

  function WordLength(s: string): (n: nat)
    ensures n <= |s|
  {
    if s == [] || !IsWordChar(s[0]) then 0 else 1 + WordLength(s[1..])
  }

  predicate IsOperationWord(w: string) { w == "query" || w == "mutation" || w == "subscription" }

  /** The operations the scanner finds in stripped text. */
  function Scan(s: string, depth: nat, start: bool): nat
    decreases |s|
  {
    if s == [] then 0
    else if s[0] == '{' then (if depth == 0 && start then 1 else 0) + Scan(s[1..], depth + 1, start && depth > 0)
    else if s[0] == '}' then Scan(s[1..], if depth > 0 then depth - 1 else 0, start || depth <= 1)
    else if depth == 0 && start && IsLetter(s[0]) then
      var n := WordLength(s);
      if IsOperationWord(s[..n]) then 1 + Scan(s[n..], depth, false) else Scan(s[n..], depth, s[..n] != "fragment")
    else Scan(s[1..], depth, start)
  }

  /** readWord. */
  method ReadWord(s: string) returns (word: string, i: nat)
    ensures i == WordLength(s) && word == s[..i]
  {
    i := 0;
    while i < |s| && (IsLetter(s[i]) || IsDigit(s[i]))
      invariant i <= |s| && WordLength(s) == i + WordLength(s[i..])
    {
      assert s[i..][1..] == s[i + 1..];
      i := i + 1;
    }
    word := s[..i];
  }

  /** The operations the scanner finds in a text. */
  function Count(text: string): nat { Scan(Strip(text), 0, true) }

  /** countOperations. */
  method CountOperations(text: string) returns (ops: nat)
    ensures ops == Count(text)
  {
    hide Strip, Scan;
    var doc := StripGraphQL(text);
    ops := 0;
    var depth: nat, atDefStart := 0, true;
    var i, n := 0, |doc|;
    assert doc[0..] == doc;
    while i < n
      invariant 0 <= i <= n
      invariant ops + Scan(doc[i..], depth, atDefStart) == Scan(doc, 0, true)
      decreases n - i
    {
      var c := doc[i];
      ScanStep(doc, i, depth, atDefStart);
      if c == '{' {
        if depth == 0 && atDefStart {
          ops := ops + 1;
          atDefStart := false;
        }
        depth := depth + 1;
        i := i + 1;
      } else if c == '}' {
        if depth > 0 {
          depth := depth - 1;
        }
        if depth == 0 {
          atDefStart := true;
        }
        i := i + 1;
      } else if depth == 0 && atDefStart && IsLetter(c) {
        var word, adv := ReadWord(doc[i..]);
        if word == "query" || word == "mutation" || word == "subscription" {
          ops := ops + 1;
          atDefStart := false;
        } else if word == "fragment" {
          atDefStart := false;
        }
        i := i + adv;
      } else {
        i := i + 1;
      }
    }
    assert doc[i..] == "";
    ScanEnd(depth, atDefStart);
  }

  lemma ScanEnd(depth: nat, start: bool)
    ensures Scan("", depth, start) == 0
  {}

  lemma ScanStep(doc: string, i: nat, depth: nat, start: bool)
    requires i < |doc|
    ensures var s, c := doc[i..], doc[i];
      var n := WordLength(s);
      && (IsWordChar(c) ==> 0 < n <= |doc| - i)
      && Scan(s, depth, start) ==
           if c == '{' then (if depth == 0 && start then 1 else 0) + Scan(doc[i + 1..], depth + 1, start && depth > 0)
           else if c == '}' then Scan(doc[i + 1..], if depth > 0 then depth - 1 else 0, start || depth <= 1)
           else if depth == 0 && start && IsLetter(c) then
             if IsOperationWord(s[..n]) then 1 + Scan(doc[i + n..], depth, false)
             else Scan(doc[i + n..], depth, s[..n] != "fragment")
           else Scan(doc[i + 1..], depth, start)
  {
    var s := doc[i..];
    assert s[1..] == doc[i + 1..] && s[WordLength(s)..] == doc[i + WordLength(s)..];
  }

  // ---------- tokens ----------

  // On the text of any token list, with any ignored characters and comments between the tokens, the byte
  // scanner does what a scanner of tokens would do.

  /** The tokens of the GraphQL specification (October 2021, section 2.1.6); `body` is the raw text between the quotes. */
  datatype Token =
    | Punct(c: char)
    | Dots
    | Name(text: string)
    | Number(text: string)
    | StringToken(body: string)
    | BlockToken(body: string)

  predicate IsPunctuator(c: char) { c in {'!', '$', '&', '(', ')', ':', '=', '@', '[', ']', '{', '|', '}'} }

  predicate IsNumberChar(c: char) { IsDigit(c) || c in {'-', '+', '.', 'e', 'E'} }

  predicate NameOk(s: string) { s != "" && IsLetter(s[0]) && forall c | c in s :: IsWordChar(c) }

  /** The names of section 2.1.9: a letter or an underscore, then letters, underscores and digits. */
  lemma NamesExactly(s: string)
    ensures NameOk(s) <==>
      && s != "" && (s[0] == '_' || 'A' <= s[0] <= 'Z' || 'a' <= s[0] <= 'z')
      && forall i :: 0 <= i < |s| ==> s[i] == '_' || 'A' <= s[i] <= 'Z' || 'a' <= s[i] <= 'z' || '0' <= s[i] <= '9'
  {
    assert forall c :: IsWordChar(c) <==> c == '_' || 'A' <= c <= 'Z' || 'a' <= c <= 'z' || '0' <= c <= '9';
    assert (forall c | c in s :: IsWordChar(c)) <==> forall i :: 0 <= i < |s| ==> IsWordChar(s[i]) by {
      assert forall i :: 0 <= i < |s| ==> s[i] in s;
    }
  }

  /** Every token the specification allows. */
  predicate TokenOk(t: Token) {
    match t
    case Punct(c) => IsPunctuator(c)
    case Dots => true
    case Name(s) => NameOk(s)
    case Number(s) => s != "" && (IsDigit(s[0]) || s[0] == '-') && forall c | c in s :: IsNumberChar(c)
    case StringToken(body) => BodyOk(body)
    case BlockToken(body) => RawLength(body + TRIPLE) == |body|
  }

  predicate Wordy(t: Token) { t.Name? || t.Number? }

  predicate Quoted(t: Token) { t.StringToken? || t.BlockToken? }

  /** Put side by side the two would be read as something else: two words as one, an empty string
      and a quote as the start of a block string. */
  predicate NeedsGap(a: Token, b: Token) { (Wordy(a) && Wordy(b)) || (a == StringToken("") && Quoted(b)) }

  // ---------- printed text ----------

  datatype LineEnd = LF | CR | CRLF

  /** What a document's text is made of: tokens, single ignored characters, and comments with the line
      terminator that ends them. */
  datatype Item = Tok(t: Token) | Space(c: char) | Remark(text: string, end: LineEnd)

  /** White space, line terminators, commas and the three bytes of a byte order mark. */
  predicate IsIgnored(c: char) { c in {' ', '\t', '\n', '\r', ',', '\U{ef}', '\U{bb}', '\U{bf}'} }

  predicate OneLine(s: string) { '\n' !in s && '\r' !in s }

  predicate ItemOk(x: Item) {
    match x
    case Tok(t) => TokenOk(t)
    case Space(c) => IsIgnored(c)
    case Remark(text, _) => OneLine(text)
  }

  /** A comment that ends with the text. */
  predicate LastOk(last: Option<string>) { last.Some? ==> OneLine(last.value) }

  /** b can follow a: tokens stay apart where they must, and a carriage return is not made half of a
      line terminator. */
  predicate Fits(a: Item, b: Item) {
    && (a.Tok? && b.Tok? ==> !NeedsGap(a.t, b.t))
    && (a.Remark? && a.end.CR? ==> b != Space('\n'))
  }

  predicate ItemsOk(items: seq<Item>) {
    && (forall x | x in items :: ItemOk(x))
    && forall i :: 0 <= i < |items| - 1 ==> Fits(items[i], items[i + 1])
  }

  function TokenText(t: Token): string {
    match t
    case Punct(c) => [c]
    case Dots => "..."
    case Name(s) => s
    case Number(s) => s
    case StringToken(body) => "\"" + body + "\""
    case BlockToken(body) => TRIPLE + body + TRIPLE
  }

  function ItemText(x: Item): string {
    match x
    case Tok(t) => TokenText(t)
    case Space(c) => [c]
    case Remark(text, end) => "#" + text + EndText(end)
  }

  function EndText(end: LineEnd): string {
    match end case LF => "\n" case CR => "\r" case CRLF => "\r\n"
  }

  function Printed(items: seq<Item>): string { if items == [] then "" else ItemText(items[0]) + Printed(items[1..]) }

  /** The tokens among the items. */
  function Tokens(items: seq<Item>): seq<Token> {
    if items == [] then [] else (if items[0].Tok? then [items[0].t] else []) + Tokens(items[1..])
  }

  /** The text of a document: its items, and perhaps a comment that ends with the text. */
  function DocumentText(items: seq<Item>, last: Option<string>): string {
    Printed(items) + if last.Some? then "#" + last.value else ""
  }

  // ---------- stripping printed text ----------

  function Plains(s: string): seq<Lexeme> { if s == [] then [] else [Plain(s[0])] + Plains(s[1..]) }

  function Lexemes(x: Item): seq<Lexeme> {
    match x
    case Tok(StringToken(body)) => [Str(body)]
    case Tok(BlockToken(body)) => [Block(body)]
    case Tok(t) => Plains(TokenText(t))
    case Space(c) => [Plain(c)]
    case Remark(text, LF) => [Comment(text), Plain('\n')]
    case Remark(text, CR) => [Comment(text), Plain('\r')]
    case Remark(text, CRLF) => [Comment(text + "\r"), Plain('\n')]
  }

  /** The items the scanner reads as the specification does: neither a comment ended by a lone carriage
      return nor a block string with an escape in it. */
  predicate ReadableItem(x: Item) {
    match x
    case Tok(BlockToken(body)) => !Escaped(Block(body))
    case Remark(_, end) => !end.CR?
    case _ => true
  }

  predicate ReadableItems(items: seq<Item>) { forall x | x in items :: ReadableItem(x) }

  /** What stripping leaves of an item. */
  function ItemImage(x: Item): string {
    match x
    case Tok(t) => if Quoted(t) then " " else TokenText(t)
    case Space(c) => [c]
    case Remark(_, end) => if end.CR? then "\r" else "\n"
  }

  function Images(items: seq<Item>): string { if items == [] then "" else ItemImage(items[0]) + Images(items[1..]) }

  lemma {:induction false} PlainsRead(s: string, rest: seq<Lexeme>)
    requires NoLiterals(s)
    ensures Valid(rest) ==> Valid(Plains(s) + rest)
    ensures SpecValid(rest) ==> SpecValid(Plains(s) + rest)
    ensures Readable(Plains(s) + rest) == Readable(rest)
    ensures Text(Plains(s) + rest) == s + Text(rest) && Image(Plains(s) + rest) == s + Image(rest)
  {
    hide Valid, SpecValid, Readable, Text, Image, Plains, NoLiterals;
    PlainsStep(s);
    if s == [] {
      assert Plains(s) + rest == rest && s + Text(rest) == Text(rest) && s + Image(rest) == Image(rest);
    } else {
      var more := Plains(s[1..]) + rest;
      PlainsRead(s[1..], rest);
      MoreLexemes(Plain(s[0]), more);
      if SpecValid(rest) { MoreSpecLexemes(Plain(s[0]), more); }
      MoreReadable(Plain(s[0]), more);
      assert [Plain(s[0])] + Plains(s[1..]) + rest == [Plain(s[0])] + more;
      assert s == [s[0]] + s[1..];
    }
  }

  lemma PlainsStep(s: string)
    requires NoLiterals(s)
    ensures s == [] ==> Plains(s) == []
    ensures s != [] ==> Plains(s) == [Plain(s[0])] + Plains(s[1..]) && NoLiterals(s[1..]) && s[0] != '#' && s[0] != '"'
  {
    if s != [] {
      assert s[0] in s && forall c :: c in s[1..] ==> c in s;
    }
  }

  lemma NoQuotesIn(t: Token)
    requires TokenOk(t) && !Quoted(t)
    ensures NoLiterals(TokenText(t))
  {}

  /** One item in front of lexed text. */
  lemma ItemRead(x: Item, rest: seq<Lexeme>)
    requires ItemOk(x) && SpecValid(rest)
    requires x == Tok(StringToken("")) && Text(rest) != "" ==> Text(rest)[0] != '"'
    requires x.Remark? && x.end.CR? && Text(rest) != "" ==> Text(rest)[0] != '\n'
    ensures var ls := Lexemes(x) + rest;
      && SpecValid(ls) && Text(ls) == ItemText(x) + Text(rest) && Image(ls) == ItemImage(x) + Image(rest)
      && Readable(ls) == (ReadableItem(x) && Readable(rest))
  {
    hide Text, SpecValid, Image, Readable, BodyOk, Escaped, RawLength;
    match x
    case Tok(t) =>
      if t.StringToken? {
        LexemeRead(Str(t.body), rest);
      } else if t.BlockToken? {
        LexemeRead(Block(t.body), rest);
      } else {
        NoQuotesIn(t);
        PlainsRead(TokenText(t), rest);
      }
    case Space(c) => LexemeRead(Plain(c), rest);
    case Remark(text, end) => RemarkRead(text, end, rest);
  }

  lemma LexemeRead(x: Lexeme, rest: seq<Lexeme>)
    requires SpecValid(rest) && SpecValidBefore(x, Text(rest))
    ensures var ls := [x] + rest;
      && SpecValid(ls) && Text(ls) == TextOf(x) + Text(rest) && Image(ls) == ImageOf(x) + Image(rest)
      && Readable(ls) == (!ReturnEnded(x, Text(rest)) && !Escaped(x) && Readable(rest))
    ensures !x.Block? && !x.OpenBlock? ==> !Escaped(x)
  {
    hide SpecValid, SpecValidBefore, Readable, Text, Image, TextOf, ImageOf, EscapeAt, ReturnEnded;
    MoreLexemes(x, rest);
    MoreSpecLexemes(x, rest);
    MoreReadable(x, rest);
  }

  lemma RemarkRead(text: string, end: LineEnd, rest: seq<Lexeme>)
    requires OneLine(text) && SpecValid(rest)
    requires end.CR? && Text(rest) != "" ==> Text(rest)[0] != '\n'
    ensures var x := Remark(text, end);
      var ls := Lexemes(x) + rest;
      && SpecValid(ls) && Text(ls) == ItemText(x) + Text(rest) && Image(ls) == ItemImage(x) + Image(rest)
      && Readable(ls) == (!end.CR? && Readable(rest))
  {
    hide SpecValid, Readable, Text, Image, CommentLength;
    match end
    case LF =>
      CommentLengthOf(text, "\n" + Text(rest));
      EndRead(text, '\n', rest);
    case CR =>
      CommentLengthOf(text, "\r" + Text(rest));
      EndRead(text, '\r', rest);
    case CRLF =>
      TwoByteEnd(text, Text(rest));
      EndRead(text + "\r", '\n', rest);
      assert "#" + (text + "\r") + "\n" == "#" + text + "\r\n";
  }

  lemma EndRead(comment: string, c: char, rest: seq<Lexeme>)
    requires SpecValid(rest) && c in {'\n', '\r'} && CommentLength(comment + ([c] + Text(rest))) == |comment|
    ensures var ls := [Comment(comment), Plain(c)] + rest;
      && SpecValid(ls) && Text(ls) == "#" + comment + [c] + Text(rest) && Image(ls) == [c] + Image(rest)
      && Readable(ls) == (c != '\r' && Readable(rest))
  {
    hide SpecValid, Readable, Text, Image, CommentLength, Escaped;
    var more := [Plain(c)] + rest;
    LexemeRead(Plain(c), rest);
    LexemeRead(Comment(comment), more);
    assert [Comment(comment), Plain(c)] + rest == [Comment(comment)] + more;
  }

  lemma {:induction false} TwoByteEnd(text: string, rest: string)
    requires OneLine(text)
    ensures CommentLength(text + "\r" + ("\n" + rest)) == |text| + 1
  {
    var s := text + "\r" + ("\n" + rest);
    if text == "" {
      assert s[0] == '\r' && s[1] == '\n' && s[1..] == "\n" + rest;
    } else {
      assert text[0] in text && forall c :: c in text[1..] ==> c in text;
      assert s[1..] == text[1..] + "\r" + ("\n" + rest);
      TwoByteEnd(text[1..], rest);
    }
  }

  lemma FirstByte(items: seq<Item>, last: Option<string>)
    requires ItemsOk(items) && DocumentText(items, last) != ""
    ensures DocumentText(items, last)[0] == '"' ==> items != [] && items[0].Tok? && Quoted(items[0].t)
    ensures DocumentText(items, last)[0] == '\n' ==> items != [] && items[0] == Space('\n')
  {
    hide BodyOk, RawLength;
    if items != [] { assert ItemOk(items[0]); }
  }

  function LexemesOf(items: seq<Item>, last: Option<string>): seq<Lexeme> {
    if items == [] then (if last.Some? then [Comment(last.value)] else []) else Lexemes(items[0]) + LexemesOf(items[1..], last)
  }

  lemma ItemsTail(items: seq<Item>)
    requires ItemsOk(items) && items != []
    ensures ItemOk(items[0]) && ItemsOk(items[1..]) && (|items| > 1 ==> Fits(items[0], items[1]))
  {
    hide ItemOk, Fits;
    var rest := items[1..];
    assert forall x :: x in rest ==> x in items;
    forall i | 0 <= i < |rest| - 1
      ensures Fits(rest[i], rest[i + 1])
    {
      assert rest[i] == items[i + 1] && rest[i + 1] == items[i + 1 + 1];
    }
  }

  /** The specification reads printed text item by item, and finds it readable exactly if each of its
      items is. */
  lemma {:induction false} ItemsRead(items: seq<Item>, last: Option<string>)
    requires ItemsOk(items) && LastOk(last)
    ensures var ls := LexemesOf(items, last);
      && SpecValid(ls) && Text(ls) == DocumentText(items, last) && Image(ls) == Images(items)
      && Readable(ls) == ReadableItems(items)
  {
    hide SpecValid, Text, Image, Readable, ItemOk, Lexemes, ItemText, ItemImage, Fits, ReadableItem;
    if items == [] {
      LastComment(last);
    } else {
      ItemsTail(items);
      ItemsRead(items[1..], last);
      ItemApart(items, last);
      ItemRead(items[0], LexemesOf(items[1..], last));
      assert forall x :: x in items <==> x == items[0] || x in items[1..];
    }
  }

  lemma ItemApart(items: seq<Item>, last: Option<string>)
    requires items != [] && ItemsOk(items[1..]) && (|items| > 1 ==> Fits(items[0], items[1]))
    ensures var x, rest := items[0], DocumentText(items[1..], last);
      && (x == Tok(StringToken("")) && rest != "" ==> rest[0] != '"')
      && (x.Remark? && x.end.CR? && rest != "" ==> rest[0] != '\n')
  {
    hide ItemsOk, DocumentText;
    if DocumentText(items[1..], last) != "" { FirstByte(items[1..], last); }
  }

  lemma LastComment(last: Option<string>)
    requires LastOk(last)
    ensures var ls := LexemesOf([], last);
      && SpecValid(ls) && Text(ls) == DocumentText([], last) && Image(ls) == Images([]) && Readable(ls)
  {
    if last.Some? {
      CommentLengthOf(last.value, "");
      LexemeRead(Comment(last.value), []);
      LastLexeme(Comment(last.value));
      assert [Comment(last.value)] + [] == [Comment(last.value)];
      assert last.value + "" == last.value;
    }
  }

  /** On printed text the scanner's lexing is the specification's if and only if no comment is ended by a
      lone carriage return and no block string holds an escape. */
  lemma PrintedReadAlike(items: seq<Item>, last: Option<string>)
    requires ItemsOk(items) && LastOk(last)
    ensures SpecLex(DocumentText(items, last)) == LexemesOf(items, last)
    ensures Lex(DocumentText(items, last)) == LexemesOf(items, last) <==> ReadableItems(items)
  {
    hide Lex, SpecLex, LexemesOf, ReadableItems, ItemsOk;
    ItemsRead(items, last);
    SpecLexIsUnique(LexemesOf(items, last));
    AgreeExactly(DocumentText(items, last));
  }

  /** Stripping readable printed text leaves what it leaves of each item: a name or number as it is, a
      blank for a string, a line feed for a comment. */
  lemma StripPrinted(items: seq<Item>, last: Option<string>)
    requires ItemsOk(items) && LastOk(last) && ReadableItems(items)
    ensures Strip(DocumentText(items, last)) == Images(items)
  {
    hide Strip, Lex, LexemesOf, ReadableItems, ItemsOk;
    PrintedReadAlike(items, last);
    ItemsRead(items, last);
    StripIs(DocumentText(items, last));
  }

  lemma StripIs(s: string)
    ensures Strip(s) == Image(Lex(s))
  {}

  // ---------- the scanner on tokens ----------

  /** What the scanner does, told in tokens: only braces and names matter. */
  function ScanTokens(toks: seq<Token>, depth: nat, start: bool): nat {
    if toks == [] then 0
    else
      match toks[0]
      case Punct('{') =>
        (if depth == 0 && start then 1 else 0) + ScanTokens(toks[1..], depth + 1, start && depth > 0)
      case Punct('}') => ScanTokens(toks[1..], if depth > 0 then depth - 1 else 0, start || depth <= 1)
      case Name(w) =>
        if depth > 0 || !start then ScanTokens(toks[1..], depth, start)
        else if IsOperationWord(w) then 1 + ScanTokens(toks[1..], depth, false)
        else ScanTokens(toks[1..], depth, w != "fragment")
      case _ => ScanTokens(toks[1..], depth, start)
  }

  /** Characters that are no braces and start no word pass by. */
  lemma {:induction false} Passes(s: string, rest: string, depth: nat, start: bool)
    requires forall c :: c in s ==> c != '{' && c != '}' && (depth == 0 && start ==> !IsLetter(c))
    ensures Scan(s + rest, depth, start) == Scan(rest, depth, start)
  {
    if s == [] {
      assert s + rest == rest;
    } else {
      assert s[0] in s && forall c :: c in s[1..] ==> c in s;
      assert (s + rest)[1..] == s[1..] + rest;
      Passes(s[1..], rest, depth, start);
    }
  }

  predicate NoWordStart(s: string) { s == "" || !IsWordChar(s[0]) }

  lemma {:induction false} WholeWord(w: string, rest: string)
    requires NoWordStart(rest) && forall c :: c in w ==> IsWordChar(c)
    ensures WordLength(w + rest) == |w|
  {
    if w == [] {
      assert w + rest == rest;
    } else {
      assert w[0] in w && forall c :: c in w[1..] ==> c in w;
      assert (w + rest)[1..] == w[1..] + rest;
      WholeWord(w[1..], rest);
    }
  }

  lemma NameScanned(w: string, rest: string, depth: nat, start: bool)
    requires NameOk(w) && NoWordStart(rest)
    ensures Scan(w + rest, depth, start) ==
      if depth > 0 || !start then Scan(rest, depth, start)
      else if IsOperationWord(w) then 1 + Scan(rest, depth, false)
      else Scan(rest, depth, w != "fragment")
  {
    var s := w + rest;
    if depth > 0 || !start {
      Passes(w, rest, depth, start);
    } else {
      WholeWord(w, rest);
      assert s[..|w|] == w && s[|w|..] == rest && s[0] == w[0];
    }
  }

  /** The words in a number start with an e: none is a keyword. */
  lemma {:induction false} NumberScanned(n: string, rest: string, depth: nat, start: bool)
    requires NoWordStart(rest) && forall c :: c in n ==> IsNumberChar(c)
    ensures Scan(n + rest, depth, start) == Scan(rest, depth, start)
    decreases |n|
  {
    if depth > 0 || !start {
      Passes(n, rest, depth, start);
    } else if n == [] {
      assert n + rest == rest;
    } else {
      var s, k := n + rest, 1;
      assert n[0] in n;
      if IsLetter(n[0]) {
        k := WordLength(s);
        WordEnds(n, rest);
        assert s[..k][0] == n[0] && n[0] in {'e', 'E'};
      }
      assert s[k..] == n[k..] + rest;
      assert forall c :: c in n[k..] ==> c in n;
      NumberScanned(n[k..], rest, depth, start);
    }
  }

  lemma {:induction false} WordEnds(n: string, rest: string)
    requires NoWordStart(rest)
    ensures WordLength(n + rest) <= |n|
  {
    if n == [] {
      assert n + rest == rest;
    } else {
      assert (n + rest)[1..] == n[1..] + rest;
      WordEnds(n[1..], rest);
    }
  }

  /** One item in front of scanned text. */
  lemma ItemScanned(x: Item, rest: string, depth: nat, start: bool)
    requires ItemOk(x) && (x.Tok? && Wordy(x.t) ==> NoWordStart(rest))
    ensures Scan(ItemImage(x) + rest, depth, start) ==
      match x
      case Tok(Punct('{')) => (if depth == 0 && start then 1 else 0) + Scan(rest, depth + 1, start && depth > 0)
      case Tok(Punct('}')) => Scan(rest, if depth > 0 then depth - 1 else 0, start || depth <= 1)
      case Tok(Name(w)) =>
        if depth > 0 || !start then Scan(rest, depth, start)
        else if IsOperationWord(w) then 1 + Scan(rest, depth, false)
        else Scan(rest, depth, w != "fragment")
      case _ => Scan(rest, depth, start)
  {
    hide BodyOk, WordLength;
    match x
    case Tok(Name(w)) => NameScanned(w, rest, depth, start);
    case Tok(Number(n)) => NumberScanned(n, rest, depth, start);
    case Tok(Punct(c)) =>
      if c == '{' || c == '}' {
        assert ([c] + rest)[1..] == rest;
      } else {
        Passes([c], rest, depth, start);
      }
    case _ => Passes(ItemImage(x), rest, depth, start);
  }

  lemma ImagesStart(items: seq<Item>)
    requires ItemsOk(items) && !(items != [] && items[0].Tok? && Wordy(items[0].t))
    ensures NoWordStart(Images(items))
  {
    if items != [] { assert ItemOk(items[0]); }
  }

  lemma TokensEnd(depth: nat, start: bool)
    ensures Tokens([]) == [] && ScanTokens([], depth, start) == 0
  {}

  lemma TokensStep(items: seq<Item>, depth: nat, start: bool)
    requires items != []
    ensures var rest := Tokens(items[1..]);
      ScanTokens(Tokens(items), depth, start) ==
        match items[0]
        case Tok(Punct('{')) => (if depth == 0 && start then 1 else 0) + ScanTokens(rest, depth + 1, start && depth > 0)
        case Tok(Punct('}')) => ScanTokens(rest, if depth > 0 then depth - 1 else 0, start || depth <= 1)
        case Tok(Name(w)) =>
          if depth > 0 || !start then ScanTokens(rest, depth, start)
          else if IsOperationWord(w) then 1 + ScanTokens(rest, depth, false)
          else ScanTokens(rest, depth, w != "fragment")
        case _ => ScanTokens(rest, depth, start)
  {
    var toks, rest := Tokens(items), Tokens(items[1..]);
    if items[0].Tok? {
      assert toks == [items[0].t] + rest && toks[1..] == rest;
    } else {
      assert toks == rest;
    }
  }

  lemma {:induction false} ItemsScanned(items: seq<Item>, depth: nat, start: bool)
    requires ItemsOk(items)
    ensures Scan(Images(items), depth, start) == ScanTokens(Tokens(items), depth, start)
  {
    hide Scan, ScanTokens, Tokens, ItemOk, ItemImage, NoWordStart, Fits, IsOperationWord;
    TokensEnd(depth, start);
    if items == [] {
      ScanEnd(depth, start);
    } else {
      var rest := items[1..];
      ItemsTail(items);
      TokensStep(items, depth, start);
      if items[0].Tok? && Wordy(items[0].t) {
        WordyGap(items);
        ImagesStart(rest);
      }
      ItemScanned(items[0], Images(rest), depth, start);
      ItemsScanned(rest, depth, start);
      ItemsScanned(rest, depth, false);
      ItemsScanned(rest, depth, true);
      ItemsScanned(rest, depth + 1, start && depth > 0);
      ItemsScanned(rest, if depth > 0 then depth - 1 else 0, start || depth <= 1);
    }
  }

  lemma WordyGap(items: seq<Item>)
    requires |items| > 0 && items[0].Tok? && Wordy(items[0].t)
    requires |items| > 1 ==> Fits(items[0], items[1])
    ensures !(items[1..] != [] && items[1..][0].Tok? && Wordy(items[1..][0].t))
  {}

  /** The byte scanner on readable printed text does what the token scanner does on its tokens. */
  lemma TextScanned(items: seq<Item>, last: Option<string>)
    requires ItemsOk(items) && LastOk(last) && ReadableItems(items)
    ensures Count(DocumentText(items, last)) == ScanTokens(Tokens(items), 0, true)
  {
    hide Scan, Strip, ScanTokens, ItemsOk, ReadableItems;
    StripPrinted(items, last);
    ItemsScanned(items, 0, true);
  }

  // ---------- text the scanner misreads ----------

  lemma {:induction false} WordBlanked(s: string)
    ensures WordLength(Blank(s)) == WordLength(s) && Blank(s)[..WordLength(s)] == s[..WordLength(s)]
  {
    if s != [] && IsWordChar(s[0]) {
      assert Blank(s)[1..] == Blank(s[1..]);
      WordBlanked(s[1..]);
      var n := WordLength(s[1..]);
      assert s[..1 + n] == [s[0]] + s[1..][..n];
      assert Blank(s)[..1 + n] == [s[0]] + Blank(s[1..])[..n];
    }
  }

  lemma {:induction false} ScanBlanked(s: string, depth: nat, start: bool)
    ensures Scan(Blank(s), depth, start) == Scan(s, depth, start)
    decreases |s|
  {
    var t := Blank(s);
    if s != [] {
      assert t[0] == BlankChar(s[0]) && t[1..] == Blank(s[1..]);
      if s[0] == '{' {
        ScanBlanked(s[1..], depth + 1, start && depth > 0);
      } else if s[0] == '}' {
        ScanBlanked(s[1..], if depth > 0 then depth - 1 else 0, start || depth <= 1);
      } else if depth == 0 && start && IsLetter(s[0]) {
        WordBlanked(s);
        var n := WordLength(s);
        assert t[n..] == Blank(s[n..]);
        ScanBlanked(s[n..], depth, false);
        ScanBlanked(s[n..], depth, true);
      } else {
        ScanBlanked(s[1..], depth, start);
      }
    }
  }

  /** Whatever the text, what is counted is what its neutral text - which the scanner reads as the
      specification does - has. */
  lemma CountNeutral(s: string)
    ensures Count(s) == Count(Neutral(s)) && Lex(Neutral(s)) == SpecLex(Neutral(s))
  {
    hide Strip, Scan, Neutral, Lex, SpecLex, AlmostSame;
    ReadsNeutral(s);
    ScanBlanked(Strip(s), 0, true);
  }
}
