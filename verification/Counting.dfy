/** How right countOperations is (internal/tools/lineargql), and what becomes of the rule that a document
    holds one operation. */
module Counting {
  import opened Domain
  import opened Lexical
  import opened October
  import opened Operations
  import opened Grammar

  // ---------- on text the scanner reads as the specification does ----------

  /** `items`, with perhaps a last comment, is some printing of the document by the rules of October
      2021: its tokens in order, with any white space, commas and comments between them. */
  predicate Prints(ds: seq<Definition>, items: seq<Item>, last: Option<string>) {
    ItemsOk(items) && Tokens(items) == DocumentTokens(ds) && LastOk(last)
  }

  /** Exactly what is counted on readable text: the operation definitions, and the unshielded object
      values in definition headers. */
  lemma CountExactly(ds: seq<Definition>, items: seq<Item>, last: Option<string>)
    requires Prints(ds, items, last) && ReadableItems(items)
    ensures Count(DocumentText(items, last)) == OperationsIn(ds) + TotalSurplus(ds)
  {
    hide Strip, Scan, ItemsOk, ReadableItems;
    TextScanned(items, last);
    DocumentCounted(ds);
  }

  /** After each object value of the header, before the next one and before the selection set, the
      word `fragment` comes before any of query, mutation and subscription. */
  predicate Shielded(marks: seq<Mark>) {
    forall i :: 0 <= i < |marks| && marks[i].Braces? ==> FragmentFirst(marks[i + 1..])
  }

  lemma {:induction false} ShieldedExactly(marks: seq<Mark>)
    ensures Unshielded(marks) == 0 <==> Shielded(marks)
  {
    hide FragmentFirst;
    if marks != [] {
      var rest := marks[1..];
      ShieldedExactly(rest);
      assert forall i :: 0 <= i < |rest| ==> rest[i] == marks[i + 1] && rest[i + 1..] == marks[i + 1 + 1..];
      if Unshielded(marks) == 0 {
        forall i | 0 <= i < |marks| && marks[i].Braces?
          ensures FragmentFirst(marks[i + 1..])
        {
          if i > 0 { assert rest[i - 1] == marks[i] && rest[i - 1 + 1..] == marks[i + 1..]; }
        }
      }
    }
  }

  lemma {:induction false} NoSurplus(ds: seq<Definition>)
    ensures TotalSurplus(ds) == 0 <==> forall d :: d in ds ==> Shielded(HeaderMarks(d))
  {
    hide Unshielded, Shielded, HeaderMarks;
    if ds != [] {
      NoSurplus(ds[1..]);
      ShieldedExactly(HeaderMarks(ds[0]));
      assert forall d :: d in ds <==> d == ds[0] || d in ds[1..];
    }
  }

  /** On readable text the count is never too low, and it is right exactly when every header is shielded. */
  lemma CountRightExactly(ds: seq<Definition>, items: seq<Item>, last: Option<string>)
    requires Prints(ds, items, last) && ReadableItems(items)
    ensures Count(DocumentText(items, last)) >= OperationsIn(ds)
    ensures Count(DocumentText(items, last)) == OperationsIn(ds) <==> forall d :: d in ds ==> Shielded(HeaderMarks(d))
  {
    hide Count, Prints, ReadableItems, Shielded, HeaderMarks, OperationsIn, Surplus;
    CountExactly(ds, items, last);
    NoSurplus(ds);
  }

  /** Without object values in headers the count is the number of operation definitions, whatever the
      names - keywords included -, strings, comments and nesting. */
  lemma CountIsRight(ds: seq<Definition>, items: seq<Item>, last: Option<string>)
    requires Prints(ds, items, last) && ReadableItems(items) && forall d :: d in ds ==> Braces !in HeaderMarks(d)
    ensures Count(DocumentText(items, last)) == OperationsIn(ds)
  {
    hide Count, Prints, ReadableItems, HeaderMarks, OperationsIn, FragmentFirst;
    CountRightExactly(ds, items, last);
  }

  /** Which readable documents the rule of one operation lets through: those with one operation and all
      headers shielded, and those without any operation and with exactly one unshielded object value in
      the headers of their fragments. */
  lemma AcceptedExactly(ds: seq<Definition>, items: seq<Item>, last: Option<string>)
    requires Prints(ds, items, last) && ReadableItems(items)
    ensures Count(DocumentText(items, last)) == 1 <==>
      || (OperationsIn(ds) == 1 && forall d :: d in ds ==> Shielded(HeaderMarks(d)))
      || (OperationsIn(ds) == 0 && TotalSurplus(ds) == 1)
  {
    hide Count, Prints, ReadableItems, Shielded, HeaderMarks, OperationsIn, Surplus;
    CountExactly(ds, items, last);
    NoSurplus(ds);
  }

  /** No readable document with two operations or more gets a count of one, whatever its headers hold. */
  lemma NeverTwoTakenForOne(ds: seq<Definition>, items: seq<Item>, last: Option<string>)
    requires Prints(ds, items, last) && ReadableItems(items) && Count(DocumentText(items, last)) == 1
    ensures OperationsIn(ds) <= 1
  {
    hide Count, Prints, ReadableItems, HeaderMarks, OperationsIn, Shielded;
    CountRightExactly(ds, items, last);
  }

  // ---------- on any text ----------

  /** For any text at all, readable or not: if what the scanner takes it for is a document, the count is
      that document's. */
  lemma CountAnyText(s: string, ds: seq<Definition>, items: seq<Item>, last: Option<string>)
    requires Prints(ds, items, last) && DocumentText(items, last) == Neutral(s)
    ensures Count(s) == OperationsIn(ds) + TotalSurplus(ds)
  {
    hide Count, ReadableItems, ItemsOk, LastOk, Neutral, Lex, SpecLex, DocumentText, DocumentTokens, Tokens;
    CountNeutral(s);
    PrintedReadAlike(items, last);
    CountExactly(ds, items, last);
  }

  /** So the count of a document is right exactly when the document it is taken for has, in operations
      and unshielded object values together, as many as it has operations. */
  lemma CountRightOnAnyText(ds: seq<Definition>, items: seq<Item>, last: Option<string>,
                            read: seq<Definition>, items': seq<Item>, last': Option<string>)
    requires Prints(ds, items, last) && Prints(read, items', last')
    requires DocumentText(items', last') == Neutral(DocumentText(items, last))
    ensures Count(DocumentText(items, last)) == OperationsIn(ds) <==> OperationsIn(read) + TotalSurplus(read) == OperationsIn(ds)
  {
    hide Count, Prints, Neutral, DocumentText;
    CountAnyText(DocumentText(items, last), read, items', last');
  }

  // ---------- printings ----------

  lemma NoItems()
    ensures ItemsOk([]) && Tokens([]) == [] && Printed([]) == "" && ReadableItems([])
  {}

  lemma OneMoreItem(x: Item, items: seq<Item>)
    requires ItemOk(x) && ItemsOk(items) && (items != [] ==> Fits(x, items[0]))
    ensures var all := [x] + items;
      && ItemsOk(all) && Tokens(all) == (if x.Tok? then [x.t] else []) + Tokens(items)
      && Printed(all) == ItemText(x) + Printed(items) && ReadableItems(all) == (ReadableItem(x) && ReadableItems(items))
  {
    hide ItemOk, Fits, ItemText, ReadableItem;
    var all := [x] + items;
    assert all[1..] == items && forall y :: y in all <==> y == x || y in items;
    forall i | 0 <= i < |all| - 1
      ensures Fits(all[i], all[i + 1])
    {
      if i > 0 { assert all[i] == items[i - 1] && all[i + 1] == items[i - 1 + 1]; }
    }
  }

  function Spaced(toks: seq<Token>): seq<Item> { if toks == [] then [] else [Tok(toks[0]), Space(' ')] + Spaced(toks[1..]) }

  lemma {:induction false} SpacedItems(toks: seq<Token>)
    requires forall t :: t in toks ==> TokenOk(t)
    ensures ItemsOk(Spaced(toks)) && Tokens(Spaced(toks)) == toks
  {
    hide TokenOk, ItemsOk, Tokens, ReadableItems, Printed;
    NoItems();
    if toks != [] {
      var rest := Spaced(toks[1..]);
      SpacedItems(toks[1..]);
      OneMoreItem(Space(' '), rest);
      OneMoreItem(Tok(toks[0]), [Space(' ')] + rest);
      assert [Tok(toks[0]), Space(' ')] + rest == [Tok(toks[0])] + ([Space(' ')] + rest);
      assert [toks[0]] + toks[1..] == toks;
    }
  }

  /** Every document whose tokens are well formed has printings. */
  lemma HasPrinting(ds: seq<Definition>)
    requires forall t :: t in DocumentTokens(ds) ==> TokenOk(t)
    ensures Prints(ds, Spaced(DocumentTokens(ds)), None)
  {
    hide TokenOk, DocumentTokens;
    SpacedItems(DocumentTokens(ds));
  }

  /** A printing, a comment ended by a carriage return, and another printing. */
  lemma {:induction false} ItemsJoined(a: seq<Item>, c: string, b: seq<Item>)
    requires ItemsOk(a) && ItemsOk(b) && OneLine(c) && (b != [] ==> b[0] != Space('\n'))
    ensures var all := a + ([Remark(c, CR)] + b);
      ItemsOk(all) && Tokens(all) == Tokens(a) + Tokens(b) && Printed(all) == Printed(a) + ("#" + c + "\r" + Printed(b))
  {
    hide *;
    NoItems();
    var tail := [Remark(c, CR)] + b;
    if a == [] {
      RemarkFits(c, b);
      OneMoreItem(Remark(c, CR), b);
      RemarkAlone(c, b);
      assert a + tail == tail && Tokens(a) == [] && Printed(a) == "";
      assert [] + Tokens(b) == Tokens(b) && "" + ("#" + c + "\r" + Printed(b)) == "#" + c + "\r" + Printed(b);
    } else {
      var x, front, rest := a[0], a[1..], a[1..] + tail;
      ItemsTail(a);
      ItemsJoined(front, c, b);
      TokensFirst(a);
      if |a| == 1 { FitsRemark(x, c); } else { assert rest[0] == a[1]; }
      OneMoreItem(x, rest);
      assert a + tail == [x] + rest;
      var mine := if x.Tok? then [x.t] else [];
      assert mine + (Tokens(front) + Tokens(b)) == mine + Tokens(front) + Tokens(b);
      var last := "#" + c + "\r" + Printed(b);
      assert ItemText(x) + (Printed(front) + last) == ItemText(x) + Printed(front) + last;
    }
  }

  lemma RemarkAlone(c: string, b: seq<Item>)
    ensures ItemText(Remark(c, CR)) + Printed(b) == "#" + c + "\r" + Printed(b)
  {}

  lemma TokensFirst(a: seq<Item>)
    requires a != []
    ensures Tokens(a) == (if a[0].Tok? then [a[0].t] else []) + Tokens(a[1..]) && Printed(a) == ItemText(a[0]) + Printed(a[1..])
  {}

  lemma FitsRemark(x: Item, c: string)
    ensures Fits(x, Remark(c, CR))
  {}

  lemma RemarkFits(c: string, b: seq<Item>)
    requires OneLine(c) && (b != [] ==> b[0] != Space('\n'))
    ensures ItemOk(Remark(c, CR)) && (b != [] ==> Fits(Remark(c, CR), b[0]))
  {}

  lemma {:induction false} DocumentsJoined(a: seq<Definition>, b: seq<Definition>)
    ensures DocumentTokens(a + b) == DocumentTokens(a) + DocumentTokens(b)
    ensures OperationsIn(a + b) == OperationsIn(a) + OperationsIn(b)
  {
    hide DefinitionTokens;
    if a == [] {
      assert a + b == b;
    } else {
      assert (a + b)[1..] == a[1..] + b;
      DocumentsJoined(a[1..], b);
    }
  }

  // ---------- comments ended by a carriage return ----------

  lemma {:induction false} PrintingClosed(items: seq<Item>)
    ensures ClosedEnd(LexemesOf(items, None))
  {
    hide ClosedEnd;
    NothingOpen();
    if items != [] {
      PrintingClosed(items[1..]);
      ItemClosed(items[0]);
      ClosedConcat(Lexemes(items[0]), LexemesOf(items[1..], None));
    }
  }

  lemma NothingOpen()
    ensures ClosedEnd([])
  {}

  lemma ClosedConcat(a: seq<Lexeme>, b: seq<Lexeme>)
    requires ClosedEnd(a) && ClosedEnd(b)
    ensures ClosedEnd(a + b)
  {
    if b == [] { assert a + b == a; }
  }

  lemma ItemClosed(x: Item)
    ensures ClosedEnd(Lexemes(x))
  {
    match x
    case Tok(t) => PlainsClosed(TokenText(t));
    case _ =>
  }

  lemma {:induction false} PlainsClosed(s: string)
    ensures ClosedEnd(Plains(s))
  {
    if s != "" {
      PlainsClosed(s[1..]);
      ClosedConcat([Plain(s[0])], Plains(s[1..]));
    }
  }

  /** A comment without a line feed behind it takes the whole rest of the text with it. */
  lemma CommentTakesRest(a: string, rest: string)
    requires LexicallyClosed(a) && '\n' !in rest
    ensures Count(a + ("#" + rest)) == Count(a)
  {
    hide Lex, Scan, Valid, Text, Image;
    var x := Comment(rest);
    LastLexeme(x);
    LexIsUnique([x]);
    StripConcat(a, "#" + rest);
    assert Strip(a) + "" == Strip(a);
  }

  /** Whatever a document has after a comment that ends at a carriage return, up to the next line feed,
      the scanner does not see: without a line feed, every operation of ds2 is missed, and the count is
      that of ds1. */
  lemma ReturnHidesRest(ds1: seq<Definition>, items1: seq<Item>, c: string, ds2: seq<Definition>, items2: seq<Item>)
    requires Prints(ds1, items1, None) && ReadableItems(items1) && Prints(ds2, items2, None)
    requires OneLine(c) && '\n' !in Printed(items2)
    ensures var items := items1 + ([Remark(c, CR)] + items2);
      && Prints(ds1 + ds2, items, None)
      && Printed(items) == Printed(items1) + ("#" + c + "\r" + Printed(items2)) == DocumentText(items, None)
      && OperationsIn(ds1 + ds2) == OperationsIn(ds1) + OperationsIn(ds2)
      && Count(DocumentText(items, None)) == OperationsIn(ds1) + TotalSurplus(ds1)
  {
    hide Count, Printed, Lex, LexemesOf, DocumentTokens, Tokens, ItemsOk, ReadableItems, ClosedEnd, OperationsIn, Surplus;
    NoFeedFirst(items2);
    ItemsJoined(items1, c, items2);
    DocumentsJoined(ds1, ds2);
    PrintedReadAlike(items1, None);
    PrintingClosed(items1);
    TextOnly(items1);
    TextOnly(items1 + ([Remark(c, CR)] + items2));
    var rest := c + "\r" + Printed(items2);
    CommentTakesRest(Printed(items1), rest);
    assert "#" + rest == "#" + c + "\r" + Printed(items2);
    CountExactly(ds1, items1, None);
  }

  lemma TextOnly(items: seq<Item>)
    ensures DocumentText(items, None) == Printed(items)
  {}

  lemma NoFeedFirst(items: seq<Item>)
    requires '\n' !in Printed(items)
    ensures items != [] ==> items[0] != Space('\n')
  {}

  // ---------- where it fails: object values ----------

  /** query ($x: I = {a: 1}) { x } */
  const HEADER_OBJECT :=
    Operation(Query, None,
              MoreVariables("x", NamedType("I"), Some(ObjectValue(MoreFields("a", NumberValue("1"), NoFields))),
                            NoDirectives, NoVariables),
              NoDirectives, Only("x"))

  /** fragment f on T @d(a: {b: 1}) { x } */
  const FRAGMENT_OBJECT :=
    Fragment("f", "T",
             MoreDirectives("d", MoreFields("a", ObjectValue(MoreFields("b", NumberValue("1"), NoFields)), NoFields), NoDirectives),
             Only("x"))

  /** A selection set of one plain field. */
  function Only(name: string): Selections {
    MoreSelections(Field(None, name, NoFields, NoDirectives, NoSelections), NoSelections)
  }

  /** One operation, counted as two however it is printed readably: the braces of a default value end
      the header early, and the selection set counts as an anonymous operation. */
  lemma HeaderObjectCountsTwice(items: seq<Item>, last: Option<string>)
    requires Prints([HEADER_OBJECT], items, last) && ReadableItems(items)
    ensures OperationsIn([HEADER_OBJECT]) == 1 && Count(DocumentText(items, last)) == 2
  {
    hide Count, Prints, ReadableItems, FragmentFirst;
    CountExactly([HEADER_OBJECT], items, last);
    assert HeaderMarks(HEADER_OBJECT) == [Word("x"), Word("I"), Braces];
    BracesLast([Word("x"), Word("I")]);
    assert [HEADER_OBJECT][1..] == [];
  }

  /** A lone fragment passes for an operation. */
  lemma FragmentObjectCountsOnce(items: seq<Item>, last: Option<string>)
    requires Prints([FRAGMENT_OBJECT], items, last) && ReadableItems(items)
    ensures OperationsIn([FRAGMENT_OBJECT]) == 0 && Count(DocumentText(items, last)) == 1
  {
    hide Count, Prints, ReadableItems, FragmentFirst;
    CountExactly([FRAGMENT_OBJECT], items, last);
    var words := [Word("f"), Word("on"), Word("T"), Word("d"), Word("a")];
    assert HeaderMarks(FRAGMENT_OBJECT) == words + [Braces];
    BracesLast(words);
    assert [FRAGMENT_OBJECT][1..] == [];
  }

  lemma {:induction false} BracesLast(words: seq<Mark>)
    requires forall m :: m in words ==> m.Word?
    ensures Unshielded(words + [Braces]) == 1
  {
    hide FragmentFirst;
    NoMarks();
    if words == [] {
      assert words + [Braces] == [Braces] && [Braces][1..] == [];
    } else {
      assert (words + [Braces])[1..] == words[1..] + [Braces] && words[0] in words;
      BracesLast(words[1..]);
    }
  }

  // ---------- where it fails: carriage returns and escapes ----------

  const QUERY_A := Operation(Query, None, NoVariables, NoDirectives, Only("a"))
  const MUTATION_B := Operation(Mutation, None, NoVariables, NoDirectives, Only("b"))

  /** One token in front. */
  lemma Put(t: Token, items: seq<Item>) returns (all: seq<Item>)
    requires TokenOk(t) && ItemsOk(items) && (items != [] ==> Fits(Tok(t), items[0]))
    ensures all == [Tok(t)] + items && ItemsOk(all) && Tokens(all) == [t] + Tokens(items)
    ensures Printed(all) == TokenText(t) + Printed(items)
    ensures ReadableItems(all) == (ReadableItem(Tok(t)) && ReadableItems(items))
  {
    hide *;
    all := [Tok(t)] + items;
    TokenItem(t);
    OneMoreItem(Tok(t), items);
  }

  lemma TokenItem(t: Token)
    ensures ItemOk(Tok(t)) == TokenOk(t) && ItemText(Tok(t)) == TokenText(t)
  {}

  lemma PunctFits(c: char, x: Item)
    ensures Fits(Tok(Punct(c)), x)
  {}

  lemma NameFits(w: string, c: char)
    ensures Fits(Tok(Name(w)), Tok(Punct(c)))
  {}

  /** `word{field}` in front of other items. */
  lemma PutShort(word: string, field: string, items: seq<Item>) returns (all: seq<Item>)
    requires NameOk(word) && NameOk(field) && ItemsOk(items)
    ensures ItemsOk(all) && Tokens(all) == [Name(word)] + Braced(N(field)) + Tokens(items)
    ensures Printed(all) == word + "{" + field + "}" + Printed(items) && ReadableItems(all) == ReadableItems(items)
    ensures all[0] == Tok(Name(word))
  {
    hide ItemsOk, Tokens, Printed, ReadableItems, Fits, NameOk;
    if items != [] { PunctFits('}', items[0]); }
    var i1 := Put(Punct('}'), items);
    NameFits(field, '}');
    var i2 := Put(Name(field), i1);
    PunctFits('{', i2[0]);
    var i3 := Put(Punct('{'), i2);
    NameFits(word, '{');
    all := Put(Name(word), i3);
    assert Printed(i3) == "{" + (field + ("}" + Printed(items)));
    assert word + ("{" + (field + ("}" + Printed(items)))) == word + "{" + field + "}" + Printed(items);
  }

  lemma ShortTokens(d: Definition, word: string, field: string)
    requires d.Operation? && d == Operation(d.kind, None, NoVariables, NoDirectives, Only(field)) && word == KindWord(d.kind)
    ensures DocumentTokens([d]) == [Name(word)] + Braced(N(field)) && OperationsIn([d]) == 1 && TotalSurplus([d]) == 0
  {
    assert [d][1..] == [];
    assert HeaderMarks(d) == [];
    assert SelectionsTokens(Only(field)) == N(field);
  }

  lemma ShortPrinting(d: Definition, word: string, field: string) returns (items: seq<Item>)
    requires d.Operation? && d == Operation(d.kind, None, NoVariables, NoDirectives, Only(field)) && word == KindWord(d.kind)
    requires NameOk(word) && NameOk(field)
    ensures Prints([d], items, None) && ReadableItems(items) && Printed(items) == word + "{" + field + "}"
    ensures OperationsIn([d]) == 1 && TotalSurplus([d]) == 0
  {
    hide ItemsOk, Tokens, Printed, ReadableItems, NameOk, DocumentTokens, OperationsIn, Surplus;
    NoItems();
    ShortTokens(d, word, field);
    items := PutShort(word, field, []);
    assert word + "{" + field + "}" + "" == word + "{" + field + "}";
  }

  lemma QueryA() returns (items: seq<Item>)
    ensures Prints([QUERY_A], items, None) && ReadableItems(items) && Printed(items) == "query{a}"
    ensures OperationsIn([QUERY_A]) == 1 && TotalSurplus([QUERY_A]) == 0
  {
    hide Prints, Printed, ReadableItems, OperationsIn, Surplus;
    items := ShortPrinting(QUERY_A, "query", "a");
    assert "query" + "{" + "a" + "}" == "query{a}";
  }

  lemma MutationB() returns (items: seq<Item>)
    ensures Prints([MUTATION_B], items, None) && ReadableItems(items) && Printed(items) == "mutation{b}"
    ensures OperationsIn([MUTATION_B]) == 1 && TotalSurplus([MUTATION_B]) == 0
  {
    hide Prints, Printed, ReadableItems, OperationsIn, Surplus;
    items := ShortPrinting(MUTATION_B, "mutation", "b");
    assert "mutation" + "{" + "b" + "}" == "mutation{b}";
  }

  /** The document has an operation, and none is counted. */
  lemma CarriageReturnHidesOperation() returns (items: seq<Item>)
    ensures Prints([QUERY_A], items, None) && DocumentText(items, None) == "#\rquery{a}"
    ensures OperationsIn([QUERY_A]) == 1 && Count("#\rquery{a}") == 0
  {
    hide *;
    var items2 := QueryA();
    NothingPrinted();
    EmptyLine();
    ReturnHidesRest([], [], "", [QUERY_A], items2);
    items := [] + ([Remark("", CR)] + items2);
    assert [] + [QUERY_A] == [QUERY_A];
    assert "" + ("#" + "" + "\r" + "query{a}") == "#\rquery{a}";
  }

  lemma EmptyLine()
    ensures OneLine("")
  {}

  lemma NothingPrinted()
    ensures Prints([], [], None) && ReadableItems([]) && Printed([]) == "" && OperationsIn([]) == 0 && TotalSurplus([]) == 0
  {}

  /** The rule of one operation is passed by a document with two: the second stands behind a comment that
      ends at a carriage return. */
  lemma CarriageReturnPassesTwo() returns (items: seq<Item>)
    ensures Prints([QUERY_A, MUTATION_B], items, None) && DocumentText(items, None) == "query{a}#\rmutation{b}"
    ensures OperationsIn([QUERY_A, MUTATION_B]) == 2 && Count("query{a}#\rmutation{b}") == 1
  {
    hide *;
    var items1 := QueryA();
    var items2 := MutationB();
    EmptyLine();
    ReturnHidesRest([QUERY_A], items1, "", [MUTATION_B], items2);
    items := items1 + ([Remark("", CR)] + items2);
    assert [QUERY_A] + [MUTATION_B] == [QUERY_A, MUTATION_B];
    assert "query{a}" + ("#" + "" + "\r" + "mutation{b}") == "query{a}#\rmutation{b}";
  }

  /** {a(b:"..")} with a block string as the argument. */
  function Argued(body: string): Definition {
    Anonymous(MoreSelections(Field(None, "a", MoreFields("b", BlockValue(body), NoFields), NoDirectives, NoSelections), NoSelections))
  }

  const ARGUMENT := "{a(b:"

  lemma ArguedTokens(body: string, ds: seq<Definition>)
    ensures DocumentTokens([Argued(body)] + ds) ==
      [Punct('{')] + ([Name("a")] + ([Punct('(')] + ([Name("b")] + ([Punct(':')] + ([BlockToken(body)] + ([Punct(')')] + ([Punct('}')]
      + DocumentTokens(ds))))))))
    ensures OperationsIn([Argued(body)] + ds) == 1 + OperationsIn(ds)
  {
    hide DocumentTokens, SelectionsTokens;
    var d := Argued(body);
    assert ([d] + ds)[1..] == ds;
    DocumentFirst(d, ds);
    ArguedField(body);
    assert DefinitionTokens(d) == [] + [] + Braced(SelectionsTokens(d.body));
  }

  lemma ArguedField(body: string)
    ensures SelectionsTokens(Argued(body).body) == [Name("a"), Punct('('), Name("b"), Punct(':'), BlockToken(body), Punct(')')]
  {
    var args := MoreFields("b", BlockValue(body), NoFields);
    assert FieldsTokens(NoFields) == [];
    assert FieldsTokens(args) == [Name("b"), Punct(':'), BlockToken(body)];
    assert ArgumentTokens(args) == [Punct('('), Name("b"), Punct(':'), BlockToken(body), Punct(')')];
    assert SelectionsTokens(NoSelections) == [];
  }

  lemma DocumentFirst(d: Definition, ds: seq<Definition>)
    ensures DocumentTokens([d] + ds) == DefinitionTokens(d) + DocumentTokens(ds)
  {
    assert ([d] + ds)[1..] == ds;
  }

  lemma PutArgued(body: string, ds: seq<Definition>, rest: seq<Item>) returns (items: seq<Item>)
    requires TokenOk(BlockToken(body)) && Prints(ds, rest, None)
    ensures Prints([Argued(body)] + ds, items, None)
    ensures DocumentText(items, None) == ARGUMENT + (TRIPLE + body + TRIPLE) + (")}" + Printed(rest))
    ensures OperationsIn([Argued(body)] + ds) == 1 + OperationsIn(ds)
  {
    hide ItemsOk, Tokens, Printed, ReadableItems, Fits, RawLength, DocumentTokens, OperationsIn, Argued;
    ArguedTokens(body, ds);
    if rest != [] { PunctFits('}', rest[0]); }
    var i1 := Put(Punct('}'), rest);
    PunctFits(')', i1[0]);
    var i2 := Put(Punct(')'), i1);
    BlockFits(body, ')');
    var i3 := Put(BlockToken(body), i2);
    PunctFits(':', i3[0]);
    var i4 := Put(Punct(':'), i3);
    items := PutOpening(i4);
    assert Printed(i2) == ")" + ("}" + Printed(rest)) == ")}" + Printed(rest);
    var block := TRIPLE + body + TRIPLE;
    assert "{a(b" + (":" + (block + (")}" + Printed(rest)))) == ARGUMENT + block + (")}" + Printed(rest));
  }

  lemma BlockFits(body: string, c: char)
    ensures Fits(Tok(BlockToken(body)), Tok(Punct(c)))
  {}

  lemma PutOpening(rest: seq<Item>) returns (items: seq<Item>)
    requires ItemsOk(rest) && rest != [] && rest[0] == Tok(Punct(':'))
    ensures ItemsOk(items) && Printed(items) == "{a(b" + Printed(rest)
    ensures Tokens(items) == [Punct('{')] + ([Name("a")] + ([Punct('(')] + ([Name("b")] + Tokens(rest))))
  {
    hide ItemsOk, Tokens, Printed, ReadableItems, Fits;
    NameFits("b", ':');
    var i1 := Put(Name("b"), rest);
    PunctFits('(', i1[0]);
    var i2 := Put(Punct('('), i1);
    NameFits("a", '(');
    var i3 := Put(Name("a"), i2);
    PunctFits('{', i3[0]);
    items := Put(Punct('{'), i3);
    assert "{" + ("a" + ("(" + ("b" + Printed(rest)))) == "{a(b" + Printed(rest);
  }

  /** A block string that starts with the escape: the scanner ends it there, and takes the closing quotes
      for the start of another one. */
  lemma EscapeReadAs(mid: string, rest: string)
    requires NoLiterals(mid) && '"' !in rest
    ensures Strip(ARGUMENT + (TRIPLE + (ESCAPED + mid) + TRIPLE) + rest) == ARGUMENT + (" " + (mid + " "))
  {
    hide Text, Valid, Image, Lex, Plains, NoLiterals, SpecValid, Readable;
    var x, y := Block("\\"), OpenBlock(rest);
    LiteralsValid(rest);
    LastLexeme(y);
    PlainsRead(mid, [y]);
    MoreLexemes(x, Plains(mid) + [y]);
    PlainsRead(ARGUMENT, [x] + (Plains(mid) + [y]));
    LexIsUnique(Plains(ARGUMENT) + ([x] + (Plains(mid) + [y])));
    assert TextOf(x) == TRIPLE + ESCAPED;
    assert ARGUMENT + (TRIPLE + (ESCAPED + mid) + TRIPLE) + rest == ARGUMENT + (TextOf(x) + (mid + TextOf(y)));
  }

  lemma LiteralsValid(rest: string)
    requires '"' !in rest
    ensures NoLiterals(ARGUMENT) && ValidBefore(OpenBlock(rest), "")
    ensures forall after :: ValidBefore(Block("\\"), after)
  {
    NoTriples(rest, |rest|);
    NoTriples("\\" + TRIPLE, 1);
  }

  lemma NoTriples(s: string, n: nat)
    requires n <= |s| && forall i :: 0 <= i < n ==> s[i] != '"'
    ensures forall i: nat :: i < n ==> !TripleAt(s, i)
  {
    forall i: nat | i < n
      ensures !TripleAt(s, i)
    {
      if i + 3 <= |s| { assert s[i..i + 3][0] == s[i] && TRIPLE[0] == '"'; }
    }
  }

  lemma EscapedBody(mid: string)
    requires '"' !in mid && (mid == "" || mid[|mid| - 1] != '\\')
    ensures TokenOk(BlockToken(ESCAPED + mid))
  {
    hide TripleAt;
    var s, t := ESCAPED + mid + TRIPLE, mid + TRIPLE;
    assert s[..3] != TRIPLE by { assert s[..3][0] == '\\'; }
    assert EscapeAt(s, 0) by { assert s[0..4] == ESCAPED; }
    assert s[4..] == t;
    NoTriples(t, |mid|);
    TripleEnd(mid);
    RawLengthOf(t, |mid|);
  }

  /** Behind such a string nothing is seen until the next quote: every operation of ds is missed. */
  lemma EscapeHidesRest(ds: seq<Definition>, rest: seq<Item>) returns (items: seq<Item>)
    requires Prints(ds, rest, None) && '"' !in Printed(rest)
    ensures Prints([Argued(ESCAPED)] + ds, items, None)
    ensures DocumentText(items, None) == ARGUMENT + (TRIPLE + ESCAPED + TRIPLE) + (")}" + Printed(rest))
    ensures OperationsIn([Argued(ESCAPED)] + ds) == 1 + OperationsIn(ds) && Count(DocumentText(items, None)) == 1
  {
    hide Prints, Strip, Scan, DocumentText, Printed, OperationsIn, Argued, TokenOk, NoLiterals;
    assert ESCAPED + "" == ESCAPED;
    EscapedBody("");
    items := PutArgued(ESCAPED, ds, rest);
    NoLiteralsAtAll();
    EscapeReadAs("", ")}" + Printed(rest));
    OnceScanned();
  }

  lemma NoLiteralsAtAll()
    ensures NoLiterals("")
  {}

  lemma OnceScanned()
    ensures Scan(ARGUMENT + (" " + ("" + " ")), 0, true) == 1
  {
    hide Scan;
    var inner := "a(b:  ";
    assert ARGUMENT + (" " + ("" + " ")) == "{" + (inner + "");
    ItemScanned(Tok(Punct('{')), inner + "", 0, true);
    Passes(inner, "", 1, false);
    ScanEnd(1, false);
  }

  /** The rule of one operation is passed by a document with two: an escape in a block string hides the
      second. */
  lemma EscapedTriplePassesTwo() returns (items: seq<Item>)
    ensures Prints([Argued(ESCAPED), MUTATION_B], items, None)
    ensures DocumentText(items, None) == "{a(b:\"\"\"\\\"\"\"\"\"\")}mutation{b}"
    ensures OperationsIn([Argued(ESCAPED), MUTATION_B]) == 2
    ensures Count("{a(b:\"\"\"\\\"\"\"\"\"\")}mutation{b}") == 1
  {
    hide Count, Prints, DocumentText, Printed, OperationsIn, Argued, ReadableItems, Surplus;
    var rest := MutationB();
    items := EscapeHidesRest([MUTATION_B], rest);
    assert [Argued(ESCAPED)] + [MUTATION_B] == [Argued(ESCAPED), MUTATION_B];
    assert ARGUMENT + (TRIPLE + ESCAPED + TRIPLE) + (")}" + "mutation{b}") == "{a(b:\"\"\"\\\"\"\"\"\"\")}mutation{b}";
  }

  /** One operation, and two are counted: what stands in the block string behind the escape is read as
      part of the document. */
  lemma EscapedTripleCountsTwice() returns (items: seq<Item>)
    ensures Prints([Argued(ESCAPED + "}query{")], items, None)
    ensures DocumentText(items, None) == "{a(b:\"\"\"\\\"\"\"}query{\"\"\")}"
    ensures OperationsIn([Argued(ESCAPED + "}query{")]) == 1 && Count("{a(b:\"\"\"\\\"\"\"}query{\"\"\")}") == 2
  {
    hide Prints, Strip, Scan, DocumentText, Printed, OperationsIn, Argued, TokenOk, NoLiterals, ReadableItems, Surplus;
    var body := ESCAPED + "}query{";
    EscapedBody("}query{");
    NothingPrinted();
    items := PutArgued(body, [], []);
    assert [Argued(body)] + [] == [Argued(body)];
    KeywordLiteralFree();
    EscapeReadAs("}query{", ")}");
    TwiceScanned();
    assert ARGUMENT + (TRIPLE + body + TRIPLE) + (")}" + "") == "{a(b:\"\"\"\\\"\"\"}query{\"\"\")}";
    assert ARGUMENT + (TRIPLE + body + TRIPLE) + (")}" + "") == ARGUMENT + (TRIPLE + body + TRIPLE) + ")}";
  }

  lemma KeywordLiteralFree()
    ensures NoLiterals("}query{")
  {}

  lemma TwiceScanned()
    ensures Scan(ARGUMENT + (" " + ("}query{" + " ")), 0, true) == 2
  {
    hide Scan;
    var s2 := "query" + ("{" + (" " + ""));
    Passes(" ", "", 1, false);
    ScanEnd(1, false);
    ItemScanned(Tok(Punct('{')), " " + "", 0, false);
    NameScanned("query", "{" + (" " + ""), 0, true);
    ItemScanned(Tok(Punct('}')), s2, 1, false);
    var inner := "a(b: ";
    Passes(inner, "}" + s2, 1, false);
    ItemScanned(Tok(Punct('{')), inner + ("}" + s2), 0, true);
    assert ARGUMENT + (" " + ("}query{" + " ")) == "{" + (inner + ("}" + s2));
  }
}
