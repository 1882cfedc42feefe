/** GraphQL executable documents (October 2021, sections 2.2 to 2.12), their tokens, and what the token
    scanner finds in them. */
module Grammar {
  import opened Domain
  import opened Operations

  // ---------- syntax ----------

  /** NamedValue stands for booleans, null and enum values. */
  datatype Value =
    | Variable(name: string)
    | NumberValue(text: string)
    | StringValue(body: string)
    | BlockValue(body: string)
    | NamedValue(name: string)
    | ListValue(items: Values)
    | ObjectValue(fields: Fields)

  datatype Values = NoValues | MoreValues(head: Value, tail: Values)

  /** Object fields and arguments: names with values. */
  datatype Fields = NoFields | MoreFields(name: string, value: Value, tail: Fields)

  datatype Directives = NoDirectives | MoreDirectives(name: string, args: Fields, tail: Directives)

  datatype Type = NamedType(name: string) | ListType(of: Type) | NonNull(of: Type)

  datatype Variables =
    | NoVariables
    | MoreVariables(name: string, of: Type, default: Option<Value>, directives: Directives, tail: Variables)

  /** A field without sub-selection has `sub` empty. */
  datatype Selection =
    | Field(alias: Option<string>, name: string, args: Fields, directives: Directives, sub: Selections)
    | Spread(name: string, directives: Directives)
    | Inline(on: Option<string>, directives: Directives, sub: Selections)

  datatype Selections = NoSelections | MoreSelections(head: Selection, tail: Selections)

  datatype Kind = Query | Mutation | Subscription

  datatype Definition =
    | Anonymous(body: Selections)
    | Operation(kind: Kind, name: Option<string>, vars: Variables, directives: Directives, body: Selections)
    | Fragment(fragment: string, on: string, directives: Directives, body: Selections)

  // ---------- tokens ----------

  function P(c: char): seq<Token> { [Punct(c)] }

  function N(name: string): seq<Token> { [Name(name)] }

  function ValueTokens(v: Value): seq<Token> {
    match v
    case Variable(name) => P('$') + N(name)
    case NumberValue(text) => [Number(text)]
    case StringValue(body) => [StringToken(body)]
    case BlockValue(body) => [BlockToken(body)]
    case NamedValue(name) => N(name)
    case ListValue(items) => P('[') + ValuesTokens(items) + P(']')
    case ObjectValue(fields) => P('{') + FieldsTokens(fields) + P('}')
  }

  function ValuesTokens(vs: Values): seq<Token> {
    match vs
    case NoValues => []
    case MoreValues(head, tail) => ValueTokens(head) + ValuesTokens(tail)
  }

  function FieldsTokens(fs: Fields): seq<Token> {
    match fs
    case NoFields => []
    case MoreFields(name, value, tail) => N(name) + P(':') + ValueTokens(value) + FieldsTokens(tail)
  }

  function ArgumentTokens(args: Fields): seq<Token> {
    if args.NoFields? then [] else P('(') + FieldsTokens(args) + P(')')
  }

  function DirectiveTokens(ds: Directives): seq<Token> {
    match ds
    case NoDirectives => []
    case MoreDirectives(name, args, tail) => P('@') + N(name) + ArgumentTokens(args) + DirectiveTokens(tail)
  }

  function TypeTokens(t: Type): seq<Token> {
    match t
    case NamedType(name) => N(name)
    case ListType(of) => P('[') + TypeTokens(of) + P(']')
    case NonNull(of) => TypeTokens(of) + P('!')
  }

  function DefaultTokens(v: Option<Value>): seq<Token> { if v.None? then [] else P('=') + ValueTokens(v.value) }

  function VariableTokens(vs: Variables): seq<Token> {
    match vs
    case NoVariables => []
    case MoreVariables(name, of, default, directives, tail) =>
      P('$') + N(name) + P(':') + TypeTokens(of) + DefaultTokens(default) + DirectiveTokens(directives) + VariableTokens(tail)
  }

  function VariablesTokens(vs: Variables): seq<Token> {
    if vs.NoVariables? then [] else P('(') + VariableTokens(vs) + P(')')
  }

  function AliasTokens(alias: Option<string>): seq<Token> { if alias.None? then [] else N(alias.value) + P(':') }

  function ConditionTokens(on: Option<string>): seq<Token> { if on.None? then [] else N("on") + N(on.value) }

  function Braced(toks: seq<Token>): seq<Token> { P('{') + toks + P('}') }

  function SelectionTokens(s: Selection): seq<Token> {
    match s
    case Field(alias, name, args, directives, sub) =>
      AliasTokens(alias) + N(name) + ArgumentTokens(args) + DirectiveTokens(directives)
      + if sub.NoSelections? then [] else Braced(SelectionsTokens(sub))
    case Spread(name, directives) => [Dots] + N(name) + DirectiveTokens(directives)
    case Inline(on, directives, sub) =>
      [Dots] + ConditionTokens(on) + DirectiveTokens(directives) + Braced(SelectionsTokens(sub))
  }

  function SelectionsTokens(ss: Selections): seq<Token> {
    match ss
    case NoSelections => []
    case MoreSelections(head, tail) => SelectionTokens(head) + SelectionsTokens(tail)
  }

  function KindWord(kind: Kind): string {
    match kind case Query => "query" case Mutation => "mutation" case Subscription => "subscription"
  }

  function NameTokens(name: Option<string>): seq<Token> { if name.None? then [] else N(name.value) }

  /** Everything between a definition's first token and its selection set. */
  function HeaderTokens(d: Definition): seq<Token> {
    match d
    case Anonymous(_) => []
    case Operation(_, name, vars, directives, _) => NameTokens(name) + VariablesTokens(vars) + DirectiveTokens(directives)
    case Fragment(fragment, on, directives, _) => N(fragment) + N("on") + N(on) + DirectiveTokens(directives)
  }

  function KeywordTokens(d: Definition): seq<Token> {
    match d
    case Anonymous(_) => []
    case Operation(kind, _, _, _, _) => N(KindWord(kind))
    case Fragment(_, _, _, _) => N("fragment")
  }

  function DefinitionTokens(d: Definition): seq<Token> {
    KeywordTokens(d) + HeaderTokens(d) + Braced(SelectionsTokens(d.body))
  }

  function DocumentTokens(ds: seq<Definition>): seq<Token> {
    if ds == [] then [] else DefinitionTokens(ds[0]) + DocumentTokens(ds[1..])
  }

  /** The number of operation definitions. */
  function OperationsIn(ds: seq<Definition>): nat {
    if ds == [] then 0 else (if ds[0].Fragment? then 0 else 1) + OperationsIn(ds[1..])
  }

  // ---------- what the scanner can see outside braces ----------

  /** Outside braces the scanner sees words, and brace pairs as a whole. */
  datatype Mark = Word(name: string) | Braces

  function ValueMarks(v: Value): seq<Mark> {
    match v
    case Variable(name) => [Word(name)]
    case NamedValue(name) => [Word(name)]
    case ListValue(items) => ValuesMarks(items)
    case ObjectValue(_) => [Braces]
    case _ => []
  }

  function ValuesMarks(vs: Values): seq<Mark> {
    match vs
    case NoValues => []
    case MoreValues(head, tail) => ValueMarks(head) + ValuesMarks(tail)
  }

  function FieldsMarks(fs: Fields): seq<Mark> {
    match fs
    case NoFields => []
    case MoreFields(name, value, tail) => [Word(name)] + ValueMarks(value) + FieldsMarks(tail)
  }

  function DirectiveMarks(ds: Directives): seq<Mark> {
    match ds
    case NoDirectives => []
    case MoreDirectives(name, args, tail) => [Word(name)] + FieldsMarks(args) + DirectiveMarks(tail)
  }

  function TypeMarks(t: Type): seq<Mark> {
    match t
    case NamedType(name) => [Word(name)]
    case ListType(of) => TypeMarks(of)
    case NonNull(of) => TypeMarks(of)
  }

  function VariableMarks(vs: Variables): seq<Mark> {
    match vs
    case NoVariables => []
    case MoreVariables(name, of, default, directives, tail) =>
      [Word(name)] + TypeMarks(of) + (if default.None? then [] else ValueMarks(default.value)) + DirectiveMarks(directives)
      + VariableMarks(tail)
  }

  /** The words and the object values of a definition's header, in order. */
  function HeaderMarks(d: Definition): seq<Mark> {
    match d
    case Anonymous(_) => []
    case Operation(_, name, vars, directives, _) =>
      (if name.None? then [] else [Word(name.value)]) + VariableMarks(vars) + DirectiveMarks(directives)
    case Fragment(fragment, on, directives, _) => [Word(fragment), Word("on"), Word(on)] + DirectiveMarks(directives)
  }

  /** The operations the scanner takes the marks for, coming with `start`. */
  function Found(marks: seq<Mark>, start: bool): nat {
    if marks == [] then 0
    else
      var hit := start && (marks[0].Braces? || IsOperationWord(marks[0].name));
      (if hit then 1 else 0) + Found(marks[1..], StartAfter(marks[0], start))
  }

  /** Whether the scanner expects a definition after the mark. */
  function StartAfter(mark: Mark, start: bool): bool {
    mark.Braces? || (start && !IsOperationWord(mark.name) && mark.name != "fragment")
  }

  function StartAfterAll(marks: seq<Mark>, start: bool): bool {
    if marks == [] then start else StartAfterAll(marks[1..], StartAfter(marks[0], start))
  }

  lemma {:induction false} FoundConcat(a: seq<Mark>, b: seq<Mark>, start: bool)
    ensures Found(a + b, start) == Found(a, start) + Found(b, StartAfterAll(a, start))
    ensures StartAfterAll(a + b, start) == StartAfterAll(b, StartAfterAll(a, start))
  {
    if a == [] {
      assert a + b == b;
    } else {
      assert (a + b)[1..] == a[1..] + b;
      FoundConcat(a[1..], b, StartAfter(a[0], start));
    }
  }

  // ---------- tokens act as their marks ----------

  /** Inside braces the tokens leave no trace. */
  ghost predicate Inert(toks: seq<Token>) {
    forall rest, depth: nat, start :: depth > 0 ==> ScanTokens(toks + rest, depth, start) == ScanTokens(rest, depth, start)
  }

  ghost predicate ActsAs(toks: seq<Token>, marks: seq<Mark>) {
    forall rest, start ::
      ScanTokens(toks + rest, 0, start) == Found(marks, start) + ScanTokens(rest, 0, StartAfterAll(marks, start))
  }

  ghost predicate Acts(toks: seq<Token>, marks: seq<Mark>) { Inert(toks) && ActsAs(toks, marks) }

  lemma Both(a: seq<Token>, ma: seq<Mark>, b: seq<Token>, mb: seq<Mark>)
    requires Acts(a, ma) && Acts(b, mb)
    ensures Acts(a + b, ma + mb)
  {
    forall rest, depth: nat, start | depth > 0
      ensures ScanTokens(a + b + rest, depth, start) == ScanTokens(rest, depth, start)
    {
      assert a + b + rest == a + (b + rest);
    }
    forall rest, start
      ensures ScanTokens(a + b + rest, 0, start) == Found(ma + mb, start) + ScanTokens(rest, 0, StartAfterAll(ma + mb, start))
    {
      assert a + b + rest == a + (b + rest);
      FoundConcat(ma, mb, start);
    }
  }

  lemma Nothing()
    ensures Acts([], [])
  {
    forall rest: seq<Token>
      ensures [] + rest == rest
    {}
  }

  lemma OtherToken(t: Token)
    requires !t.Name? && t != Punct('{') && t != Punct('}')
    ensures Acts([t], [])
  {
    forall rest: seq<Token>
      ensures ([t] + rest)[1..] == rest
    {}
  }

  lemma NameToken(w: string)
    ensures Acts(N(w), [Word(w)])
  {
    hide IsOperationWord;
    forall rest: seq<Token>
      ensures (N(w) + rest)[1..] == rest
    {}
    forall start
      ensures StartAfterAll([Word(w)], start) == StartAfter(Word(w), start)
      ensures Found([Word(w)], start) == if start && IsOperationWord(w) then 1 else 0
    {
      assert [Word(w)][1..] == [];
    }
  }

  lemma InBraces(toks: seq<Token>)
    requires Inert(toks)
    ensures Acts(Braced(toks), [Braces])
  {
    forall rest: seq<Token>, depth: nat, start
      ensures ScanTokens(Braced(toks) + rest, depth, start) ==
        (if depth == 0 && start then 1 else 0) + ScanTokens(rest, depth, depth == 0 || start)
    {
      var inner := toks + (P('}') + rest);
      assert (Braced(toks) + rest)[0] == Punct('{') && (Braced(toks) + rest)[1..] == inner;
      assert ScanTokens(inner, depth + 1, start && depth > 0) == ScanTokens(P('}') + rest, depth + 1, start && depth > 0);
      assert (P('}') + rest)[1..] == rest;
    }
    forall start
      ensures StartAfterAll([Braces], start) && Found([Braces], start) == if start then 1 else 0
    {
      assert [Braces][1..] == [];
    }
  }

  lemma Surrounded(open: Token, toks: seq<Token>, close: Token, marks: seq<Mark>)
    requires Acts(toks, marks)
    requires open.Punct? && open.c != '{' && open.c != '}' && close.Punct? && close.c != '{' && close.c != '}'
    ensures Acts([open] + toks + [close], marks)
  {
    hide Acts;
    OtherToken(open);
    OtherToken(close);
    Both([open], [], toks, marks);
    Both([open] + toks, [] + marks, [close], []);
    assert [] + marks + [] == marks;
  }

  lemma {:induction false} ValueActs(v: Value)
    ensures Acts(ValueTokens(v), ValueMarks(v))
  {
    hide Acts, FieldsTokens, ValuesTokens;
    match v
    case Variable(name) =>
      OtherToken(Punct('$'));
      NameToken(name);
      Both(P('$'), [], N(name), [Word(name)]);
      assert [] + [Word(name)] == [Word(name)];
    case NumberValue(text) => OtherToken(Number(text));
    case StringValue(body) => OtherToken(StringToken(body));
    case BlockValue(body) => OtherToken(BlockToken(body));
    case NamedValue(name) => NameToken(name);
    case ListValue(items) =>
      ValuesAct(items);
      Surrounded(Punct('['), ValuesTokens(items), Punct(']'), ValuesMarks(items));
    case ObjectValue(fields) =>
      FieldsAct(fields);
      ActsInert(FieldsTokens(fields), FieldsMarks(fields));
      InBraces(FieldsTokens(fields));
  }

  lemma ActsInert(toks: seq<Token>, marks: seq<Mark>)
    requires Acts(toks, marks)
    ensures Inert(toks)
  {}

  lemma {:induction false} ValuesAct(vs: Values)
    ensures Acts(ValuesTokens(vs), ValuesMarks(vs))
  {
    hide Acts, ValueTokens, ValueMarks;
    match vs
    case NoValues => Nothing();
    case MoreValues(head, tail) =>
      ValueActs(head);
      ValuesAct(tail);
      Both(ValueTokens(head), ValueMarks(head), ValuesTokens(tail), ValuesMarks(tail));
  }

  /** A name before a separator. */
  lemma NameThen(name: string, c: char)
    requires c != '{' && c != '}'
    ensures Acts(N(name) + P(c), [Word(name)]) && Acts(P(c) + N(name), [Word(name)])
  {
    hide Acts;
    NameToken(name);
    OtherToken(Punct(c));
    Both(N(name), [Word(name)], P(c), []);
    Both(P(c), [], N(name), [Word(name)]);
    assert [Word(name)] + [] == [Word(name)] == [] + [Word(name)];
  }

  lemma {:induction false} FieldsAct(fs: Fields)
    ensures Acts(FieldsTokens(fs), FieldsMarks(fs))
  {
    hide Acts, ValueTokens, ValueMarks;
    match fs
    case NoFields => Nothing();
    case MoreFields(name, value, tail) =>
      NameThen(name, ':');
      ValueActs(value);
      FieldsAct(tail);
      Both(N(name) + P(':'), [Word(name)], ValueTokens(value), ValueMarks(value));
      Both(N(name) + P(':') + ValueTokens(value), [Word(name)] + ValueMarks(value), FieldsTokens(tail), FieldsMarks(tail));
  }

  lemma ArgumentsAct(args: Fields)
    ensures Acts(ArgumentTokens(args), FieldsMarks(args))
  {
    hide Acts, FieldsTokens;
    if args.NoFields? {
      Nothing();
    } else {
      FieldsAct(args);
      Surrounded(Punct('('), FieldsTokens(args), Punct(')'), FieldsMarks(args));
    }
  }

  lemma {:induction false} DirectivesAct(ds: Directives)
    ensures Acts(DirectiveTokens(ds), DirectiveMarks(ds))
  {
    hide Acts, ArgumentTokens, FieldsMarks;
    match ds
    case NoDirectives => Nothing();
    case MoreDirectives(name, args, tail) =>
      NameThen(name, '@');
      ArgumentsAct(args);
      DirectivesAct(tail);
      Both(P('@') + N(name), [Word(name)], ArgumentTokens(args), FieldsMarks(args));
      Both(P('@') + N(name) + ArgumentTokens(args), [Word(name)] + FieldsMarks(args), DirectiveTokens(tail),
           DirectiveMarks(tail));
  }

  lemma {:induction false} TypeActs(t: Type)
    ensures Acts(TypeTokens(t), TypeMarks(t))
  {
    hide Acts;
    match t
    case NamedType(name) => NameToken(name);
    case ListType(of) =>
      TypeActs(of);
      Surrounded(Punct('['), TypeTokens(of), Punct(']'), TypeMarks(of));
    case NonNull(of) =>
      TypeActs(of);
      OtherToken(Punct('!'));
      Both(TypeTokens(of), TypeMarks(of), P('!'), []);
      assert TypeMarks(of) + [] == TypeMarks(of);
  }

  lemma DefaultActs(v: Option<Value>)
    ensures Acts(DefaultTokens(v), if v.None? then [] else ValueMarks(v.value))
  {
    hide Acts, ValueTokens, ValueMarks;
    if v.None? {
      Nothing();
    } else {
      OtherToken(Punct('='));
      ValueActs(v.value);
      Both(P('='), [], ValueTokens(v.value), ValueMarks(v.value));
      assert [] + ValueMarks(v.value) == ValueMarks(v.value);
    }
  }

  lemma {:induction false} VariablesAct(vs: Variables)
    ensures Acts(VariableTokens(vs), VariableMarks(vs))
  {
    hide Acts, TypeTokens, TypeMarks, DefaultTokens, DirectiveTokens, DirectiveMarks, ValueMarks;
    match vs
    case NoVariables => Nothing();
    case MoreVariables(name, of, default, directives, tail) =>
      NameThen(name, '$');
      OtherToken(Punct(':'));
      TypeActs(of);
      DefaultActs(default);
      DirectivesAct(directives);
      VariablesAct(tail);
      var t1, m1 := P('$') + N(name) + P(':'), [Word(name)];
      Both(P('$') + N(name), [Word(name)], P(':'), []);
      assert [Word(name)] + [] == m1;
      Both(t1, m1, TypeTokens(of), TypeMarks(of));
      var t2, m2 := t1 + TypeTokens(of), m1 + TypeMarks(of);
      var md := if default.None? then [] else ValueMarks(default.value);
      Both(t2, m2, DefaultTokens(default), md);
      Both(t2 + DefaultTokens(default), m2 + md, DirectiveTokens(directives), DirectiveMarks(directives));
      Both(t2 + DefaultTokens(default) + DirectiveTokens(directives), m2 + md + DirectiveMarks(directives),
           VariableTokens(tail), VariableMarks(tail));
  }

  lemma VariableListActs(vs: Variables)
    ensures Acts(VariablesTokens(vs), VariableMarks(vs))
  {
    hide Acts, VariableTokens;
    if vs.NoVariables? {
      Nothing();
    } else {
      VariablesAct(vs);
      Surrounded(Punct('('), VariableTokens(vs), Punct(')'), VariableMarks(vs));
    }
  }

  // ---------- selection sets ----------

  lemma InertBoth(a: seq<Token>, b: seq<Token>)
    requires Inert(a) && Inert(b)
    ensures Inert(a + b)
  {
    forall rest, depth: nat, start | depth > 0
      ensures ScanTokens(a + b + rest, depth, start) == ScanTokens(rest, depth, start)
    {
      assert a + b + rest == a + (b + rest);
    }
  }

  lemma PiecesInert(name: string, args: Fields, directives: Directives, alias: Option<string>, on: Option<string>)
    ensures Inert([]) && Inert(N(name)) && Inert([Dots])
    ensures Inert(ArgumentTokens(args)) && Inert(DirectiveTokens(directives))
    ensures Inert(AliasTokens(alias)) && Inert(ConditionTokens(on))
  {
    hide Inert, ActsAs, ArgumentTokens, DirectiveTokens;
    Nothing();
    NameToken(name);
    OtherToken(Dots);
    ArgumentsAct(args);
    DirectivesAct(directives);
    if alias.Some? { NameThen(alias.value, ':'); }
    if on.Some? {
      NameToken("on");
      NameToken(on.value);
      InertBoth(N("on"), N(on.value));
    }
  }

  lemma BracedInert(toks: seq<Token>)
    requires Inert(toks)
    ensures Inert(Braced(toks))
  {
    InBraces(toks);
    ActsInert(Braced(toks), [Braces]);
  }

  lemma {:induction false} SelectionInert(s: Selection)
    ensures Inert(SelectionTokens(s))
  {
    hide Inert, ArgumentTokens, DirectiveTokens, AliasTokens, ConditionTokens, Braced, SelectionsTokens;
    match s
    case Field(alias, name, args, directives, sub) =>
      PiecesInert(name, args, directives, alias, None);
      SelectionsInert(sub);
      BracedInert(SelectionsTokens(sub));
      var t1 := AliasTokens(alias) + N(name);
      InertBoth(AliasTokens(alias), N(name));
      InertBoth(t1, ArgumentTokens(args));
      InertBoth(t1 + ArgumentTokens(args), DirectiveTokens(directives));
      InertBoth(t1 + ArgumentTokens(args) + DirectiveTokens(directives),
                if sub.NoSelections? then [] else Braced(SelectionsTokens(sub)));
    case Spread(name, directives) =>
      PiecesInert(name, NoFields, directives, None, None);
      InertBoth([Dots], N(name));
      InertBoth([Dots] + N(name), DirectiveTokens(directives));
    case Inline(on, directives, sub) =>
      PiecesInert("", NoFields, directives, None, on);
      SelectionsInert(sub);
      BracedInert(SelectionsTokens(sub));
      InertBoth([Dots], ConditionTokens(on));
      InertBoth([Dots] + ConditionTokens(on), DirectiveTokens(directives));
      InertBoth([Dots] + ConditionTokens(on) + DirectiveTokens(directives), Braced(SelectionsTokens(sub)));
  }

  lemma {:induction false} SelectionsInert(ss: Selections)
    ensures Inert(SelectionsTokens(ss))
  {
    hide Inert, SelectionTokens;
    match ss
    case NoSelections => PiecesInert("", NoFields, NoDirectives, None, None);
    case MoreSelections(head, tail) =>
      SelectionInert(head);
      SelectionsInert(tail);
      InertBoth(SelectionTokens(head), SelectionsTokens(tail));
  }

  // ---------- definitions ----------

  lemma HeaderActs(d: Definition)
    ensures Acts(HeaderTokens(d), HeaderMarks(d))
  {
    hide Acts, VariablesTokens, VariableMarks, DirectiveTokens, DirectiveMarks;
    match d
    case Anonymous(_) => Nothing();
    case Operation(_, name, vars, directives, _) =>
      var marks := if name.None? then [] else [Word(name.value)];
      if name.None? { Nothing(); } else { NameToken(name.value); }
      VariableListActs(vars);
      DirectivesAct(directives);
      Both(NameTokens(name), marks, VariablesTokens(vars), VariableMarks(vars));
      Both(NameTokens(name) + VariablesTokens(vars), marks + VariableMarks(vars), DirectiveTokens(directives),
           DirectiveMarks(directives));
    case Fragment(fragment, on, directives, _) =>
      NameToken(fragment);
      NameToken("on");
      NameToken(on);
      DirectivesAct(directives);
      Both(N(fragment), [Word(fragment)], N("on"), [Word("on")]);
      Both(N(fragment) + N("on"), [Word(fragment)] + [Word("on")], N(on), [Word(on)]);
      Both(N(fragment) + N("on") + N(on), [Word(fragment)] + [Word("on")] + [Word(on)], DirectiveTokens(directives), DirectiveMarks(directives));
      assert [Word(fragment)] + [Word("on")] + [Word(on)] == [Word(fragment), Word("on"), Word(on)];
  }

  function KeywordMarks(d: Definition): seq<Mark> {
    match d
    case Anonymous(_) => []
    case Operation(kind, _, _, _, _) => [Word(KindWord(kind))]
    case Fragment(_, _, _, _) => [Word("fragment")]
  }

  lemma DefinitionActs(d: Definition)
    ensures Acts(DefinitionTokens(d), KeywordMarks(d) + HeaderMarks(d) + [Braces])
  {
    hide Acts, Inert, HeaderTokens, HeaderMarks, SelectionsTokens, Braced;
    match d {
      case Anonymous(_) => Nothing();
      case Operation(kind, _, _, _, _) => NameToken(KindWord(kind));
      case Fragment(_, _, _, _) => NameToken("fragment");
    }
    HeaderActs(d);
    SelectionsInert(d.body);
    InBraces(SelectionsTokens(d.body));
    Both(KeywordTokens(d), KeywordMarks(d), HeaderTokens(d), HeaderMarks(d));
    Both(KeywordTokens(d) + HeaderTokens(d), KeywordMarks(d) + HeaderMarks(d), Braced(SelectionsTokens(d.body)), [Braces]);
  }

  /** Before any object value, of query, mutation, subscription and fragment the first to come is fragment. */
  predicate FragmentFirst(marks: seq<Mark>) {
    exists k :: 0 <= k < |marks| && marks[k] == Word("fragment")
      && forall j :: 0 <= j < k ==> marks[j].Word? && !IsOperationWord(marks[j].name)
  }

  /** The object values with no such `fragment` behind them: up to the next object value, or to the
      selection set, the scanner takes something for an operation. */
  function Unshielded(marks: seq<Mark>): nat {
    if marks == [] then 0
    else (if marks[0].Braces? && !FragmentFirst(marks[1..]) then 1 else 0) + Unshielded(marks[1..])
  }

  lemma FragmentFirstStep(marks: seq<Mark>)
    requires marks != []
    ensures FragmentFirst(marks) <==>
      marks[0] == Word("fragment") || (marks[0].Word? && !IsOperationWord(marks[0].name) && FragmentFirst(marks[1..]))
  {
    hide IsOperationWord;
    var rest := marks[1..];
    if marks[0] == Word("fragment") {
    } else if marks[0].Word? && !IsOperationWord(marks[0].name) && FragmentFirst(rest) {
      var k :| 0 <= k < |rest| && rest[k] == Word("fragment")
        && forall j :: 0 <= j < k ==> rest[j].Word? && !IsOperationWord(rest[j].name);
      assert marks[k + 1] == Word("fragment");
      forall j | 0 <= j < k + 1
        ensures marks[j].Word? && !IsOperationWord(marks[j].name)
      {
        if j > 0 { assert marks[j] == rest[j - 1]; }
      }
    } else if FragmentFirst(marks) {
      var k :| 0 <= k < |marks| && marks[k] == Word("fragment")
        && forall j :: 0 <= j < k ==> marks[j].Word? && !IsOperationWord(marks[j].name);
      assert k > 0 && rest[k - 1] == Word("fragment");
      assert forall j :: 0 <= j < k - 1 ==> rest[j] == marks[j + 1];
    }
  }

  lemma NoMarks()
    ensures !FragmentFirst([])
  {}

  /** Each of them makes the scanner find one operation too many, and nothing else does. */
  lemma {:induction false} FoundExactly(marks: seq<Mark>, start: bool)
    ensures Found(marks + [Braces], start) == Unshielded(marks) + if start && !FragmentFirst(marks) then 1 else 0
  {
    hide FragmentFirst;
    NoMarks();
    if marks == [] {
      assert [Braces][1..] == [];
      assert marks + [Braces] == [Braces];
    } else {
      var m, rest := marks[0], marks[1..];
      assert (marks + [Braces])[0] == m && (marks + [Braces])[1..] == rest + [Braces];
      FoundExactly(rest, StartAfter(m, start));
      FragmentFirstStep(marks);
    }
  }

  /** What the scanner counts beyond a definition's own operation. */
  function Surplus(d: Definition): nat { Unshielded(HeaderMarks(d)) }

  function TotalSurplus(ds: seq<Definition>): nat {
    if ds == [] then 0 else Surplus(ds[0]) + TotalSurplus(ds[1..])
  }

  lemma DefinitionCounted(d: Definition, rest: seq<Token>)
    ensures ScanTokens(DefinitionTokens(d) + rest, 0, true) ==
      (if d.Fragment? then 0 else 1) + Surplus(d) + ScanTokens(rest, 0, true)
  {
    hide ScanTokens, DefinitionTokens, Inert, HeaderMarks;
    var marks := KeywordMarks(d) + HeaderMarks(d) + [Braces];
    DefinitionActs(d);
    assert ScanTokens(DefinitionTokens(d) + rest, 0, true) == Found(marks, true) + ScanTokens(rest, 0, StartAfterAll(marks, true));
    DefinitionFound(d);
  }

  lemma DefinitionFound(d: Definition)
    ensures var marks := KeywordMarks(d) + HeaderMarks(d) + [Braces];
      Found(marks, true) == (if d.Fragment? then 0 else 1) + Surplus(d) && StartAfterAll(marks, true)
  {
    hide HeaderMarks, FragmentFirst;
    var marks, header := KeywordMarks(d) + HeaderMarks(d) + [Braces], HeaderMarks(d) + [Braces];
    FoundExactly(HeaderMarks(d), false);
    EndsAtStart(KeywordMarks(d) + HeaderMarks(d), true);
    if d.Anonymous? {
      AnonymousHeader(d);
      assert marks == [Braces] && marks[1..] == [];
    } else {
      assert marks[0] == KeywordMarks(d)[0] && marks[1..] == header;
    }
  }

  lemma AnonymousHeader(d: Definition)
    requires d.Anonymous?
    ensures HeaderMarks(d) == []
  {}

  lemma EndsAtStart(marks: seq<Mark>, start: bool)
    ensures StartAfterAll(marks + [Braces], start)
  {
    FoundConcat(marks, [Braces], start);
    assert [Braces][1..] == [];
  }

  lemma {:induction false} DocumentCounted(ds: seq<Definition>)
    ensures ScanTokens(DocumentTokens(ds), 0, true) == OperationsIn(ds) + TotalSurplus(ds)
  {
    hide DefinitionTokens, Surplus;
    if ds != [] {
      DocumentCounted(ds[1..]);
      DefinitionCounted(ds[0], DocumentTokens(ds[1..]));
    }
  }
}
