/** The command line of a turn (buildCommand and shellSingleQuote in internal/agent/claude/client.go),
    read back as a shell reads it. */
module Shell {
  import opened Domain

  // ---------- token recognition ----------

  // The lexical rules of the POSIX.1-2017 Shell Command Language: token recognition (section 2.3) and
  // quoting (section 2.2), which bash follows when it is given the string with -c.

  /** A character of a word; `quoted` says that quoting took any special meaning from it. */
  datatype Ch = Ch(c: char, quoted: bool)

  datatype Token = Word(chars: seq<Ch>) | Op(c: char)

  datatype Mode = Plain | Escaped | Single | Double | DoubleEscaped | Comment

  /** The lexer's state: what it is inside of, the word being read, the tokens already read. */
  datatype Lexer = Lexer(mode: Mode, word: Option<seq<Ch>>, out: seq<Token>) {
    function Begin(m: Mode): Lexer { Lexer(m, Some(if word.Some? then word.value else []), out) }

    function Add(m: Mode, chars: seq<Ch>): Lexer { Lexer(m, Some((if word.Some? then word.value else []) + chars), out) }

    function Finish(): Lexer { Lexer(Plain, None, if word.Some? then out + [Word(word.value)] else out) }
  }

  predicate IsBlank(c: char) { c == ' ' || c == '\t' }

  predicate IsOperator(c: char) { c in {'\n', '|', '&', ';', '<', '>', '(', ')'} }

  predicate IsQuoting(c: char) { c in {'\\', '\'', '"'} }

  function Next(l: Lexer, c: char): Lexer {
    match l.mode
    case Plain =>
      if c == '\\' then l.(mode := Escaped)
      else if c == '\'' then l.Begin(Single)
      else if c == '"' then l.Begin(Double)
      else if IsBlank(c) then l.Finish()
      else if IsOperator(c) then l.Finish().(out := l.Finish().out + [Op(c)])
      else if c == '#' && l.word.None? then l.(mode := Comment)
      else l.Add(Plain, [Ch(c, false)])
    case Escaped => if c == '\n' then l.(mode := Plain) else l.Add(Plain, [Ch(c, true)])
    case Single => if c == '\'' then l.(mode := Plain) else l.Add(Single, [Ch(c, true)])
    case Double =>
      if c == '"' then l.(mode := Plain)
      else if c == '\\' then l.(mode := DoubleEscaped)
      else l.Add(Double, [Ch(c, c != '$' && c != '`')])
    case DoubleEscaped =>
      if c == '\n' then l.(mode := Double)
      else if c in {'$', '`', '"', '\\'} then l.Add(Double, [Ch(c, true)])
      else l.Add(Double, [Ch('\\', true), Ch(c, true)])
    case Comment => if c == '\n' then Lexer(Plain, None, l.out + [Op(c)]) else l
  }

  function Read(l: Lexer, s: string): Lexer
    decreases |s|
  {
    if s == [] then l else Read(Next(l, s[0]), s[1..])
  }

  const START := Lexer(Plain, None, [])

  /** The tokens of s; None if a quotation is left open. */
  function Lex(s: string): Option<seq<Token>> {
    var l := Read(START, s);
    if l.mode == Plain || l.mode == Comment then Some(l.Finish().out) else None
  }

  /** No quotation, escape or comment is open at the end of s: more text can follow. */
  predicate LexicallyClosed(s: string) { Read(START, s).mode == Plain }

  // ---------- the command ----------

  const PENDING_SESSION := "pending"

  datatype ClientConfig = ClientConfig(command: string, model: string, effort: string, resume: bool, readTimeoutMs: int)

  /** strings.ReplaceAll(s, "'", `'\''`). */
  function EscapeQuotes(s: string): string {
    if s == [] then [] else (if s[0] == '\'' then "'\\''" else [s[0]]) + EscapeQuotes(s[1..])
  }

  function ShellSingleQuote(s: string): string { "'" + EscapeQuotes(s) + "'" }

  predicate Resumes(cfg: ClientConfig, sessionId: string) { cfg.resume && sessionId != "" && sessionId != PENDING_SESSION }

  function BuildCommand(cfg: ClientConfig, sessionId: string): string {
    var base := cfg.command;
    var withModel := if cfg.model != "" then base + " --model " + ShellSingleQuote(cfg.model) else base;
    var withEffort := if cfg.effort != "" then withModel + " --effort " + ShellSingleQuote(cfg.effort) else withModel;
    if Resumes(cfg, sessionId) then withEffort + " --resume " + sessionId else withEffort
  }

  // ---------- what the shell makes of it ----------

  function Unquoted(s: string): seq<Ch> { seq(|s|, i requires 0 <= i < |s| => Ch(s[i], false)) }

  function Quoted(s: string): seq<Ch> { seq(|s|, i requires 0 <= i < |s| => Ch(s[i], true)) }

  /** Nothing in s ends, joins or alters a word. */
  predicate IsPlainWord(s: string) {
    s != "" && s[0] != '#' && forall c | c in s :: !IsBlank(c) && !IsOperator(c) && !IsQuoting(c)
  }

  lemma {:induction false} ReadConcat(l: Lexer, a: string, b: string)
    ensures Read(l, a + b) == Read(Read(l, a), b)
    decreases |a|
  {
    if a == [] {
      assert a + b == b;
    } else {
      assert (a + b)[1..] == a[1..] + b;
      ReadConcat(Next(l, a[0]), a[1..], b);
    }
  }

  lemma {:induction false} ReadEscaped(l: Lexer, s: string)
    requires l.mode == Single && l.word.Some?
    ensures Read(l, EscapeQuotes(s)) == l.(word := Some(l.word.value + Quoted(s)))
    decreases |s|
  {
    if s == [] {
      assert l.word.value + Quoted(s) == l.word.value;
    } else {
      var head := if s[0] == '\'' then "'\\''" else [s[0]];
      ReadConcat(l, head, EscapeQuotes(s[1..]));
      var next := l.(word := Some(l.word.value + [Ch(s[0], true)]));
      if s[0] == '\'' {
        ReadFour(l);
      } else {
        ReadOne(l, s[0]);
      }
      ReadEscaped(next, s[1..]);
      assert l.word.value + Quoted(s) == next.word.value + Quoted(s[1..]);
    }
  }

  lemma ReadOne(l: Lexer, c: char)
    ensures Read(l, [c]) == Next(l, c)
  {
    assert [c][1..] == [];
  }

  /** `'\''` inside single quotes leaves them, adds a quote and enters them again. */
  lemma ReadFour(l: Lexer)
    requires l.mode == Single && l.word.Some?
    ensures Read(l, "'\\''") == l.(word := Some(l.word.value + [Ch('\'', true)]))
  {
    var s := "'\\''";
    ReadConcat(l, s[..1], s[1..]);
    ReadConcat(Read(l, s[..1]), s[1..2], s[2..]);
    ReadConcat(Read(Read(l, s[..1]), s[1..2]), s[2..3], s[3..]);
    assert s == s[..1] + s[1..] && s[1..] == s[1..2] + s[2..] && s[2..] == s[2..3] + s[3..];
    ReadOne(l, s[0]);
    ReadOne(Next(l, s[0]), s[1]);
    ReadOne(Next(Next(l, s[0]), s[1]), s[2]);
    ReadOne(Next(Next(Next(l, s[0]), s[1]), s[2]), s[3]);
  }

  lemma ReadQuoted(l: Lexer, s: string)
    requires l.mode == Plain && l.word.None?
    ensures Read(l, ShellSingleQuote(s)) == Lexer(Plain, Some(Quoted(s)), l.out)
  {
    ReadConcat(l, "'" + EscapeQuotes(s), "'");
    ReadConcat(l, "'", EscapeQuotes(s));
    ReadOne(l, '\'');
    ReadEscaped(l.Begin(Single), s);
    assert [] + Quoted(s) == Quoted(s);
    ReadOne(Lexer(Single, Some(Quoted(s)), l.out), '\'');
  }

  lemma {:induction false} ReadPlain(l: Lexer, s: string)
    requires l.mode == Plain && (l.word.None? ==> IsPlainWord(s))
    requires forall c | c in s :: !IsBlank(c) && !IsOperator(c) && !IsQuoting(c)
    ensures Read(l, s) == if s == [] then l else l.Add(Plain, Unquoted(s))
    decreases |s|
  {
    if s != [] {
      var next := l.Add(Plain, [Ch(s[0], false)]);
      assert s[0] in s;
      assert Next(l, s[0]) == next;
      ReadPlain(next, s[1..]);
      var word := if l.word.Some? then l.word.value else [];
      assert word + Unquoted(s) == (word + [Ch(s[0], false)]) + Unquoted(s[1..]);
      assert s[1..] == [] ==> Unquoted(s) == [Ch(s[0], false)];
    }
  }

  /** A blank, a plain word and another blank. */
  lemma ReadFlag(l: Lexer, flag: string)
    requires l.mode == Plain && IsPlainWord(flag)
    ensures Read(l, " " + flag + " ") == Lexer(Plain, None, l.Finish().out + [Word(Unquoted(flag))])
  {
    ReadConcat(l, " " + flag, " ");
    ReadConcat(l, " ", flag);
    ReadOne(l, ' ');
    ReadPlain(l.Finish(), flag);
    assert [] + Unquoted(flag) == Unquoted(flag);
    ReadOne(Lexer(Plain, Some(Unquoted(flag)), l.Finish().out), ' ');
  }

  lemma ReadOption(l: Lexer, flag: string, value: string)
    requires l.mode == Plain && IsPlainWord(flag)
    ensures var l' := Read(l, " " + flag + " " + ShellSingleQuote(value));
      l'.mode == Plain && l'.Finish().out == l.Finish().out + [Word(Unquoted(flag)), Word(Quoted(value))]
  {
    ReadConcat(l, " " + flag + " ", ShellSingleQuote(value));
    ReadFlag(l, flag);
    ReadQuoted(Read(l, " " + flag + " "), value);
  }

  function Option(flag: string, value: string): seq<Token> {
    if value != "" then [Word(Unquoted(flag)), Word(Quoted(value))] else []
  }

  function Append(command: string, flag: string, value: string): string {
    if value != "" then command + " " + flag + " " + ShellSingleQuote(value) else command
  }

  lemma ReadAppended(command: string, flag: string, value: string)
    requires LexicallyClosed(command) && IsPlainWord(flag)
    ensures LexicallyClosed(Append(command, flag, value))
    ensures Read(START, Append(command, flag, value)).Finish().out == Read(START, command).Finish().out + Option(flag, value)
  {
    hide Next, Read, ShellSingleQuote, Unquoted, Quoted, IsPlainWord, Lexer.Finish;
    if value != "" {
      var tail := " " + flag + " " + ShellSingleQuote(value);
      assert Append(command, flag, value) == command + tail;
      ReadConcat(START, command, tail);
      ReadOption(Read(START, command), flag, value);
    }
  }

  function Flags(cfg: ClientConfig): seq<Token> { Option("--model", cfg.model) + Option("--effort", cfg.effort) }

  /** The command without --resume. */
  function Flagged(cfg: ClientConfig): string { Append(Append(cfg.command, "--model", cfg.model), "--effort", cfg.effort) }

  lemma FlagsReadBack(cfg: ClientConfig)
    requires LexicallyClosed(cfg.command)
    ensures Lex(cfg.command).Some? && LexicallyClosed(Flagged(cfg))
    ensures Read(START, Flagged(cfg)).Finish().out == Lex(cfg.command).value + Flags(cfg)
  {
    assert IsPlainWord("--model") && IsPlainWord("--effort");
    hide Read, Option, Append, Lexer.Finish, IsPlainWord;
    ReadAppended(cfg.command, "--model", cfg.model);
    ReadAppended(Append(cfg.command, "--model", cfg.model), "--effort", cfg.effort);
  }

  lemma CommandParts(cfg: ClientConfig, sessionId: string)
    ensures BuildCommand(cfg, sessionId) == if Resumes(cfg, sessionId) then Flagged(cfg) + " --resume " + sessionId else Flagged(cfg)
  {
    hide ShellSingleQuote;
    var base, m, e := cfg.command, ShellSingleQuote(cfg.model), ShellSingleQuote(cfg.effort);
    assert base + " " + "--model" + " " + m == base + " --model " + m;
    var withModel := if cfg.model != "" then base + " --model " + m else base;
    assert withModel + " " + "--effort" + " " + e == withModel + " --effort " + e;
  }

  lemma ResumeAppended(cfg: ClientConfig, sessionId: string)
    requires LexicallyClosed(cfg.command)
    ensures Lex(cfg.command).Some?
    ensures Read(START, Flagged(cfg) + " --resume " + sessionId) ==
      Read(Lexer(Plain, None, Lex(cfg.command).value + Flags(cfg) + [Word(Unquoted("--resume"))]), sessionId)
  {
    hide Read, Next, Flags, Flagged, IsPlainWord, Lex, Unquoted, Lexer.Finish;
    FlagsReadBack(cfg);
    ResumeFlag();
    var l := Read(START, Flagged(cfg));
    ReadConcat(START, Flagged(cfg), " --resume ");
    ReadFlag(l, "--resume");
    ReadConcat(START, Flagged(cfg) + " --resume ", sessionId);
  }

  lemma ResumeFlag()
    ensures IsPlainWord("--resume") && " --resume " == " " + "--resume" + " "
  {}

  /** What the shell reads of the flags: each word with every character quoted. */
  lemma FlagsSpelled(cfg: ClientConfig)
    ensures Flags(cfg) ==
      (if cfg.model != "" then [Word(Unquoted("--model")), Word(Quoted(cfg.model))] else [])
      + (if cfg.effort != "" then [Word(Unquoted("--effort")), Word(Quoted(cfg.effort))] else [])
  {}

  /** For a lexically closed base command the shell reads the base's own tokens, then the flags as
      configured, model and effort byte for byte.  With resuming switched off, without a session id or
      while it is pending, that is all; else two words ask for the session, and an id that is a plain
      word comes back as itself. */
  lemma CommandReadsBack(cfg: ClientConfig, sessionId: string)
    requires LexicallyClosed(cfg.command)
    requires cfg.resume && sessionId != "" && sessionId != "pending" ==> IsPlainWord(sessionId)
    ensures Lex(cfg.command).Some?
    ensures Lex(BuildCommand(cfg, sessionId)) == Some(
      Lex(cfg.command).value + Flags(cfg)
      + if !cfg.resume || sessionId == "" || sessionId == "pending" then []
        else [Word(Unquoted("--resume")), Word(Unquoted(sessionId))])
  {
    hide Read, Flags, Flagged, BuildCommand, Unquoted, IsPlainWord;
    CommandParts(cfg, sessionId);
    ResumeAppended(cfg, sessionId);
    FlagsReadBack(cfg);
    if Resumes(cfg, sessionId) {
      var tokens := Lex(cfg.command).value + Flags(cfg) + [Word(Unquoted("--resume"))];
      IdReadsBack(tokens, sessionId);
      assert tokens + [Word(Unquoted(sessionId))] ==
        Lex(cfg.command).value + Flags(cfg) + [Word(Unquoted("--resume")), Word(Unquoted(sessionId))];
    } else {
      assert Lex(cfg.command).value + Flags(cfg) + [] == Lex(cfg.command).value + Flags(cfg);
    }
  }

  lemma IdReadsBack(tokens: seq<Token>, id: string)
    requires IsPlainWord(id)
    ensures Read(Lexer(Plain, None, tokens), id) == Lexer(Plain, Some(Unquoted(id)), tokens)
  {
    ReadPlain(Lexer(Plain, None, tokens), id);
    assert [] + Unquoted(id) == Unquoted(id);
  }

  // ---------- ids that are not plain words ----------

  predicate Special(c: char) { IsBlank(c) || IsOperator(c) || IsQuoting(c) }

  /** No word holds an unquoted blank, operator or quoting character. */
  predicate Clean(chars: seq<Ch>) { forall ch | ch in chars :: ch.quoted || !Special(ch.c) }

  /** The tokens read since `kept` hold clean words. */
  ghost predicate CleanSince(l: Lexer, kept: seq<Token>) {
    && kept <= l.out && (l.word.Some? ==> Clean(l.word.value))
    && forall i :: |kept| <= i < |l.out| && l.out[i].Word? ==> Clean(l.out[i].chars)
  }

  lemma {:induction false} ReadStaysClean(l: Lexer, s: string, kept: seq<Token>)
    requires CleanSince(l, kept)
    ensures CleanSince(Read(l, s), kept)
    decreases |s|
  {
    if s != [] {
      NextStaysClean(l, s[0], kept);
      ReadStaysClean(Next(l, s[0]), s[1..], kept);
    }
  }

  lemma NextStaysClean(l: Lexer, c: char, kept: seq<Token>)
    requires CleanSince(l, kept)
    ensures CleanSince(Next(l, c), kept)
  {}

  /** A leading '#' makes a comment of the id, at least up to a line end. */
  lemma {:induction false} CommentHides(tokens: seq<Token>, s: string)
    ensures var l := Read(Lexer(Comment, None, tokens), s);
      l == Lexer(Comment, None, tokens) || tokens + [Op('\n')] <= l.out
    decreases |s|
  {
    if s != [] {
      if s[0] == '\n' {
        OutGrows(Lexer(Plain, None, tokens + [Op('\n')]), s[1..]);
      } else {
        CommentHides(tokens, s[1..]);
      }
    }
  }

  lemma {:induction false} OutGrows(l: Lexer, s: string)
    ensures l.out <= Read(l, s).out
    decreases |s|
  {
    if s != [] { OutGrows(Next(l, s[0]), s[1..]); }
  }

  /** The id reaches the program as itself exactly when it is a plain word: the quoting that model and
      effort get is not given to it. */
  lemma ResumeReadsBackExactly(cfg: ClientConfig, sessionId: string)
    requires LexicallyClosed(cfg.command) && cfg.resume && sessionId != "" && sessionId != "pending"
    ensures Lex(cfg.command).Some?
    ensures IsPlainWord(sessionId) <==>
      Lex(BuildCommand(cfg, sessionId)) ==
        Some(Lex(cfg.command).value + Flags(cfg) + [Word(Unquoted("--resume")), Word(Unquoted(sessionId))])
  {
    hide Read, Flags, Flagged, BuildCommand, Unquoted, IsPlainWord;
    CommandParts(cfg, sessionId);
    ResumeAppended(cfg, sessionId);
    var tokens := Lex(cfg.command).value + Flags(cfg) + [Word(Unquoted("--resume"))];
    assert tokens + [Word(Unquoted(sessionId))] ==
      Lex(cfg.command).value + Flags(cfg) + [Word(Unquoted("--resume")), Word(Unquoted(sessionId))];
    if IsPlainWord(sessionId) {
      IdReadsBack(tokens, sessionId);
    } else {
      IdLost(tokens, sessionId);
    }
  }

  lemma IdLost(tokens: seq<Token>, id: string)
    requires id != "" && !IsPlainWord(id)
    ensures Read(Lexer(Plain, None, tokens), id).Finish().out != tokens + [Word(Unquoted(id))]
  {
    var start := Lexer(Plain, None, tokens);
    var l, all := Read(start, id), tokens + [Word(Unquoted(id))];
    if id[0] == '#' {
      CommentHides(tokens, id[1..]);
      assert all[|tokens|] == Word(Unquoted(id));
      assert l.Finish().out == tokens || l.Finish().out[|tokens|] == Op('\n');
    } else {
      var i :| 0 <= i < |id| && Special(id[i]);
      assert Unquoted(id)[i] == Ch(id[i], false);
      assert !Clean(Unquoted(id));
      ReadStaysClean(start, id, tokens);
      assert all[|tokens|] == Word(Unquoted(id));
    }
  }
}
