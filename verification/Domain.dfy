/** The plain data shared by every layer (internal/domain, internal/agent/event.go), and the string
    helpers its comparisons rest on.  Times are nanoseconds since the epoch. */
module Domain {
  datatype Option<+T> = None | Some(value: T)

  type Time = int

  const MAX_INT64 := 0x7fff_ffff_ffff_ffff

  // ---------- walking a map ----------

  /** A walk over `all` has `left` ahead of it and `done` behind it. */
  ghost predicate Walk(all: set<string>, left: set<string>, done: set<string>) { left + done == all && left !! done }

  lemma WalkStep(all: set<string>, left: set<string>, done: set<string>, id: string)
    requires Walk(all, left, done) && id in left
    ensures id in all && id !in done && Walk(all, left - {id}, done + {id}) && |left - {id}| < |left|
  {}

  lemma WalkEnds(all: set<string>, left: set<string>, done: set<string>)
    ensures Walk(all, all, {})
    ensures Walk(all, left, done) && left == {} ==> done == all
  {}

  // ---------- strings ----------

  predicate IsSpace(c: char) { c in {' ', '\t', '\n', '\r', '\U{0b}', '\U{0c}'} }

  function TrimLeft(s: string): string { if s != [] && IsSpace(s[0]) then TrimLeft(s[1..]) else s }

  function TrimRight(s: string): string {
    if s != [] && IsSpace(s[|s| - 1]) then TrimRight(s[..|s| - 1]) else s
  }

  function TrimSpace(s: string): string { TrimRight(TrimLeft(s)) }

  function LowerChar(c: char): char {
    if 'A' <= c <= 'Z' then ((c as int) + 32) as char else c
  }

  function ToLower(s: string): string { seq(|s|, i requires 0 <= i < |s| => LowerChar(s[i])) }

  function NormalizeState(state: string): string { ToLower(TrimSpace(state)) }

  predicate EqualFold(a: string, b: string) { ToLower(a) == ToLower(b) }

  /** Go's `<` on strings: byte-wise, a proper prefix first. */
  predicate StringLess(a: string, b: string) {
    b != [] && (a == [] || a[0] < b[0] || (a[0] == b[0] && StringLess(a[1..], b[1..])))
  }

  lemma {:induction false} StringLessTrichotomy(a: string, b: string)
    ensures (if StringLess(a, b) then 1 else 0) + (if StringLess(b, a) then 1 else 0) + (if a == b then 1 else 0) == 1
  {
    if a != [] && b != [] && a[0] == b[0] {
      StringLessTrichotomy(a[1..], b[1..]);
      assert a == [a[0]] + a[1..] && b == [b[0]] + b[1..];
    }
  }

  lemma {:induction false} StringLessTransitive(a: string, b: string, c: string)
    requires StringLess(a, b) && StringLess(b, c)
    ensures StringLess(a, c)
  {
    if a != [] && a[0] == b[0] == c[0] {
      StringLessTransitive(a[1..], b[1..], c[1..]);
    }
  }

  /** The order is lexical: the strings part at some position, where the first one ends or has the lower byte. */
  lemma {:induction false} StringLessMeaning(a: string, b: string)
    ensures StringLess(a, b) <==> exists k: nat :: k <= |a| && k < |b| && a[..k] == b[..k] && (k == |a| || a[k] < b[k])
  {
    if a != [] && b != [] && a[0] == b[0] {
      StringLessMeaning(a[1..], b[1..]);
      if k: nat :| k <= |a| && k < |b| && a[..k] == b[..k] && (k == |a| || a[k] < b[k]) {
        assert k > 0 && a[1..][..k - 1] == a[..k][1..] && b[1..][..k - 1] == b[..k][1..];
      }
      if k: nat :| k <= |a[1..]| && k < |b[1..]| && a[1..][..k] == b[1..][..k] && (k == |a[1..]| || a[1..][k] < b[1..][k]) {
        assert a[..k + 1] == [a[0]] + a[1..][..k] && b[..k + 1] == [b[0]] + b[1..][..k];
      }
    } else if b != [] && (a == [] || a[0] < b[0]) {
      assert a[..0] == b[..0];
    }
    SameFirst(a, b);
  }

  lemma SameFirst(a: string, b: string)
    ensures forall k: nat :: 0 < k <= |a| && k <= |b| && a[..k] == b[..k] ==> a[0] == b[0]
  {
    forall k: nat | 0 < k <= |a| && k <= |b| && a[..k] == b[..k]
      ensures a[0] == b[0]
    {
      assert a[..k][0] == b[..k][0];
    }
  }

  // ---------- normalisation ----------

  lemma {:induction false} TrimLeftLower(s: string)
    ensures TrimLeft(ToLower(s)) == ToLower(TrimLeft(s))
  {
    if s != [] && IsSpace(s[0]) {
      assert ToLower(s)[1..] == ToLower(s[1..]);
      TrimLeftLower(s[1..]);
    }
  }

  lemma {:induction false} TrimRightLower(s: string)
    ensures TrimRight(ToLower(s)) == ToLower(TrimRight(s))
  {
    if s != [] && IsSpace(s[|s| - 1]) {
      assert ToLower(s)[..|s| - 1] == ToLower(s[..|s| - 1]);
      TrimRightLower(s[..|s| - 1]);
    }
  }

  lemma {:induction false} TrimLeftDone(s: string)
    ensures TrimLeft(s) == [] || !IsSpace(TrimLeft(s)[0])
  {
    if s != [] && IsSpace(s[0]) { TrimLeftDone(s[1..]); }
  }

  lemma {:induction false} TrimRightDone(s: string)
    ensures TrimRight(s) == [] || !IsSpace(TrimRight(s)[|TrimRight(s)| - 1])
    ensures TrimRight(s) <= s
  {
    if s != [] && IsSpace(s[|s| - 1]) { TrimRightDone(s[..|s| - 1]); }
  }

  /** Comparing normalised states compares the names up to case and surrounding blanks: the
      normal form is a fixed point, and neither outer blanks nor case reach it. */
  lemma NormalizeStateIdempotent(state: string)
    ensures NormalizeState(NormalizeState(state)) == NormalizeState(state)
  {
    var t := TrimLeft(state);
    TrimLeftDone(state);
    TrimRightDone(t);
    var u := TrimRight(t);
    assert u != [] ==> u[0] == t[0];
    assert TrimLeft(u) == u && TrimRight(u) == u;
    TrimLeftLower(u);
    TrimRightLower(u);
    assert TrimSpace(ToLower(u)) == ToLower(u);
    assert ToLower(ToLower(u)) == ToLower(u);
  }

  const BLANKS := " \t\n\r\U{0b}\U{0c}"

  predicate AllBlank(s: string) { forall c | c in s :: c in BLANKS }

  lemma BlankChars(c: char)
    ensures c in BLANKS <==> IsSpace(c)
  {
    assert BLANKS[0] == ' ' && BLANKS[1] == '\t' && BLANKS[2] == '\n' && BLANKS[3] == '\r' && BLANKS[4] == '\U{0b}' && BLANKS[5] == '\U{0c}';
  }

  lemma {:induction false} LeftTrimmed(pre: string, rest: string)
    requires AllBlank(pre) && (rest == [] || rest[0] !in BLANKS)
    ensures TrimLeft(pre + rest) == rest
  {
    if pre != [] {
      BlankChars(pre[0]);
      assert (pre + rest)[0] == pre[0] && (pre + rest)[1..] == pre[1..] + rest;
      LeftTrimmed(pre[1..], rest);
    } else {
      assert pre + rest == rest;
      if rest != [] { BlankChars(rest[0]); }
    }
  }

  lemma {:induction false} RightTrimmed(rest: string, post: string)
    requires AllBlank(post) && (rest == [] || rest[|rest| - 1] !in BLANKS)
    ensures TrimRight(rest + post) == rest
  {
    if post != [] {
      var n := |post| - 1;
      BlankChars(post[n]);
      assert (rest + post)[..|rest| + n] == rest + post[..n] && (rest + post)[|rest| + n] == post[n];
      RightTrimmed(rest, post[..n]);
    } else {
      assert rest + post == rest;
      if rest != [] { BlankChars(rest[|rest| - 1]); }
    }
  }

  lemma Trimmed(pre: string, text: string, post: string)
    requires AllBlank(pre) && AllBlank(post)
    requires text != [] ==> text[0] !in BLANKS && text[|text| - 1] !in BLANKS
    ensures TrimSpace(pre + text + post) == text
  {
    if text == [] {
      assert pre + text + post == (pre + post) + [];
      LeftTrimmed(pre + post, []);
    } else {
      assert pre + text + post == pre + (text + post);
      LeftTrimmed(pre, text + post);
      RightTrimmed(text, post);
    }
  }

  /** The normal form of a name: without its outer blanks, and with A to Z in lower case. */
  lemma NormalForm(pre: string, name: string, post: string)
    requires AllBlank(pre) && AllBlank(post)
    requires name != [] ==> name[0] !in BLANKS && name[|name| - 1] !in BLANKS
    ensures var normal := NormalizeState(pre + name + post);
      && |normal| == |name|
      && forall i :: 0 <= i < |name| ==>
           if 'A' <= name[i] <= 'Z' then normal[i] as int == name[i] as int + ('a' as int - 'A' as int) else normal[i] == name[i]
  {
    Trimmed(pre, name, post);
    hide TrimSpace;
  }

  // ---------- issues ----------

  datatype Blocker = Blocker(state: Option<string>)

  datatype Issue = Issue(
    id: string, identifier: string, title: string, state: string,
    priority: Option<int>, created: Option<Time>, labels: seq<string>,
    blockedBy: seq<Blocker>, assignee: Option<string>, url: Option<string>)

  // ---------- token usage ----------

  datatype Usage = Usage(input: int, output: int, total: int) {
    function Plus(other: Usage): Usage {
      Usage(input + other.input, output + other.output, total + other.total)
    }
    predicate Balanced() { total == input + output }
  }

  const NoUsage := Usage(0, 0, 0)

  lemma PlusLaws(a: Usage, b: Usage, c: Usage)
    ensures a.Plus(b).Plus(c) == a.Plus(b.Plus(c)) && a.Plus(b) == b.Plus(a)
    ensures a.Plus(NoUsage) == a == NoUsage.Plus(a)
  {}

  lemma PlusRegroup(a: Usage, b: Usage, c: Usage, d: Usage)
    ensures a.Plus(b).Plus(c).Plus(d) == a.Plus(b.Plus(d)).Plus(c)
    ensures a.Plus(b).Plus(c) == a.Plus(c.Plus(b)) == a.Plus(c).Plus(b)
  {}

  /** An agent event (agent.Event).  `turnNumber` is what strconv.Atoi makes of TurnID. */
  datatype AgentEvent = AgentEvent(
    kind: string, timestamp: Time, pid: Option<string>, sessionId: string, turnId: string,
    turnNumber: Option<int>, message: string, detail: string,
    usage: Option<Usage>, stepUsage: Option<Usage>, rateLimits: Option<string>)
}
