/** Which session each turn of an attempt asks for: none before a line has named one, and from then on the
    one named last, whichever turn named it. */
module Resumption {
  import opened Domain
  import opened Stream
  import opened Reports
  import opened Runner
  import Shell

  /** The inputs turn j has read. */
  function Heard(r: Settings, w: World, j: nat): seq<Input> {
    if w.turns(j).spawnError.Some? then [] else w.turns(j).inputs[..Taken(w.turns(j).inputs, r.client.readTimeoutMs > 0)]
  }

  predicate Silent(inputs: seq<Input>) { forall m :: 0 <= m < |inputs| ==> !Names(inputs[m]) }

  /** inputs[m] is the last line to name the session. */
  predicate NamedLast(inputs: seq<Input>, m: nat) { m < |inputs| && Names(inputs[m]) && Silent(inputs[m + 1..]) }

  lemma SessionStep(r: Settings, w: World, j: nat)
    requires j >= 1
    ensures SessionAt(r, w, j + 1) == SessionAfter(SessionAt(r, w, j), Heard(r, w, j))
    ensures SessionAt(r, w, 1) == "pending"
  {
    hide SessionAfter, Taken;
    Stream.NothingYet(TurnFor(r.client, w.turns(j), SessionAt(r, w, j), j));
  }

  lemma SilentKeeps(session: string, inputs: seq<Input>)
    ensures Silent(inputs) ==> SessionAfter(session, inputs) == session
    ensures forall m: nat :: NamedLast(inputs, m) ==> SessionAfter(session, inputs) == inputs[m].evt.sessionId
  {
    SessionIsLastNamed(session, inputs);
    assert forall y: Input :: NamesSession(y) == Names(y);
  }

  lemma {:induction false} StillPending(r: Settings, w: World, j: nat)
    requires j >= 1 && forall i :: 1 <= i < j ==> Silent(Heard(r, w, i))
    ensures SessionAt(r, w, j) == "pending"
  {
    hide SessionAt, Heard, Silent, SessionAfter;
    SessionStep(r, w, 1);
    if j > 1 {
      StillPending(r, w, j - 1);
      SessionStep(r, w, j - 1);
      SilentKeeps("pending", Heard(r, w, j - 1));
    }
  }

  lemma {:induction false} StillNamed(r: Settings, w: World, i: nat, m: nat, j: nat)
    requires 1 <= i < j && NamedLast(Heard(r, w, i), m) && forall l :: i < l < j ==> Silent(Heard(r, w, l))
    ensures SessionAt(r, w, j) == Heard(r, w, i)[m].evt.sessionId
    decreases j
  {
    SessionStep(r, w, j - 1);
    SilentKeeps(SessionAt(r, w, j - 1), Heard(r, w, j - 1));
    hide SessionAt, Heard, Silent, SessionAfter;
    if i < j - 1 { StillNamed(r, w, i, m, j - 1); }
  }

  /** The command of turn j, as the shell reads it.  Turn 1, and every turn before a line has named the
      session, runs the base command with its flags and resumes nothing. */
  lemma NothingToResume(r: Settings, w: World, issue: Issue, attempt: Option<int>, j: nat)
    requires j >= 1 && Shell.LexicallyClosed(r.client.command)
    requires forall i :: 1 <= i < j ==> Silent(Heard(r, w, i))
    ensures Shell.Lex(r.client.command).Some?
    ensures Shell.Lex(TurnCall(r, w, issue, attempt, j).command) ==
      Some(Shell.Lex(r.client.command).value + Shell.Flags(r.client))
  {
    hide SessionAt, Heard, Silent, Shell.Lex, Shell.BuildCommand, Shell.Flags, Shell.LexicallyClosed;
    StillPending(r, w, j);
    Shell.CommandReadsBack(r.client, "pending");
    assert Shell.Lex(r.client.command).value + Shell.Flags(r.client) + [] == Shell.Lex(r.client.command).value + Shell.Flags(r.client);
  }

  /** Once turn i has named a session and no later one another, turn j asks for it, if resuming is on. */
  lemma ResumesLastNamed(r: Settings, w: World, issue: Issue, attempt: Option<int>, i: nat, m: nat, j: nat)
    requires Shell.LexicallyClosed(r.client.command)
    requires 1 <= i < j && NamedLast(Heard(r, w, i), m) && forall l :: i < l < j ==> Silent(Heard(r, w, l))
    requires var id := Heard(r, w, i)[m].evt.sessionId; id != "pending" && Shell.IsPlainWord(id)
    ensures Shell.Lex(r.client.command).Some?
    ensures Shell.Lex(TurnCall(r, w, issue, attempt, j).command) ==
      Some(Shell.Lex(r.client.command).value + Shell.Flags(r.client)
           + if !r.client.resume then []
             else [Shell.Word(Shell.Unquoted("--resume")), Shell.Word(Shell.Unquoted(Heard(r, w, i)[m].evt.sessionId))])
  {
    StillNamed(r, w, i, m, j);
    NamedNonempty(Heard(r, w, i), m);
    hide SessionAt, Heard, Silent, NamedLast, Shell.Lex, Shell.BuildCommand, Shell.Flags, Shell.LexicallyClosed, Shell.IsPlainWord,
      Shell.Unquoted;
    Shell.CommandReadsBack(r.client, SessionAt(r, w, j));
  }

  lemma NamedNonempty(inputs: seq<Input>, m: nat)
    requires NamedLast(inputs, m)
    ensures inputs[m].evt.sessionId != ""
  {}
}
