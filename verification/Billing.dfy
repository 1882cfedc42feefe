/** From the stream to the books: what an attempt reports is what the result lines of its turns say, and
    that is what the orchestrator books for it. */
module Billing {
  import opened Domain
  import opened State
  import opened System
  import opened Histories
  import opened Stream
  import opened Reports
  import opened Runner
  import opened Workers

  /** What the result line of one turn says; nothing if the turn did not start. */
  function ReplyBill(r: Settings, reply: Reply): Usage {
    if reply.spawnError.Some? then NoUsage else TurnBill(reply.inputs, r.client.readTimeoutMs > 0)
  }

  /** The bills of n turns from turn k on. */
  function BillFrom(r: Settings, w: World, k: nat, n: nat): Usage
    decreases n
  {
    if n == 0 then NoUsage else ReplyBill(r, w.turns(k)).Plus(BillFrom(r, w, k + 1, n - 1))
  }

  lemma ReplyIsBilled(r: Settings, reply: Reply, session: string, k: nat)
    ensures UsageTotal(TurnEvents(TurnFor(r.client, reply, session, k), reply)) == ReplyBill(r, reply)
  {
    hide TurnBill, Emissions, Taken;
    if reply.spawnError.None? { TurnIsBilled(TurnFor(r.client, reply, session, k), reply.inputs); }
  }

  /** One turn of the loop: it is the last one, or the loop goes on. */
  lemma TurnShape(r: Settings, w: World, state: string, issue: Issue, attempt: Option<int>, session: string, k: nat)
      returns (call: Call, middle: seq<Call>, goes: bool)
    ensures var report := TurnsFrom(r, w, state, issue, attempt, session, k);
      var t := TurnFor(r.client, w.turns(k), session, k);
      if r.BuildTurnPrompt(w, issue, attempt, k).None? then report.calls == CLOSING && report.events == []
      else
        && call.RunTurn? && (forall c :: c in middle ==> !c.RunTurn?)
        && if goes then
             && k < r.maxTurns && w.refresh(k).Some?
             && var rest := TurnsFrom(r, w, state, Merged(issue, w.refresh(k).value), attempt, SessionNext(t, w.turns(k)), k + 1);
                report.calls == [call] + (middle + rest.calls) && report.events == TurnEvents(t, w.turns(k)) + rest.events
           else report.calls == [call] + middle && report.events == TurnEvents(t, w.turns(k))
  {
    hide NormalizeState, TurnOutcome, TurnEvents, SessionNext, TurnFor, Merged, Settings.BuildTurnPrompt, TurnsFrom, Shell.BuildCommand;
    OneTurn(r, w, state, issue, attempt, session, k, [], []);
    var report := TurnsFrom(r, w, state, issue, attempt, session, k);
    assert report.After([], []) == report;
    var prompt := r.BuildTurnPrompt(w, issue, attempt, k);
    call, middle, goes := RunTurn(if prompt.Some? then prompt.value else "", Shell.BuildCommand(r.client, session)), [], false;
    if prompt.Some? {
      var t := TurnFor(r.client, w.turns(k), session, k);
      assert [] + TurnEvents(t, w.turns(k)) == TurnEvents(t, w.turns(k)) && [] + [call] == [call];
      match TurnOutcome(r.client, w.turns(k)) {
        case Waiting => assert [call] + [] == [call];
        case Failure(_) => middle := CLOSING;
        case Success(_) =>
          if w.refresh(k).None? {
            middle := [Refresh(issue.id)] + CLOSING;
          } else {
            var merged := Merged(issue, w.refresh(k).value);
            goes := r.IsActive(merged.state) && NormalizeState(merged.state) == state && k < r.maxTurns;
            middle := if goes then [Refresh(issue.id)] else [Refresh(issue.id)] + CLOSING;
          }
      }
    }
  }

  lemma {:induction false} TurnsAreBilled(r: Settings, w: World, state: string, issue: Issue, attempt: Option<int>,
                                          session: string, k: nat)
    ensures var report := TurnsFrom(r, w, state, issue, attempt, session, k);
      UsageTotal(report.events) == BillFrom(r, w, k, TurnCalls(report.calls))
    decreases r.maxTurns - k
  {
    hide *;
    var call, middle, goes := TurnShape(r, w, state, issue, attempt, session, k);
    Closed(r, w, k);
    if r.BuildTurnPrompt(w, issue, attempt, k).Some? {
      var t := TurnFor(r.client, w.turns(k), session, k);
      ReplyIsBilled(r, w.turns(k), session, k);
      if goes {
        var next := Merged(issue, w.refresh(k).value);
        var rest := TurnsFrom(r, w, state, next, attempt, SessionNext(t, w.turns(k)), k + 1);
        TurnsAreBilled(r, w, state, next, attempt, SessionNext(t, w.turns(k)), k + 1);
        TotalConcat(TurnEvents(t, w.turns(k)), rest.events);
        OneMoreTurn(r, w, k, call, middle, rest.calls);
      } else {
        OneMoreTurn(r, w, k, call, middle, []);
        assert middle + [] == middle;
        PlusNothing(ReplyBill(r, w.turns(k)));
      }
    }
  }

  lemma Closed(r: Settings, w: World, k: nat)
    ensures BillFrom(r, w, k, TurnCalls(CLOSING)) == NoUsage == UsageTotal([])
    ensures BillFrom(r, w, k + 1, TurnCalls([])) == NoUsage
  {
    assert CLOSING[1..] == [Hook("after_run")] && [Hook("after_run")][1..] == [];
  }

  lemma {:induction false} NoTurns(calls: seq<Call>)
    requires forall c :: c in calls ==> !c.RunTurn?
    ensures TurnCalls(calls) == 0
  {
    if calls != [] { NoTurns(calls[1..]); }
  }

  lemma OneMoreTurn(r: Settings, w: World, k: nat, call: Call, middle: seq<Call>, rest: seq<Call>)
    requires call.RunTurn? && forall c :: c in middle ==> !c.RunTurn?
    ensures BillFrom(r, w, k, TurnCalls([call] + (middle + rest))) == ReplyBill(r, w.turns(k)).Plus(BillFrom(r, w, k + 1, TurnCalls(rest)))
  {
    hide ReplyBill, Usage.Plus;
    assert ([call] + (middle + rest))[1..] == middle + rest;
    NoTurns(middle);
    TurnCallsConcat(middle, rest);
  }

  /** The usage an attempt reports is the sum of what the result lines of its turns say, turn by turn. */
  lemma AttemptIsBilled(r: Settings, w: World, issue: Issue, attempt: Option<int>)
    ensures var report := RunOf(r, w, issue, attempt);
      UsageTotal(report.events) == BillFrom(r, w, 1, TurnCalls(report.calls))
  {
    hide TurnsFrom, NormalizeState, BillFrom, UsageTotal, TurnCalls;
    Closed(r, w, 1);
    if w.created && w.beforeRun && w.launchOk {
      var rest := TurnsFrom(r, w, NormalizeState(issue.state), issue, attempt, Shell.PENDING_SESSION, 1);
      TurnsAreBilled(r, w, NormalizeState(issue.state), issue, attempt, Shell.PENDING_SESSION, 1);
      assert [] + rest.events == rest.events;
      TurnCallsConcat(Opening(issue), rest.calls);
      NoTurns(Opening(issue));
    } else {
      NoTurns(RunOf(r, w, issue, attempt).calls);
      NoBill(r, w, 1);
    }
  }

  lemma NoBill(r: Settings, w: World, k: nat)
    ensures BillFrom(r, w, k, 0) == NoUsage
  {}

  /** In every run of the orchestrator with such workers: what an ended worker's entry carried into the
      totals is the sum of what the result lines of its attempt say. */
  lemma BooksAreBills(first: (Config, string), queued: seq<Event>, steps: seq<Step>, crew: nat -> Job, w: nat)
    requires CanStart(queued) && Legal(Startup(first.0, first.1, queued), steps) && Crewed(steps, crew)
    ensures var s, job := Exec(Startup(first.0, first.1, queued), steps), crew(w);
      HasEnded(s.journal, w) ==>
        EndedTokens(s.journal, w) == BillFrom(job.settings, job.world, 1, TurnCalls(job.Report().calls))
  {
    hide *;
    AttemptsAreBooked(first, queued, steps, crew, w);
    AttemptIsBilled(crew(w).settings, crew(w).world, crew(w).issue, crew(w).attempt);
    TheReport(crew(w));
  }

  lemma TheReport(job: Job)
    ensures job.Report() == RunOf(job.settings, job.world, job.issue, job.attempt)
  {}
}
