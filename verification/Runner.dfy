/** One worker attempt (DefaultRunner.Run in internal/agent/runner.go): the bounded turn loop and its
    resource protocol, with the workspace, the template engine and the tracker as oracles. */
module Runner {
  import opened Domain
  import opened Stream
  import Shell

  // ---------- calls ----------

  /** What the runner does to the world, in order. */
  datatype Call =
    | CreateWorkspace(identifier: string)
    | Hook(name: string)
    | AssertLaunchCWD
    | StartSession
    | RunTurn(prompt: string, command: string)
    | Refresh(id: string)
    | StopSession

  datatype RunError = WorkspaceError | HookError | SafetyError | PromptError | TurnError | RefreshError

  /** Blocked: a turn has not ended yet. */
  datatype Result = Blocked | Returned(err: Option<RunError>)

  datatype Report = Report(result: Result, calls: seq<Call>, events: seq<AgentEvent>) {
    function After(earlier: seq<Call>, emitted: seq<AgentEvent>): Report {
      Report(result, earlier + calls, emitted + events)
    }
  }

  /** What the world answers; `turns(k)` and `refresh(k)` answer turn k. */
  datatype World = World(
    created: bool, beforeRun: bool, launchOk: bool, render: (string, Issue, Option<int>) -> Option<string>,
    turns: nat -> Reply, refresh: nat -> Option<seq<Issue>>)

  // ---------- pieces ----------

  function MergeState(orig: Issue, refreshed: Issue): Issue {
    orig.(state := if refreshed.state != "" then refreshed.state else orig.state, labels := refreshed.labels)
  }

  function Merged(issue: Issue, refreshed: seq<Issue>): Issue {
    if |refreshed| > 0 then MergeState(issue, refreshed[0]) else issue
  }

  /** The guidance of a continuation prompt, by mode; its wording is not modelled. */
  const SAME_TASK := "same task"
  const REMAINING_WORK := "remaining work"

  datatype Settings = Settings(template: string, promptOverride: bool, active: set<string>, maxTurns: int,
                               client: Shell.ClientConfig) {
    predicate IsActive(state: string) { NormalizeState(state) in active }

    /** Which issue goes on, and whether under its state's own prompt or the default one. */
    function Continuation(issue: Issue): string {
      issue.identifier + ": " + issue.title + "\n\n" + if promptOverride then SAME_TASK else REMAINING_WORK
    }

    function BuildTurnPrompt(w: World, issue: Issue, attempt: Option<int>, turn: int): Option<string> {
      if turn == 1 then w.render(template, issue, attempt) else Some(Continuation(issue))
    }
  }

  // ---------- the run as a function ----------

  const CLOSING := [StopSession, Hook("after_run")]

  function Opening(issue: Issue): seq<Call> {
    [CreateWorkspace(issue.identifier), Hook("before_run"), AssertLaunchCWD, StartSession]
  }

  /** The turn loop from turn k on; `state` is the normalised state the worker was dispatched for. */
  function TurnsFrom(r: Settings, w: World, state: string, issue: Issue, attempt: Option<int>, session: string, k: nat): Report
    decreases r.maxTurns - k
  {
    var prompt := r.BuildTurnPrompt(w, issue, attempt, k);
    if prompt.None? then Report(Returned(Some(PromptError)), CLOSING, [])
    else
      var t, call := TurnFor(r.client, w.turns(k), session, k), RunTurn(prompt.value, Shell.BuildCommand(r.client, session));
      var events := TurnEvents(t, w.turns(k));
      match TurnOutcome(r.client, w.turns(k))
      case Waiting => Report(Blocked, [call], events)
      case Failure(_) => Report(Returned(Some(TurnError)), [call] + CLOSING, events)
      case Success(_) =>
        if w.refresh(k).None? then Report(Returned(Some(RefreshError)), [call, Refresh(issue.id)] + CLOSING, events)
        else
          var merged := Merged(issue, w.refresh(k).value);
          if r.IsActive(merged.state) && NormalizeState(merged.state) == state && k < r.maxTurns then
            TurnsFrom(r, w, state, merged, attempt, SessionNext(t, w.turns(k)), k + 1).After([call, Refresh(issue.id)], events)
          else
            Report(Returned(None), [call, Refresh(issue.id)] + CLOSING, events)
  }

  function RunOf(r: Settings, w: World, issue: Issue, attempt: Option<int>): Report {
    if !w.created then Report(Returned(Some(WorkspaceError)), Opening(issue)[..1], [])
    else if !w.beforeRun then Report(Returned(Some(HookError)), Opening(issue)[..2], [])
    else if !w.launchOk then Report(Returned(Some(SafetyError)), Opening(issue)[..3] + [Hook("after_run")], [])
    else TurnsFrom(r, w, NormalizeState(issue.state), issue, attempt, Shell.PENDING_SESSION, 1).After(Opening(issue), [])
  }

  /** One round of the loop, with what was done before it put in front. */
  lemma OneTurn(r: Settings, w: World, state: string, issue: Issue, attempt: Option<int>, session: string, k: nat,
                calls: seq<Call>, events: seq<AgentEvent>)
    ensures var prompt := r.BuildTurnPrompt(w, issue, attempt, k);
      TurnsFrom(r, w, state, issue, attempt, session, k).After(calls, events) ==
        if prompt.None? then Report(Returned(Some(PromptError)), calls + CLOSING, events)
        else
          var t := TurnFor(r.client, w.turns(k), session, k);
          var asked, heard := calls + [RunTurn(prompt.value, Shell.BuildCommand(r.client, session))], events + TurnEvents(t, w.turns(k));
          match TurnOutcome(r.client, w.turns(k))
          case Waiting => Report(Blocked, asked, heard)
          case Failure(_) => Report(Returned(Some(TurnError)), asked + CLOSING, heard)
          case Success(_) =>
            var refreshed := asked + [Refresh(issue.id)];
            if w.refresh(k).None? then Report(Returned(Some(RefreshError)), refreshed + CLOSING, heard)
            else
              var merged := Merged(issue, w.refresh(k).value);
              if r.IsActive(merged.state) && NormalizeState(merged.state) == state && k < r.maxTurns then
                TurnsFrom(r, w, state, merged, attempt, SessionNext(t, w.turns(k)), k + 1).After(refreshed, heard)
              else Report(Returned(None), refreshed + CLOSING, heard)
  {
    hide NormalizeState, TurnOutcome, TurnEvents, SessionNext, TurnFor, Settings.BuildTurnPrompt, Merged;
  }

  // ---------- the runner ----------

  class DefaultRunner {
    const settings: Settings

    /** NewRunner: at least one turn is allowed. */
    constructor (template: string, promptOverride: bool, activeStates: seq<string>, maxTurns: int, client: Shell.ClientConfig)
      ensures settings.maxTurns == (if maxTurns <= 0 then 1 else maxTurns)
      ensures forall s :: settings.IsActive(s) <==> exists a :: a in activeStates && NormalizeState(a) == NormalizeState(s)
      ensures settings.template == template && settings.promptOverride == promptOverride && settings.client == client
    {
      var turns := if maxTurns <= 0 then 1 else maxTurns;
      settings := Settings(template, promptOverride, set a | a in activeStates :: NormalizeState(a), turns, client);
    }

    method Run(w: World, issue: Issue, attempt: Option<int>) returns (report: Report)
      ensures report == RunOf(settings, w, issue, attempt)
    {
      hide NormalizeState, TurnsFrom, TurnOutcome, TurnEvents, SessionNext, TurnFor, Settings.BuildTurnPrompt;
      var calls: seq<Call> := [CreateWorkspace(issue.identifier)];
      if !w.created {
        return Report(Returned(Some(WorkspaceError)), calls, []);
      }
      calls := calls + [Hook("before_run")];
      if !w.beforeRun {
        return Report(Returned(Some(HookError)), calls, []);
      }
      calls := calls + [AssertLaunchCWD];
      if !w.launchOk {
        return Report(Returned(Some(SafetyError)), calls + [Hook("after_run")], []);
      }
      calls := calls + [StartSession];
      assert calls == Opening(issue);
      report := Turns(w, issue, attempt, calls);
    }

    /** The loop of Run, once the session is started. */
    method Turns(w: World, issue: Issue, attempt: Option<int>, opening: seq<Call>) returns (report: Report)
      ensures report == TurnsFrom(settings, w, NormalizeState(issue.state), issue, attempt, Shell.PENDING_SESSION,
                                  1).After(opening, [])
    {
      hide NormalizeState, TurnsFrom, TurnOutcome, TurnEvents, SessionNext, TurnFor, Settings.BuildTurnPrompt;
      var session := new Stream.Session();
      var dispatchState := NormalizeState(issue.state);
      var calls, events, current, turn := opening, [], issue, 1;
      ghost var whole := TurnsFrom(settings, w, dispatchState, issue, attempt, Shell.PENDING_SESSION, 1).After(opening, []);
      while true
        invariant turn >= 1 && session.turn == turn - 1 && fresh(session)
        invariant whole == TurnsFrom(settings, w, dispatchState, current, attempt, session.sessionId, turn).After(calls, events)
        decreases settings.maxTurns - turn
      {
        OneTurn(settings, w, dispatchState, current, attempt, session.sessionId, turn, calls, events);
        var prompt := settings.BuildTurnPrompt(w, current, attempt, turn);
        if prompt.None? {
          return Report(Returned(Some(PromptError)), calls + CLOSING, events);
        }
        var command, out, news := session.RunTurn(settings.client, w.turns(turn));
        calls := calls + [RunTurn(prompt.value, command)];
        events := events + news;
        if out.Waiting? {
          return Report(Blocked, calls, events);
        }
        if out.Failure? {
          return Report(Returned(Some(TurnError)), calls + CLOSING, events);
        }
        calls := calls + [Refresh(current.id)];
        var refreshed := w.refresh(turn);
        if refreshed.None? {
          return Report(Returned(Some(RefreshError)), calls + CLOSING, events);
        }
        if |refreshed.value| > 0 {
          current := MergeState(current, refreshed.value[0]);
        }
        if !settings.IsActive(current.state) {
          break;
        }
        if NormalizeState(current.state) != dispatchState {
          break;
        }
        if turn >= settings.maxTurns {
          break;
        }
        turn := turn + 1;
      }
      return Report(Returned(None), calls + CLOSING, events);
    }
  }

  // ---------- what every run looks like ----------

  /** The issue as the runner sees it after j refreshes. */
  function IssueAfter(issue: Issue, w: World, j: nat): Issue {
    if j == 0 then issue
    else
      var before := IssueAfter(issue, w, j - 1);
      if w.refresh(j).None? then before else Merged(before, w.refresh(j).value)
  }

  /** Turn j went well and its refresh leaves the issue in the very active state the worker was
      dispatched for, with turns left. */
  predicate GoesOn(r: Settings, w: World, issue: Issue, j: nat) {
    && TurnOutcome(r.client, w.turns(j)).Success? && w.refresh(j).Some?
    && var state := IssueAfter(issue, w, j).state;
       NormalizeState(state) in r.active && NormalizeState(state) == NormalizeState(issue.state) && j < r.maxTurns
  }

  /** The session id turn j starts with. */
  function SessionAt(r: Settings, w: World, j: nat): string {
    if j <= 1 then "pending"
    else SessionNext(TurnFor(r.client, w.turns(j - 1), SessionAt(r, w, j - 1), j - 1), w.turns(j - 1))
  }

  /** The call of turn j: only turn 1 uses the rendered template. */
  function TurnCall(r: Settings, w: World, issue: Issue, attempt: Option<int>, j: nat): (call: Call)
    ensures call.RunTurn?
  {
    RunTurn(if j != 1 then issue.identifier + ": " + issue.title + "\n\n" + (if r.promptOverride then SAME_TASK else REMAINING_WORK)
            else if w.render(r.template, issue, attempt).Some? then w.render(r.template, issue, attempt).value else "",
            Shell.BuildCommand(r.client, SessionAt(r, w, j)))
  }

  /** n complete rounds: a turn, then a refresh. */
  function Rounds(r: Settings, w: World, issue: Issue, attempt: Option<int>, n: nat): seq<Call> {
    if n == 0 then [] else Rounds(r, w, issue, attempt, n - 1) + [TurnCall(r, w, issue, attempt, n), Refresh(issue.id)]
  }

  /** n complete rounds and then, if `asked`, one more turn - with the result that makes the run end there. */
  ghost predicate EndsAfter(r: Settings, w: World, issue: Issue, attempt: Option<int>, result: Result, n: nat, asked: bool) {
    var turns := if asked then n + 1 else n;
    && turns <= r.maxTurns
    && (forall j :: 1 <= j < turns ==> GoesOn(r, w, issue, j))
    && match result
       case Blocked => asked && TurnOutcome(r.client, w.turns(n + 1)).Waiting?
       case Returned(None) =>
         n > 0 && !asked && TurnOutcome(r.client, w.turns(n)).Success? && w.refresh(n).Some? && !GoesOn(r, w, issue, n)
       case Returned(Some(PromptError)) => n == 0 && !asked && w.render(r.template, issue, attempt).None?
       case Returned(Some(TurnError)) => asked && TurnOutcome(r.client, w.turns(n + 1)).Failure?
       case Returned(Some(RefreshError)) => n > 0 && !asked && TurnOutcome(r.client, w.turns(n)).Success? && w.refresh(n).None?
       case _ => false
  }

  function Closing(result: Result): seq<Call> { if result.Blocked? then [] else CLOSING }

  lemma RunTrace(r: Settings, w: World, issue: Issue, attempt: Option<int>) returns (n: nat, asked: bool)
    requires r.maxTurns >= 1 && w.created && w.beforeRun && w.launchOk
    ensures var report := RunOf(r, w, issue, attempt);
      && report.calls == Opening(issue) + Rounds(r, w, issue, attempt, n)
                         + (if asked then [TurnCall(r, w, issue, attempt, n + 1)] else []) + Closing(report.result)
      && EndsAfter(r, w, issue, attempt, report.result, n, asked)
  {
    hide TurnsFrom, EndsAfter, TurnCall, NormalizeState, RunOf, Opening, Rounds, Closing;
    Launched(r, w, issue, attempt);
    n, asked := TurnsProtocol(r, w, issue, attempt, SessionAt(r, w, 1), 1);
    var rest := TurnsFrom(r, w, NormalizeState(issue.state), issue, attempt, Shell.PENDING_SESSION, 1);
    var rounds, last, closing := Rounds(r, w, issue, attempt, n), if asked then [TurnCall(r, w, issue, attempt, n + 1)] else [],
      Closing(rest.result);
    assert [] + rest.calls == rest.calls;
    assert Opening(issue) + (rounds + last + closing) == Opening(issue) + rounds + last + closing;
  }

  /** Every run that gets past the launch check makes the four opening calls, then at most maxTurns
      rounds - of which the last may lack its refresh - and then, once it returns, stops the session and
      runs after_run, whatever it returns. */
  lemma RunProtocol(r: Settings, w: World, issue: Issue, attempt: Option<int>) returns (n: nat, asked: bool)
    requires r.maxTurns >= 1 && w.created && w.beforeRun && w.launchOk
    ensures var report := RunOf(r, w, issue, attempt);
      && report.calls ==
           [CreateWorkspace(issue.identifier), Hook("before_run"), AssertLaunchCWD, StartSession]
           + Rounds(r, w, issue, attempt, n)
           + (if asked then [TurnCall(r, w, issue, attempt, n + 1)] else [])
           + (if report.result.Blocked? then [] else [StopSession, Hook("after_run")])
      && EndsAfter(r, w, issue, attempt, report.result, n, asked)
  {
    hide *;
    n, asked := RunTrace(r, w, issue, attempt);
    BothEnds(issue, RunOf(r, w, issue, attempt).result);
  }

  /** A run that does not get past the launch check returns what went wrong, without a turn; after_run
      runs if before_run had succeeded. */
  lemma FailsBeforeLaunch(r: Settings, w: World, issue: Issue, attempt: Option<int>)
    requires !w.created || !w.beforeRun || !w.launchOk
    ensures RunOf(r, w, issue, attempt) ==
      if !w.created then Report(Returned(Some(WorkspaceError)), [CreateWorkspace(issue.identifier)], [])
      else if !w.beforeRun then Report(Returned(Some(HookError)), [CreateWorkspace(issue.identifier), Hook("before_run")], [])
      else
        Report(Returned(Some(SafetyError)),
               [CreateWorkspace(issue.identifier), Hook("before_run"), AssertLaunchCWD, Hook("after_run")], [])
  {
    hide TurnsFrom, NormalizeState;
  }

  lemma Launched(r: Settings, w: World, issue: Issue, attempt: Option<int>)
    requires w.created && w.beforeRun && w.launchOk
    ensures IssueAfter(issue, w, 0) == issue && Rounds(r, w, issue, attempt, 0) == []
    ensures RunOf(r, w, issue, attempt) ==
      TurnsFrom(r, w, NormalizeState(issue.state), issue, attempt, Shell.PENDING_SESSION, 1).After(Opening(issue), [])
  {
    hide TurnsFrom, NormalizeState;
  }

  /** What the runner knows of the issue after j refreshes: the first listed issue's labels, and its
      state unless that is blank; an empty answer changes nothing. */
  lemma RefreshedIssue(issue: Issue, w: World, j: nat)
    requires j > 0 && w.refresh(j).Some?
    ensures var before, after, reply := IssueAfter(issue, w, j - 1), IssueAfter(issue, w, j), w.refresh(j).value;
      if reply == [] then after == before
      else
        && after.labels == reply[0].labels
        && after.state == (if reply[0].state == "" then before.state else reply[0].state)
        && after == before.(labels := after.labels, state := after.state)
  {}

  lemma {:induction false} MergeKeeps(issue: Issue, w: World, j: nat)
    ensures var later := IssueAfter(issue, w, j);
      later.id == issue.id && later.identifier == issue.identifier && later.title == issue.title
  {
    if j > 0 { MergeKeeps(issue, w, j - 1); }
  }

  lemma {:induction false} TurnsProtocol(r: Settings, w: World, issue: Issue, attempt: Option<int>, session: string, k: nat)
      returns (n: nat, asked: bool)
    requires 1 <= k <= r.maxTurns && session == SessionAt(r, w, k) && forall j :: 1 <= j < k ==> GoesOn(r, w, issue, j)
    ensures var report := TurnsFrom(r, w, NormalizeState(issue.state), IssueAfter(issue, w, k - 1), attempt, session, k);
      && Rounds(r, w, issue, attempt, k - 1) + report.calls ==
           Rounds(r, w, issue, attempt, n) + (if asked then [TurnCall(r, w, issue, attempt, n + 1)] else [])
           + Closing(report.result)
      && EndsAfter(r, w, issue, attempt, report.result, n, asked)
    decreases r.maxTurns - k
  {
    hide NormalizeState, TurnsFrom, TurnOutcome, TurnEvents, SessionNext, TurnFor, TurnCall, Rounds, GoesOn, IssueAfter,
      Settings.BuildTurnPrompt, Settings.IsActive, Merged;
    var current, calls := IssueAfter(issue, w, k - 1), Rounds(r, w, issue, attempt, k - 1);
    OneTurn(r, w, NormalizeState(issue.state), current, attempt, session, k, calls, []);
    OneRound(r, w, issue, attempt, k);
    n, asked := k - 1, false;
    var prompt := r.BuildTurnPrompt(w, current, attempt, k);
    if prompt.Some? {
      match TurnOutcome(r.client, w.turns(k)) {
        case Waiting => asked := true;
        case Failure(_) => asked := true;
        case Success(_) =>
          n := k;
          if GoesOn(r, w, issue, k) {
            var next := SessionNext(TurnFor(r.client, w.turns(k), session, k), w.turns(k));
            n, asked := TurnsProtocol(r, w, issue, attempt, next, k + 1);
          }
      }
    }
  }

  lemma SameContinuation(r: Settings, a: Issue, b: Issue)
    requires a.identifier == b.identifier && a.title == b.title
    ensures r.Continuation(a) == r.Continuation(b)
  {}

  lemma PromptOfTurn(r: Settings, w: World, issue: Issue, attempt: Option<int>, k: nat)
    requires 1 <= k
    ensures match r.BuildTurnPrompt(w, IssueAfter(issue, w, k - 1), attempt, k)
      case None => k == 1 && w.render(r.template, issue, attempt).None?
      case Some(prompt) => TurnCall(r, w, issue, attempt, k) == RunTurn(prompt, Shell.BuildCommand(r.client, SessionAt(r, w, k)))
  {
    MergeKeeps(issue, w, k - 1);
    SameContinuation(r, IssueAfter(issue, w, k - 1), issue);
    assert IssueAfter(issue, w, 0) == issue;
    hide Settings.Continuation, Merged;
  }

  /** Turn k and its round, with the issue of that moment. */
  lemma OneRound(r: Settings, w: World, issue: Issue, attempt: Option<int>, k: nat)
    requires 1 <= k
    ensures var current, calls := IssueAfter(issue, w, k - 1), Rounds(r, w, issue, attempt, k - 1);
      && current.id == issue.id
      && Rounds(r, w, issue, attempt, k) == calls + [TurnCall(r, w, issue, attempt, k)] + [Refresh(issue.id)]
    ensures match r.BuildTurnPrompt(w, IssueAfter(issue, w, k - 1), attempt, k)
      case None => k == 1 && w.render(r.template, issue, attempt).None?
      case Some(prompt) => TurnCall(r, w, issue, attempt, k) == RunTurn(prompt, Shell.BuildCommand(r.client, SessionAt(r, w, k)))
    ensures TurnOutcome(r.client, w.turns(k)).Success? && w.refresh(k).Some? ==>
      var merged := Merged(IssueAfter(issue, w, k - 1), w.refresh(k).value);
      && merged == IssueAfter(issue, w, k)
      && GoesOn(r, w, issue, k) ==
         (r.IsActive(merged.state) && NormalizeState(merged.state) == NormalizeState(issue.state) && k < r.maxTurns)
    ensures GoesOn(r, w, issue, k) ==> TurnOutcome(r.client, w.turns(k)).Success? && w.refresh(k).Some?
  {
    hide NormalizeState, TurnOutcome, Merged, Settings.Continuation, Settings.BuildTurnPrompt, TurnCall;
    MergeKeeps(issue, w, k - 1);
    PromptOfTurn(r, w, issue, attempt, k);
  }

  lemma {:induction false} RoundsOnlyTurn(r: Settings, w: World, issue: Issue, attempt: Option<int>, n: nat)
    ensures forall call :: call in Rounds(r, w, issue, attempt, n) ==> call.RunTurn? || call.Refresh?
  {
    hide TurnCall;
    if n > 0 { RoundsOnlyTurn(r, w, issue, attempt, n - 1); }
  }

  /** Whatever happens, a run that returns has run after_run exactly once if before_run succeeded, as its
      last call, and has stopped the session exactly once if it started one. */
  lemma CleanupExactlyOnce(r: Settings, w: World, issue: Issue, attempt: Option<int>)
    requires r.maxTurns >= 1
    ensures var report := RunOf(r, w, issue, attempt);
      var prepared, calls := w.created && w.beforeRun, multiset(report.calls);
      && calls[StartSession] == (if prepared && w.launchOk then 1 else 0)
      && calls[StopSession] == (if report.result.Blocked? then 0 else calls[StartSession])
      && calls[Hook("after_run")] == (if prepared && !report.result.Blocked? then 1 else 0)
      && (calls[Hook("after_run")] > 0 ==> report.calls[|report.calls| - 1] == Hook("after_run"))
  {
    hide *;
    if w.created && w.beforeRun && w.launchOk {
      var n, asked := RunTrace(r, w, issue, attempt);
      var result, rounds := RunOf(r, w, issue, attempt).result, Rounds(r, w, issue, attempt, n);
      var last := if asked then [TurnCall(r, w, issue, attempt, n + 1)] else [];
      RoundsOnlyTurn(r, w, issue, attempt, n);
      CallsTallied(issue, rounds + last, result);
      assert Opening(issue) + rounds + last + Closing(result) == Opening(issue) + (rounds + last) + Closing(result);
    } else {
      NotLaunched(r, w, issue, attempt);
    }
  }

  lemma BothEnds(issue: Issue, result: Result)
    ensures Opening(issue) == [CreateWorkspace(issue.identifier), Hook("before_run"), AssertLaunchCWD, StartSession]
    ensures Closing(result) == if result.Blocked? then [] else [StopSession, Hook("after_run")]
  {}

  lemma NotLaunched(r: Settings, w: World, issue: Issue, attempt: Option<int>)
    requires !w.created || !w.beforeRun || !w.launchOk
    ensures var report := RunOf(r, w, issue, attempt);
      var prepared, calls := w.created && w.beforeRun, multiset(report.calls);
      && !report.result.Blocked? && report.events == []
      && calls[StartSession] == 0 && calls[StopSession] == 0 && calls[Hook("after_run")] == (if prepared then 1 else 0)
      && (prepared ==> report.calls[|report.calls| - 1] == Hook("after_run"))
  {
    hide TurnsFrom, NormalizeState;
    assert "before_run"[0] != "after_run"[0];
  }

  lemma CallsTallied(issue: Issue, middle: seq<Call>, result: Result)
    requires forall call :: call in middle ==> call.RunTurn? || call.Refresh?
    ensures var calls := Opening(issue) + middle + Closing(result);
      var ends := if result.Blocked? then 0 else 1;
      && multiset(calls)[StartSession] == 1 && multiset(calls)[StopSession] == ends && multiset(calls)[Hook("after_run")] == ends
      && (ends > 0 ==> calls[|calls| - 1] == Hook("after_run"))
  {
    var all := multiset(Opening(issue)) + multiset(middle) + multiset(Closing(result));
    assert multiset(Opening(issue) + middle + Closing(result)) == all;
    assert forall call :: call in middle <==> multiset(middle)[call] > 0;
    assert "before_run"[0] != "after_run"[0];
  }

  // ---------- usage over a run ----------

  function WithUsage(events: seq<AgentEvent>): nat {
    if events == [] then 0 else (if events[0].usage.Some? then 1 else 0) + WithUsage(events[1..])
  }

  function TurnCalls(calls: seq<Call>): nat {
    if calls == [] then 0 else (if calls[0].RunTurn? then 1 else 0) + TurnCalls(calls[1..])
  }

  lemma {:induction false} WithUsageConcat(a: seq<AgentEvent>, b: seq<AgentEvent>)
    ensures WithUsage(a + b) == WithUsage(a) + WithUsage(b)
  {
    if a == [] {
      assert a + b == b;
    } else {
      assert (a + b)[1..] == a[1..] + b;
      WithUsageConcat(a[1..], b);
    }
  }

  lemma {:induction false} TurnCallsConcat(a: seq<Call>, b: seq<Call>)
    ensures TurnCalls(a + b) == TurnCalls(a) + TurnCalls(b)
  {
    if a == [] {
      assert a + b == b;
    } else {
      assert (a + b)[1..] == a[1..] + b;
      TurnCallsConcat(a[1..], b);
    }
  }

  ghost predicate AllBalanced(events: seq<AgentEvent>) {
    forall e :: e in events && e.usage.Some? ==> e.usage.value.Balanced()
  }

  lemma {:induction false} AtEndOnce(events: seq<AgentEvent>)
    requires UsageAtEnd(events)
    ensures WithUsage(events) <= 1 && AllBalanced(events)
  {
    hide Usage.Balanced;
    if events != [] {
      var rest := events[1..];
      forall k | 0 <= k < |rest| && rest[k].usage.Some?
        ensures k == |rest| - 1 && rest[k].usage.value.Balanced()
      {
        assert rest[k] == events[k + 1];
      }
      AtEndOnce(rest);
      if events[0].usage.Some? { assert rest == []; }
      assert forall e :: e in events ==> e == events[0] || e in rest;
    }
  }

  lemma TurnUsage(t: Turn, reply: Reply)
    ensures WithUsage(TurnEvents(t, reply)) <= 1 && AllBalanced(TurnEvents(t, reply))
  {
    hide Taken, OutcomeOf, WithUsage, AllBalanced, UsageAtEnd;
    if reply.spawnError.None? { UsageOnceAndLast(t, reply.inputs, Taken(reply.inputs, t.timed)); } else { NoEvents(); }
    AtEndOnce(TurnEvents(t, reply));
  }

  lemma {:induction false} TurnsUsage(r: Settings, w: World, state: string, issue: Issue, attempt: Option<int>,
                                      session: string, k: nat)
    ensures var report := TurnsFrom(r, w, state, issue, attempt, session, k);
      WithUsage(report.events) <= TurnCalls(report.calls) && AllBalanced(report.events)
    decreases r.maxTurns - k
  {
    hide NormalizeState, TurnOutcome, TurnEvents, SessionNext, TurnFor, Merged, WithUsage, TurnCalls,
      Settings.BuildTurnPrompt, TurnsFrom;
    OneTurn(r, w, state, issue, attempt, session, k, [], []);
    var report := TurnsFrom(r, w, state, issue, attempt, session, k);
    assert report.After([], []) == report;
    var prompt := r.BuildTurnPrompt(w, issue, attempt, k);
    if prompt.None? {
      NoTurn(report);
    } else {
      var t := TurnFor(r.client, w.turns(k), session, k);
      var events, call := TurnEvents(t, w.turns(k)), RunTurn(prompt.value, Shell.BuildCommand(r.client, session));
      TurnUsage(t, w.turns(k));
      assert [] + events == events && [] + [call] == [call];
      if TurnOutcome(r.client, w.turns(k)).Success? && w.refresh(k).Some? {
        var merged := Merged(issue, w.refresh(k).value);
        if r.IsActive(merged.state) && NormalizeState(merged.state) == state && k < r.maxTurns {
          var rest := TurnsFrom(r, w, state, merged, attempt, SessionNext(t, w.turns(k)), k + 1);
          TurnsUsage(r, w, state, merged, attempt, SessionNext(t, w.turns(k)), k + 1);
          WithUsageConcat(events, rest.events);
          TurnCallsConcat([call] + [Refresh(issue.id)], rest.calls);
          FirstTurn(call, [Refresh(issue.id)]);
          return;
        }
      }
      assert report.calls[0] == call;
      FirstTurn(call, report.calls[1..]);
      assert report.calls == [call] + report.calls[1..];
    }
  }

  lemma NoTurn(report: Report)
    requires report.events == []
    ensures WithUsage(report.events) <= TurnCalls(report.calls) && AllBalanced(report.events)
  {}

  lemma FirstTurn(call: Call, rest: seq<Call>)
    requires call.RunTurn?
    ensures TurnCalls([call] + rest) >= 1
  {}

  /** A worker's run emits at most one usage-bearing event a turn, each of them balanced. */
  lemma RunUsage(r: Settings, w: World, issue: Issue, attempt: Option<int>)
    ensures var report := RunOf(r, w, issue, attempt);
      WithUsage(report.events) <= TurnCalls(report.calls) && AllBalanced(report.events)
  {
    hide TurnsFrom, NormalizeState, WithUsage, TurnCalls, AllBalanced;
    var report := RunOf(r, w, issue, attempt);
    if w.created && w.beforeRun && w.launchOk {
      var rest := TurnsFrom(r, w, NormalizeState(issue.state), issue, attempt, Shell.PENDING_SESSION, 1);
      TurnsUsage(r, w, NormalizeState(issue.state), issue, attempt, Shell.PENDING_SESSION, 1);
      assert [] + rest.events == rest.events;
      TurnCallsConcat(Opening(issue), rest.calls);
    } else {
      NoTurn(report);
    }
  }
}
