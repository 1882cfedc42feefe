/** Who is dispatched: the candidate rules one by one, each of which keeps an issue out by itself; the room
    there is in a state and overall; and what a tick makes of both, for the issues it takes and for those
    it leaves. */
module Admission {
  import opened Domain
  import opened State
  import opened Eligibility
  import opened Handlers
  import opened Books
  import opened Dispatching
  import opened Polling
  import Sorting
  import Backoff

  // ---------- the rules ----------

  predicate Listed(names: seq<string>, name: string) { exists n | n in names :: NormalizeState(n) == NormalizeState(name) }

  datatype Rule = BlankField | Inactive | Terminal | OpenBlocker(k: nat) | OtherAssignee | BlankRequirement | MissingLabel(required: string)

  /** The issue may not be worked on under `cfg`, by this rule alone. */
  predicate Breaks(cfg: Config, issue: Issue, rule: Rule) {
    match rule
    case BlankField => issue.id == "" || issue.identifier == "" || issue.title == "" || issue.state == ""
    case Inactive => !Listed(cfg.activeStates, issue.state)
    case Terminal => Listed(cfg.terminalStates, issue.state)
    case OpenBlocker(k) =>
      && NormalizeState(issue.state) == "todo" && k < |issue.blockedBy|
      && (issue.blockedBy[k].state == None || !Listed(cfg.terminalStates, issue.blockedBy[k].state.value))
    case OtherAssignee =>
      && TrimSpace(cfg.assignee) != ""
      && (issue.assignee == None || ToLower(TrimSpace(issue.assignee.value)) != ToLower(TrimSpace(cfg.assignee)))
    case BlankRequirement => Listed(cfg.requiredLabels, "")
    case MissingLabel(required) => required in cfg.requiredLabels && !Listed(issue.labels, required)
  }

  ghost predicate Wanted(cfg: Config, issue: Issue) { forall rule :: !Breaks(cfg, issue, rule) }

  lemma WantedExactly(cfg: Config, issue: Issue)
    ensures IsEligible(cfg, issue) <==> Wanted(cfg, issue)
  {
    hide NormalizeState, TrimSpace, ToLower;
    if IsEligible(cfg, issue) {
      forall rule
        ensures !Breaks(cfg, issue, rule)
      {
        NoneBroken(cfg, issue, rule);
      }
    }
    if Wanted(cfg, issue) { AllKept(cfg, issue); }
  }

  lemma NoneBroken(cfg: Config, issue: Issue, rule: Rule)
    requires IsEligible(cfg, issue)
    ensures !Breaks(cfg, issue, rule)
  {
    EmptyNormal();
    hide NormalizeState, TrimSpace, ToLower;
    match rule
    case OpenBlocker(k) =>
      if NormalizeState(issue.state) == "todo" && k < |issue.blockedBy| {
        assert issue.blockedBy[k] in issue.blockedBy;
        assert IsTerminalBlocker(cfg, issue.blockedBy[k]);
      }
    case _ =>
  }

  lemma EmptyNormal()
    ensures NormalizeState("") == ""
  {}

  lemma AllKept(cfg: Config, issue: Issue)
    requires Wanted(cfg, issue)
    ensures IsEligible(cfg, issue)
  {
    EmptyNormal();
    hide NormalizeState, TrimSpace, ToLower;
    assert !Breaks(cfg, issue, BlankField) && !Breaks(cfg, issue, Inactive) && !Breaks(cfg, issue, Terminal);
    assert !Breaks(cfg, issue, OtherAssignee) && !Breaks(cfg, issue, BlankRequirement);
    forall req | req in cfg.requiredLabels
      ensures NormalizeState(req) != "" && exists l | l in issue.labels :: NormalizeState(l) == NormalizeState(req)
    {
      assert !Breaks(cfg, issue, MissingLabel(req));
    }
    forall b | b in issue.blockedBy && NormalizeState(issue.state) == "todo"
      ensures IsTerminalBlocker(cfg, b)
    {
      var k: nat :| k < |issue.blockedBy| && issue.blockedBy[k] == b;
      assert !Breaks(cfg, issue, OpenBlocker(k));
    }
  }

  // ---------- room ----------

  /** The running issues in `state`, whatever its spelling. */
  function Tracked(running: map<string, Entry>, state: string): set<string> {
    set id | id in running && NormalizeState(running[id].issue.state) == NormalizeState(state)
  }

  /** How many of them there may be: the override for the state, and without one the global number. */
  function Allowed(cfg: Config, state: string): int {
    if NormalizeState(state) in cfg.byState then cfg.byState[NormalizeState(state)] else cfg.maxConcurrent
  }

  predicate HasRoom(s: Orchestration, state: string) {
    |s.running| < s.maxConcurrent && |Tracked(s.running, state)| < Allowed(s.cfg, state)
  }

  lemma AllowedExactly(cfg: Config, state: string)
    ensures cfg.PerStateLimit(state) == Allowed(cfg, state)
  {}

  lemma RoomExactly(s: Orchestration, state: string)
    ensures s.GlobalAvailable() == 0 <==> |s.running| >= s.maxConcurrent
    ensures StateFull(s, state) <==> |Tracked(s.running, state)| >= Allowed(s.cfg, state)
    ensures CountByState(s.running, state) == |Tracked(s.running, state)| && s.cfg.PerStateLimit(state) == Allowed(s.cfg, state)
  {
    hide NormalizeState;
    assert IdsInState(s.running, state) == Tracked(s.running, state);
  }

  // ---------- a tick ----------

  /** Whatever a tick dispatches is on the tracker's list, breaks no rule, was not claimed before, and
      starts with a clean record; and there was a moment with room for it. */
  lemma TickTakes(s: Orchestration, input: Input, id: string) returns (i: nat, moment: Orchestration)
    requires BooksOk(s, {}) && id in OnTick(s, input).running && id !in s.running
    ensures s.cfg.dispatchValid && input.candidates.Some?
    ensures i < |input.candidates.value| && input.candidates.value[i].id == id
    ensures Wanted(s.cfg, input.candidates.value[i]) && id !in s.claimed
    ensures var e := OnTick(s, input).running[id];
      && e.issue == input.candidates.value[i] && e.identifier == e.issue.identifier && e.retryAttempt == 0
      && e.session == NewSession && !e.terminating && !e.releaseOnExit && !e.cleanupOnExit
      && exists n: nat :: e.startedAt == input.clock(n)
    ensures HasRoom(moment, input.candidates.value[i].state) && id !in moment.running
    ensures moment.cfg == s.cfg && moment.maxConcurrent == s.maxConcurrent && s.running.Keys <= moment.running.Keys
  {
    hide BooksOk, IsEligible, StateFull, DispatchUpTo, Wanted, HasRoom;
    var reconciled := Reconcile(s, input.clock(0), input.states);
    Reconciled(s, input.clock(0), input.states, {});
    ReconcileKeepsConfig(s, input.clock(0), input.states);
    PolledRunning(s, input);
    var sorted := Sorting.SortForDispatch(input.candidates.value);
    var k := DispatchedIsAdmissible(reconciled, sorted, input.clock, |sorted|, id);
    moment := DispatchUpTo(reconciled, sorted, input.clock, k);
    PhaseGrew(reconciled, sorted, input.clock, 0, k);
    PhaseStart(reconciled, sorted, input.clock);
    i := Unsorted(input.candidates.value, sorted[k]);
    WantedExactly(s.cfg, sorted[k]);
    RoomAt(moment, sorted[k].state);
  }

  lemma RoomAt(s: Orchestration, state: string)
    requires |s.running| < s.maxConcurrent && !StateFull(s, state)
    ensures HasRoom(s, state)
  {
    hide StateFull;
    RoomExactly(s, state);
  }

  lemma PolledRunning(s: Orchestration, input: Input)
    ensures var reconciled := Reconcile(s, input.clock(0), input.states);
      OnTick(s, input).running ==
        if reconciled.cfg.dispatchValid && input.candidates.Some?
        then DispatchAll(reconciled, Sorting.SortForDispatch(input.candidates.value), input.clock).running
        else reconciled.running
  {
    hide Reconcile, DispatchUpTo;
  }

  lemma Unsorted(issues: seq<Issue>, issue: Issue) returns (i: nat)
    requires issue in Sorting.SortForDispatch(issues)
    ensures i < |issues| && issues[i] == issue
  {
    Sorting.SortIsStable(issues);
    assert issue in multiset(Sorting.SortForDispatch(issues));
    assert issue in multiset(issues);
    i :| 0 <= i < |issues| && issues[i] == issue;
  }

  /** What breaks no rule and is not claimed is dispatched by the tick, unless it leaves the issue's
      state or the whole without room. */
  lemma TickMisses(s: Orchestration, input: Input, issue: Issue)
    requires BooksOk(s, {}) && s.cfg.dispatchValid && input.candidates.Some? && issue in input.candidates.value
    requires Wanted(s.cfg, issue) && issue.id !in s.claimed
    ensures var s' := OnTick(s, input);
      issue.id in s'.running || |s'.running| >= s'.maxConcurrent || |Tracked(s'.running, issue.state)| >= Allowed(s'.cfg, issue.state)
  {
    hide BooksOk, IsEligible, StateFull, Reconcile, PollAndDispatch, Wanted, Orchestration.GlobalAvailable;
    var reconciled, polled := Reconcile(s, input.clock(0), input.states), PollAndDispatch(s, input);
    Reconciled(s, input.clock(0), input.states, {});
    ReconcileKeepsConfig(s, input.clock(0), input.states);
    TickIsMaximal(s, input);
    WantedExactly(s.cfg, issue);
    PollUntimed(s, input);
    RoomExactly(polled, issue.state);
    assert Settled(reconciled, polled, issue);
    TickOnlyArms(polled, Backoff.Millis(polled.pollIntervalMs));
  }

  lemma TickOnlyArms(s: Orchestration, delay: int)
    ensures var s' := ScheduleTick(s, delay);
      s'.running == s.running && s'.cfg == s.cfg && s'.maxConcurrent == s.maxConcurrent
  {}

  /** No tick takes a state or the whole past what is allowed, counted from what reconciliation leaves:
      a state may be over its limit only as far as it already was. */
  lemma TickStaysAllowed(s: Orchestration, input: Input, state: string)
    requires BooksOk(s, {})
    ensures var reconciled, s' := Reconcile(s, input.clock(0), input.states), OnTick(s, input);
      && (|s'.running| <= s.maxConcurrent || |s'.running| <= |s.running|)
      && (|Tracked(s'.running, state)| <= Allowed(s.cfg, state) || |Tracked(s'.running, state)| <= |Tracked(reconciled.running, state)|)
  {
    hide BooksOk, Reconcile, PollAndDispatch, Orchestration.GlobalAvailable, NormalizeState, Tracked, Allowed;
    var reconciled, polled := Reconcile(s, input.clock(0), input.states), PollAndDispatch(s, input);
    Reconciled(s, input.clock(0), input.states, {});
    ReconcileKeepsConfig(s, input.clock(0), input.states);
    KeysCard(s.running);
    KeysCard(reconciled.running);
    TickWithinLimits(s, input, state);
    RoomExactly(polled, state);
    RoomExactly(reconciled, state);
    TickOnlyArms(polled, Backoff.Millis(polled.pollIntervalMs));
  }

  /** If the tick took the candidate of rank j and passed over a better-ranked one that breaks no rule and
      is not claimed, there was no room left in that one's state when its turn came. */
  lemma PassedOverForRoom(s: Orchestration, input: Input, a: Issue, j: nat) returns (i: nat)
    requires BooksOk(s, {}) && s.cfg.dispatchValid && input.candidates.Some? && a in input.candidates.value
    requires j < |Sorting.SortForDispatch(input.candidates.value)|
    requires var before, sorted := Reconcile(s, input.clock(0), input.states), Sorting.SortForDispatch(input.candidates.value);
      && TakenAt(before, sorted, input.clock, j)
      && Sorting.KeyLess(Sorting.KeyOf(a), Sorting.KeyOf(sorted[j]))
    requires a.id !in OnTick(s, input).running && a.id !in s.claimed && Wanted(s.cfg, a)
    ensures var sorted := Sorting.SortForDispatch(input.candidates.value);
      && i < j && sorted[i] == a
      && var moment := DispatchUpTo(Reconcile(s, input.clock(0), input.states), sorted, input.clock, i);
         |Tracked(moment.running, a.state)| >= Allowed(s.cfg, a.state)
  {
    hide BooksOk, IsEligible, StateFull, Wanted, Reconcile, PollAndDispatch, DispatchUpTo, TakenAt, Sorting.KeyLess, Tracked, Allowed;
    Reconciled(s, input.clock(0), input.states, {});
    ReconcileKeepsConfig(s, input.clock(0), input.states);
    WantedExactly(s.cfg, a);
    var polled := PollAndDispatch(s, input);
    TickOnlyArms(polled, Backoff.Millis(polled.pollIntervalMs));
    i := TickPrefersRank(s, input, a, j);
    var before, sorted := Reconcile(s, input.clock(0), input.states), Sorting.SortForDispatch(input.candidates.value);
    var moment := DispatchUpTo(before, sorted, input.clock, i);
    PhaseKeeps(before, sorted, input.clock, 0, i, "");
    PhaseStart(before, sorted, input.clock);
    RoomExactly(moment, a.state);
  }
}
