/** What becomes of a stalled worker that returns without an error: for every state in which its exit is
    queued behind the tick that finds the stall, and in a run from startup that any issue worth working on
    can go through. */
module Stalls {
  import opened Domain
  import opened State
  import opened Eligibility
  import opened Handlers
  import opened System
  import opened Books
  import opened Histories
  import opened Ledger
  import opened Accounts
  import opened Wakeups
  import opened Runs
  import opened Admission
  import opened Judging
  import Sorting
  import Backoff

  // ---------- the tick that finds the stall ----------

  // Its issue is queued as a normal continuation and counts as completed, where the comment in
  // reconcile.go expects the retry of an abnormal exit.

  predicate Halted(s: Orchestration, id: string) {
    id in s.running && s.running[id].terminating && !s.running[id].releaseOnExit
  }

  lemma TickHalts(s: Orchestration, input: Input, id: string)
    requires BooksOk(s, {}) && id in s.running && !s.running[id].terminating && Overdue(s.cfg, s.running[id], input.clock(0))
    ensures Halted(OnTick(s, input), id) && OnTick(s, input).running[id].worker == s.running[id].worker
  {
    hide Overdue, OnTick, ChannelOk, WorkersOk, TimersOk, ClaimsOk;
    TickJudges(s, input, id);
    assert !s.running[id].releaseOnExit;
  }

  /** Whenever a tick finds a worker stalled whose normal exit is already queued behind it, the exit is
      handled as that of a finished worker: attempt 1, and the issue marked completed, whatever the
      tracker answers. */
  lemma StalledReturnContinues(s: Orchestration, first: (Config, string), tick: Input, exit: Input)
    requires Reached(s, first) && |s.rt.chan| >= 2 && s.rt.chan[0].ev.TickEvent?
    requires s.rt.chan[1].ev.WorkerExit? && s.rt.chan[1].ev.reason == ExitNormal
    requires var id := s.rt.chan[1].ev.id;
      id in s.running && !s.running[id].terminating && Overdue(s.cfg, s.running[id], tick.clock(0))
    ensures var id, judged := s.rt.chan[1].ev.id, Apply(s, Deliver(tick));
      && judged.rt.chan == s.rt.chan[1..] && VerdictOf(judged.journal, s.running[id].worker) == Stopped
      && var ended := Apply(judged, Deliver(exit));
         && id in ended.retry && ended.retry[id].attempt == 1 && ended.retry[id].error == None && id in ended.completed
  {
    hide BooksOk, LedgerOk, Overdue, Reached, VerdictOf, Handle;
    var id, judged := s.rt.chan[1].ev.id, Apply(s, Deliver(tick));
    ReachedOk(s, first, 0);
    Dequeued(s);
    TickHalts(Dequeue(s), tick, id);
    TickApplied(s, tick);
    DeliveryChannel(s, tick);
    assert judged.rt.chan[0] == s.rt.chan[1];
    OneMore(s, first, Deliver(tick));
    ReachedOk(judged, first, 0);
    HaltedStopped(judged, first, id);
    ExitOutcome(judged, first, exit);
    NoErrorNoted(judged, exit);
  }

  lemma TickApplied(s: Orchestration, tick: Input)
    requires s.rt.chan != [] && s.rt.chan[0].ev.TickEvent?
    ensures Apply(s, Deliver(tick)) == OnTick(Dequeue(s), tick)
  {
    hide OnTick;
  }

  lemma OneMore(s: Orchestration, first: (Config, string), step: Step)
    requires Reached(s, first) && Enabled(s, step)
    ensures Reached(Apply(s, step), first)
  {
    hide Reached, Enabled, Apply;
    assert [step][1..] == [];
    assert Legal(Apply(s, step), []);
    ReachedMore(s, first, [step]);
  }

  lemma HaltedStopped(s: Orchestration, first: (Config, string), id: string)
    requires LedgerOk(s, first, 0) && Halted(s, id)
    ensures VerdictOf(s.journal, s.running[id].worker) == Stopped
  {
    hide AttemptsOk, EndsOk, TokensOk, ClockOk, ConfigOk, VerdictOf, Terminations, Cleanups, HasEnded;
    assert FlagsMatch(s.running[id], VerdictOf(s.journal, s.running[id].worker));
  }

  lemma NoErrorNoted(s: Orchestration, exit: Input)
    requires s.rt.chan != [] && s.rt.chan[0].ev.WorkerExit? && s.rt.chan[0].ev.reason == ExitNormal
    requires s.rt.chan[0].ev.id in s.running && !s.running[s.rt.chan[0].ev.id].releaseOnExit
    ensures var id, s' := s.rt.chan[0].ev.id, Apply(s, Deliver(exit));
      id in s'.retry && s'.retry[id].error == None
  {
    hide Backoff.RetryDelay, ExitMessage, EndWorker;
  }

  // ---------- such a run ----------

  function At(clock: Time, candidates: Option<seq<Issue>>): Input { Input((_: nat) => clock, None, candidates, true) }

  const OPENING := [Fire(0), Post(0)]
  const RETURN := [Fire(1), Post(1), Exit(0, None)]

  /** One dispatch, a late tick, and before it is handled the worker's return. */
  function Course(issue: Issue, late: Time): seq<Step> { Work(issue) + [Deliver(At(late, None))] + [Deliver(At(late, None))] }

  function Work(issue: Issue): seq<Step> { OPENING + [Deliver(At(0, Some([issue])))] + RETURN }

  lemma OneSorted(issue: Issue)
    ensures Sorting.SortForDispatch([issue]) == [issue]
  {
    Sorting.SortIsStable([issue]);
    var sorted := Sorting.SortForDispatch([issue]);
    assert multiset(sorted)[sorted[0]] > 0;
  }

  /** The first tick takes the only candidate. */
  lemma FirstDispatch(s: Orchestration, issue: Issue)
    requires s.running == map[] && s.claimed == {} && s.retry == map[] && s.rt.nextWorker == 0 && s.rt.live == map[]
    requires s.rt.armed == map[] && s.tickTimer == Some(0) && s.rt.nextTimer == 1 && s.rt.chan == []
    requires s.cfg.dispatchValid && s.maxConcurrent > 0 && s.cfg.PerStateLimit(issue.state) > 0 && IsEligible(s.cfg, issue)
    ensures var s' := OnTick(s, At(0, Some([issue])));
      && s'.cfg == s.cfg && s'.rt.chan == [] && s'.running == map[issue.id := NewEntry(issue, 0, 0, None)]
      && s'.rt.live == map[0 := issue.id] && 1 in s'.rt.armed && s'.rt.armed[1].ev == TickEvent
  {
    hide IsEligible, NormalizeState, Config.PerStateLimit;
    OneSorted(issue);
    var input := At(0, Some([issue]));
    var reconciled := Reconcile(s, 0, None);
    assert reconciled == s.(journal := reconciled.journal, running := map[], rt := reconciled.rt);
    assert DispatchUpTo(reconciled, [issue], input.clock, 0) == reconciled;
    assert IdsInState(reconciled.running, issue.state) == {};
    var polled := DispatchUpTo(reconciled, [issue], input.clock, 1);
    assert polled == DispatchIssue(reconciled, issue, None, 0);
    assert PollAndDispatch(s, input) == polled;
  }

  lemma Opened(first: (Config, string))
    ensures var s0 := Startup(first.0, first.1, []);
      && Legal(s0, OPENING)
      && var s := Exec(s0, OPENING);
         && s == s0.(rt := s.rt) && s.rt == FreshRuntime.(nextTimer := 1, chan := [Message(TickEvent, FromTimer(0))])
  {
    var s0 := Startup(first.0, first.1, []);
    var fired := FireStep(s0, 0);
    assert OPENING[1..] == [Post(0)] && [Post(0)][1..] == [];
    assert Legal(PostStep(fired, 0), []);
    assert Legal(fired, [Post(0)]);
    assert Exec(fired, [Post(0)]) == PostStep(fired, 0);
    assert s0.rt.armed - {0} == map[];
  }

  lemma ReturnedBehindTick(s: Orchestration, id: string)
    requires s.rt.live == map[0 := id] && 1 in s.rt.armed && s.rt.armed[1].ev == TickEvent && s.rt.chan == []
    ensures Legal(s, RETURN)
    ensures var s' := Exec(s, RETURN);
      && s' == s.(rt := s'.rt)
      && s'.rt.chan == [Message(TickEvent, FromTimer(1)), Message(WorkerExit(id, ExitNormal, None), FromWorker(0))]
  {
    var fired := FireStep(s, 1);
    var posted := PostStep(fired, 1);
    var left := ExitStep(posted, 0, None);
    assert RETURN[1..] == [Post(1), Exit(0, None)] && [Post(1), Exit(0, None)][1..] == [Exit(0, None)];
    assert [Exit(0, None)][1..] == [];
    assert Legal(left, []);
    assert Legal(posted, [Exit(0, None)]) && Exec(posted, [Exit(0, None)]) == left;
    assert Legal(fired, [Post(1), Exit(0, None)]) && Exec(fired, [Post(1), Exit(0, None)]) == left;
  }

  lemma OneStep(s: Orchestration, step: Step)
    requires Enabled(s, step)
    ensures Legal(s, [step]) && Exec(s, [step]) == Apply(s, step)
  {
    hide Enabled, Apply;
    assert [step][1..] == [];
    assert Legal(Apply(s, step), []);
  }

  /** The tick and, behind it, the exit of the worker it dispatched wait in the channel. */
  lemma Worked(first: (Config, string), issue: Issue)
    requires first.0.dispatchValid && first.0.maxConcurrent > 0 && first.0.PerStateLimit(issue.state) > 0
    requires IsEligible(first.0, issue)
    ensures Legal(Startup(first.0, first.1, []), Work(issue))
    ensures var s := Exec(Startup(first.0, first.1, []), Work(issue));
      && s.cfg == first.0 && s.running == map[issue.id := NewEntry(issue, 0, 0, None)]
      && s.rt.chan == [Message(TickEvent, FromTimer(1)), Message(WorkerExit(issue.id, ExitNormal, None), FromWorker(0))]
  {
    hide IsEligible, Config.PerStateLimit, OnTick, Legal, Exec;
    var s0, dispatch := Startup(first.0, first.1, []), At(0, Some([issue]));
    Opened(first);
    var s2 := Exec(s0, OPENING);
    var s3 := OnTick(Dequeue(s2), dispatch);
    assert s2.rt.chan[1..] == [];
    FirstDispatch(Dequeue(s2), issue);
    assert Apply(s2, Deliver(dispatch)) == s3;
    OneStep(s2, Deliver(dispatch));
    ExecConcat(s0, OPENING, [Deliver(dispatch)]);
    ReturnedBehindTick(s3, issue.id);
    ExecConcat(s0, OPENING + [Deliver(dispatch)], RETURN);
  }

  /** For every configuration with stall detection and room for a worker, and every issue it may take,
      such a run exists: the issue ends up completed and waiting for its continuation though its worker
      was judged stalled. */
  lemma StalledReturn(first: (Config, string), issue: Issue, late: Time)
    requires first.0.dispatchValid && first.0.maxConcurrent > 0 && Allowed(first.0, issue.state) > 0 && Wanted(first.0, issue)
    requires first.0.stallTimeoutMs > 0 && late > Backoff.Wrap64(first.0.stallTimeoutMs * 1_000_000)
    ensures var s0, steps := Startup(first.0, first.1, []), Course(issue, late);
      && Legal(s0, steps)
      && var s := Exec(s0, steps);
         && VerdictOf(s.journal, 0) == Stopped && issue.id in s.completed
         && issue.id in s.retry && s.retry[issue.id].attempt == 1 && s.retry[issue.id].error == None
  {
    hide Legal, Exec, Apply, IsEligible, Startup, Config.PerStateLimit, NormalizeState, VerdictOf, Reached, Wanted, Allowed;
    WantedExactly(first.0, issue);
    AllowedExactly(first.0, issue.state);
    var s0, last := Startup(first.0, first.1, []), At(late, None);
    Worked(first, issue);
    Reaches(first, [], Work(issue));
    var s := Exec(s0, Work(issue));
    StalledReturnContinues(s, first, last, last);
    OneMore(s, first, Deliver(last));
    var judged := Apply(s, Deliver(last));
    OneStep(s, Deliver(last));
    OneStep(judged, Deliver(last));
    TerminationIsFinal(judged, first, [Deliver(last)], 0);
    ExecConcat(s0, Work(issue), [Deliver(last)]);
    ExecConcat(s0, Work(issue) + [Deliver(last)], [Deliver(last)]);
  }
}
