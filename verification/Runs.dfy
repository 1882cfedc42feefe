/** The main theorems about whole runs: what is conserved, what attempt numbers mean and how termination
    ends.  A state is reached if some list of steps leads to it from some startup; the journal of a run is
    what the state is compared with, and it only grows. */
module Runs {
  import opened Domain
  import opened State
  import opened Eligibility
  import opened Handlers
  import opened System
  import opened Wakeups
  import opened Books
  import opened Histories
  import opened Ledger
  import opened Accounts
  import opened Liveness
  import opened Polling
  import Sorting
  import Backoff

  /** A state some run of the system reaches from startup with configuration `first`. */
  ghost predicate Reached(s: Orchestration, first: (Config, string)) {
    exists queued: seq<Event>, steps: seq<Step> :: ReachedBy(s, first, queued, steps)
  }

  ghost predicate ReachedBy(s: Orchestration, first: (Config, string), queued: seq<Event>, steps: seq<Step>) {
    CanStart(queued) && Legal(Startup(first.0, first.1, queued), steps) && Exec(Startup(first.0, first.1, queued), steps) == s
  }

  lemma ReachedOk(s: Orchestration, first: (Config, string), t: Time)
    requires Reached(s, first)
    ensures BooksOk(s, {}) && LedgerOk(s, first, t)
  {
    hide BooksOk, LedgerOk, Startup, CanStart;
    var queued, steps :| ReachedBy(s, first, queued, steps);
    StartupBooks(first.0, first.1, queued);
    StartupRecorded(first.0, first.1, queued, t);
    RunKeepsBooks(Startup(first.0, first.1, queued), steps);
    RunRecorded(Startup(first.0, first.1, queued), steps, first, t);
  }

  lemma {:induction false} ExecConcat(s: Orchestration, a: seq<Step>, b: seq<Step>)
    requires Legal(s, a) && Legal(Exec(s, a), b)
    ensures Legal(s, a + b) && Exec(s, a + b) == Exec(Exec(s, a), b)
    decreases |a|
  {
    hide Enabled, Apply;
    if a == [] {
      assert a + b == b;
    } else {
      assert (a + b)[1..] == a[1..] + b && (a + b)[0] == a[0];
      ExecConcat(Apply(s, a[0]), a[1..], b);
    }
  }

  lemma {:induction false} LastStep(s: Orchestration, steps: seq<Step>)
    requires Legal(s, steps) && steps != []
    ensures var most, last := steps[..|steps| - 1], steps[|steps| - 1];
      Legal(s, most) && Enabled(Exec(s, most), last) && Exec(s, steps) == Apply(Exec(s, most), last)
    decreases |steps|
  {
    hide Enabled, Apply;
    if |steps| == 1 {
      assert steps[1..] == [] == steps[..0];
    } else {
      LastStep(Apply(s, steps[0]), steps[1..]);
      var most := steps[..|steps| - 1];
      assert most[0] == steps[0] && most[1..] == steps[1..][..|steps| - 2];
    }
  }

  lemma Reaches(first: (Config, string), queued: seq<Event>, steps: seq<Step>)
    requires CanStart(queued) && Legal(Startup(first.0, first.1, queued), steps)
    ensures Reached(Exec(Startup(first.0, first.1, queued), steps), first)
  {
    hide Startup, CanStart, Legal, Exec;
    assert ReachedBy(Exec(Startup(first.0, first.1, queued), steps), first, queued, steps);
  }

  lemma ReachedMore(s: Orchestration, first: (Config, string), steps: seq<Step>)
    requires Reached(s, first) && Legal(s, steps)
    ensures Reached(Exec(s, steps), first)
  {
    hide Startup, CanStart;
    var queued, before :| ReachedBy(s, first, queued, before);
    ExecConcat(Startup(first.0, first.1, queued), before, steps);
    assert ReachedBy(Exec(s, steps), first, queued, before + steps);
  }

  // ---------- tokens ----------

  /** In every reachable state all usage ever emitted is in the totals or still in the channel, and
      the totals are the running sessions' plus what ended sessions carried. */
  lemma TokensConserved(s: Orchestration, first: (Config, string))
    requires Reached(s, first)
    ensures EmittedTotal(s.journal) == s.totals.Plus(InFlightTotal(s.rt.chan))
    ensures s.totals == SessionTotal(s.running).Plus(EndedTotal(s.journal))
  {
    ReachedOk(s, first, 0);
    hide BooksOk, AttemptsOk, EndsOk, VerdictsOk, CreditsOk, SessionTotal;
  }

  /** Nothing is credited to the wrong worker, however often an issue is dispatched again: what worker
      w emitted is what its own entry carries, or carried when it ended, plus what is in flight. */
  lemma TokensCreditedToSender(s: Orchestration, first: (Config, string), w: nat)
    requires Reached(s, first)
    ensures forall id :: id in s.running && s.running[id].worker == w ==>
      EmittedBy(s.journal, w) == s.running[id].session.tokens.Plus(InFlight(s.rt.chan, w))
    ensures HasEnded(s.journal, w) ==> EmittedBy(s.journal, w) == EndedTokens(s.journal, w) && w !in s.rt.live
  {
    ReachedOk(s, first, 0);
    hide AttemptsOk, VerdictsOk, TotalsOk;
    if w in s.rt.live { LiveServes(s, w); }
    hide BooksOk, Serving, EmittedBy, EndedTokens, InFlight;
  }

  /** Emitted usage is balanced: every source builds it by usageFromMap. */
  ghost predicate BalancedSteps(steps: seq<Step>) {
    forall step | step in steps :: step.Emit? && step.msg.usage.Some? ==> step.msg.usage.value.Balanced()
  }

  predicate EmittedBalanced(h: History) {
    h.Then? ==> EmittedBalanced(h.before) && (h.act.Emitted? ==> h.act.usage.Balanced())
  }

  lemma {:induction false} BalancedTotal(h: History)
    requires EmittedBalanced(h)
    ensures EmittedTotal(h).Balanced()
  {
    if h.Then? { BalancedTotal(h.before); }
  }

  ghost predicate BalancedWorld(s: Orchestration) {
    EmittedBalanced(s.journal) && forall i :: 0 <= i < |s.rt.chan| ==> UsageIn(s.rt.chan[i]).Balanced()
  }

  lemma {:induction false} BalancedChannel(chan: seq<Message>)
    requires forall i :: 0 <= i < |chan| ==> UsageIn(chan[i]).Balanced()
    ensures InFlightTotal(chan).Balanced()
  {
    hide UsageIn, Usage.Plus, Usage.Balanced;
    if chan != [] {
      BalancedChannel(chan[1..]);
      PlusBalanced(UsageIn(chan[0]), InFlightTotal(chan[1..]));
    } else {
      assert NoUsage.Balanced() by { NoUsageBalanced(); }
    }
  }

  lemma NoUsageBalanced()
    ensures NoUsage.Balanced()
  {}

  lemma PlusBalanced(a: Usage, b: Usage)
    ensures a.Balanced() && b.Balanced() ==> a.Plus(b).Balanced()
    ensures a.Plus(b).Balanced() && b.Balanced() ==> a.Balanced()
  {}

  lemma QueuedBalanced(s: Orchestration, s': Orchestration)
    requires BalancedWorld(s) && EmittedBalanced(s'.journal)
    requires s'.rt.chan == s.rt.chan || (s'.rt.chan != [] && s'.rt.chan == s.rt.chan + [s'.rt.chan[|s'.rt.chan| - 1]]
                                         && UsageIn(s'.rt.chan[|s'.rt.chan| - 1]).Balanced())
    ensures BalancedWorld(s')
  {
    hide UsageIn, EmittedBalanced, Usage.Balanced;
  }

  lemma EmissionBalanced(s: Orchestration, w: nat, msg: AgentEvent)
    requires BalancedWorld(s) && w in s.rt.live && (msg.usage.Some? ==> msg.usage.value.Balanced())
    ensures BalancedWorld(EmitStep(s, w, msg))
  {
    hide UsageIn, EmittedBalanced, EmitStep, Usage.Balanced;
    var s' := EmitStep(s, w, msg);
    var m := Message(AgentUpdate(s.rt.live[w], msg), FromWorker(w));
    EmissionParts(s, w, msg);
    NoUsageBalanced();
    assert s'.rt.chan[|s'.rt.chan| - 1] == m;
    hide BalancedWorld;
    QueuedBalanced(s, s');
  }

  lemma EmissionParts(s: Orchestration, w: nat, msg: AgentEvent)
    requires w in s.rt.live
    ensures var s', m := EmitStep(s, w, msg), Message(AgentUpdate(s.rt.live[w], msg), FromWorker(w));
      && s'.rt.chan == s.rt.chan + [m]
      && UsageIn(m) == (if msg.usage.Some? then msg.usage.value else NoUsage)
      && (EmittedBalanced(s'.journal) <==> EmittedBalanced(s.journal) && (msg.usage.Some? ==> msg.usage.value.Balanced()))
  {}

  lemma SilentBalanced(s: Orchestration, s': Orchestration)
    requires BalancedWorld(s) && Silent(s, s')
    ensures BalancedWorld(s')
  {
    NoUsageBalanced();
    hide UsageIn, EmittedBalanced, Usage.Balanced;
    QueuedBalanced(s, s');
  }

  lemma DeliveryBalanced(s: Orchestration, input: Input)
    requires BooksOk(s, {}) && BalancedWorld(s) && s.rt.chan != []
    ensures BalancedWorld(Apply(s, Deliver(input)))
  {
    var s' := Apply(s, Deliver(input));
    hide Apply, BooksOk, BalancedWorld, Appended, EmittedBalanced;
    DeliveryAppends(s, input);
    AppendedBalanced(s.journal, s'.journal);
    DeliveryChannel(s, input);
    BalancedTail(s, s');
  }

  lemma {:induction false} AppendedBalanced(h: History, h': History)
    requires Appended(h, h')
    ensures EmittedBalanced(h') == EmittedBalanced(h)
  {
    if h' != h { AppendedBalanced(h, h'.before); }
  }

  lemma BalancedTail(s: Orchestration, s': Orchestration)
    requires BalancedWorld(s) && EmittedBalanced(s'.journal) == EmittedBalanced(s.journal)
    requires s.rt.chan != [] && s'.rt.chan == s.rt.chan[1..]
    ensures BalancedWorld(s')
  {
    hide UsageIn, EmittedBalanced, Usage.Balanced;
    assert forall i :: 0 <= i < |s'.rt.chan| ==> s'.rt.chan[i] == s.rt.chan[i + 1];
  }

  lemma StepBalanced(s: Orchestration, step: Step)
    requires BooksOk(s, {}) && BalancedWorld(s) && Enabled(s, step)
    requires step.Emit? && step.msg.usage.Some? ==> step.msg.usage.value.Balanced()
    ensures BalancedWorld(Apply(s, step))
  {
    hide BooksOk, BalancedWorld, Silent, Handle, EmitStep, ExitStep, FireStep, PostStep, Enqueue;
    if step.Deliver? {
      DeliveryBalanced(s, step.input);
    } else if step.Emit? {
      EmissionBalanced(s, step.worker, step.msg);
    } else {
      if step.Post? { PostedKinds(s, step); }
      StepIsSilent(s, step);
      SilentBalanced(s, Apply(s, step));
    }
  }

  /** Handlers post nothing to the channel. */
  lemma DeliveryChannel(s: Orchestration, input: Input)
    requires BooksOk(s, {}) && s.rt.chan != []
    ensures Apply(s, Deliver(input)).rt.chan == s.rt.chan[1..]
  {
    hide BooksOk, Handle, OnTick, OnReload, ScheduleTick, PollAndDispatch;
    var d, ev := Dequeue(s), s.rt.chan[0].ev;
    if ev.AgentUpdate? || ev.WorkerExit? || ev.RetryTimerFired? {
      IssueHandlersArm(s, input);
    } else {
      Dequeued(s);
      TimelessHandlers(d, ev, input);
    }
  }

  /** The handlers of ticks, refreshes, reloads and snapshot requests leave the channel alone. */
  lemma TimelessHandlers(s: Orchestration, ev: Event, input: Input)
    requires BooksOk(s, {}) && !ev.AgentUpdate? && !ev.WorkerExit? && !ev.RetryTimerFired?
    ensures Handle(s, ev, input).rt.chan == s.rt.chan
  {
    hide BooksOk, PollAndDispatch, OnAgentUpdate, OnWorkerExit, OnRetryTimer;
    if ev.TickEvent? { PollUntimed(s, input); }
  }

  lemma {:induction false} RunBalanced(s: Orchestration, steps: seq<Step>)
    requires BooksOk(s, {}) && BalancedWorld(s) && Legal(s, steps) && BalancedSteps(steps)
    ensures BalancedWorld(Exec(s, steps))
    decreases |steps|
  {
    hide BooksOk, BalancedWorld, Enabled, Apply;
    if steps != [] {
      assert steps[0] in steps && forall step :: step in steps[1..] ==> step in steps;
      StepBalanced(s, steps[0]);
      StepKeepsBooks(s, steps[0]);
      RunBalanced(Apply(s, steps[0]), steps[1..]);
    }
  }

  /** The global totals always satisfy total = input + output, and per-step usage never enters them. */
  lemma TotalsBalanced(first: (Config, string), queued: seq<Event>, steps: seq<Step>)
    requires CanStart(queued) && Legal(Startup(first.0, first.1, queued), steps) && BalancedSteps(steps)
    ensures Exec(Startup(first.0, first.1, queued), steps).totals.Balanced()
  {
    hide *;
    var s0 := Startup(first.0, first.1, queued);
    var s := Exec(s0, steps);
    StartupBooks(first.0, first.1, queued);
    StartupBalanced(first, queued);
    RunBalanced(s0, steps);
    Reaches(first, queued, steps);
    TokensConserved(s, first);
    BalancedRemainder(s);
  }

  lemma BalancedRemainder(s: Orchestration)
    requires BalancedWorld(s) && EmittedTotal(s.journal) == s.totals.Plus(InFlightTotal(s.rt.chan))
    ensures s.totals.Balanced()
  {
    hide Usage.Plus, Usage.Balanced, UsageIn, EmittedTotal, EmittedBalanced, InFlightTotal;
    BalancedTotal(s.journal);
    BalancedChannel(s.rt.chan);
    PlusBalanced(s.totals, InFlightTotal(s.rt.chan));
  }

  lemma StartupBalanced(first: (Config, string), queued: seq<Event>)
    requires CanStart(queued)
    ensures BalancedWorld(Startup(first.0, first.1, queued))
  {
    var s := Startup(first.0, first.1, queued);
    forall i | 0 <= i < |s.rt.chan| ensures UsageIn(s.rt.chan[i]).Balanced() { assert queued[i] in queued; }
  }

  // ---------- attempts ----------

  /** Attempt numbers are a function of history, and every retry's is at least 1: the clamp in
      scheduleRetry is never needed. */
  lemma AttemptsAreHistory(s: Orchestration, first: (Config, string))
    requires Reached(s, first)
    ensures forall id :: id in s.retry ==> s.retry[id].attempt == AttemptOf(s.journal, id) >= 1
    ensures forall id :: id in s.running ==> s.running[id].retryAttempt == AttemptOf(s.journal, id) >= 0
  {
    ReachedOk(s, first, 0);
    hide BooksOk, EndsOk, VerdictsOk, TokensOk, ConfigOk, ClockOk;
  }

  // ---------- configuration ----------

  /** Limits and cadence in force are those of the last accepted reload; the armed tick is due at once
      or after the poll interval in force. */
  lemma SettingsInForce(s: Orchestration, first: (Config, string))
    requires Reached(s, first)
    ensures (s.cfg, s.template) == ConfigOf(s.journal, first)
    ensures s.maxConcurrent == s.cfg.maxConcurrent && s.pollIntervalMs == s.cfg.pollIntervalMs
    ensures s.completed == CompletedIds(s.journal)
    ensures forall t :: t in s.rt.armed && s.rt.armed[t].ev.TickEvent? ==>
      s.rt.armed[t].delay in {0, Backoff.Millis(s.cfg.pollIntervalMs)}
  {
    ReachedOk(s, first, 0);
    hide BooksOk, EndsOk, VerdictsOk, TokensOk, AttemptsOk, ClockOk;
  }


  // ---------- the journal only grows ----------

  /** A handler only appends, and emission is not a handler's doing. */
  ghost predicate Appended(h: History, h': History) {
    h' == h || (h'.Then? && !h'.act.Emitted? && Appended(h, h'.before))
  }

  lemma {:induction false} AppendedTransitive(a: History, b: History, c: History)
    requires Appended(a, b) && Appended(b, c)
    ensures Appended(a, c)
  {
    if b != c { AppendedTransitive(a, b, c.before); }
  }

  lemma {:induction false} AppendedEmitsNothing(h: History, h': History)
    requires Appended(h, h')
    ensures EmittedTotal(h') == EmittedTotal(h) && Extends(h, h')
  {
    if h' != h { AppendedEmitsNothing(h, h'.before); }
  }

  ghost predicate Extends(h: History, h': History) {
    h' == h || (h'.Then? && Extends(h, h'.before))
  }

  lemma {:induction false} ExtendsTransitive(a: History, b: History, c: History)
    requires Extends(a, b) && Extends(b, c)
    ensures Extends(a, c)
  {
    if b != c { ExtendsTransitive(a, b, c.before); }
  }

  lemma {:induction false} RefreshExtends(s: Orchestration, issues: seq<Issue>)
    ensures Appended(s.journal, Refresh(s, issues).journal)
  {
    if issues != [] {
      var most := Refresh(s, issues[..|issues| - 1]);
      RefreshExtends(s, issues[..|issues| - 1]);
      RefreshOneExtends(most, issues[|issues| - 1]);
      hide RefreshOne;
      AppendedTransitive(s.journal, most.journal, Refresh(s, issues).journal);
    }
  }

  lemma RefreshOneExtends(s: Orchestration, issue: Issue)
    ensures Appended(s.journal, RefreshOne(s, issue).journal)
  {
    hide IsTerminalState, IsActiveState;
  }

  lemma ReconcileExtends(s: Orchestration, now: Time, states: Option<seq<Issue>>)
    ensures Appended(s.journal, Reconcile(s, now, states).journal)
  {
    var stalls := ReconcileStalls(s, now);
    assert Appended(s.journal, stalls.journal);
    hide ReconcileStalls;
    if states.Some? {
      RefreshExtends(stalls, states.value);
      AppendedTransitive(s.journal, stalls.journal, Refresh(stalls, states.value).journal);
    }
    hide Refresh;
  }

  lemma VisitExtends(s: Orchestration, issue: Issue, at: Time)
    ensures Appended(s.journal, Visit(s, issue, at).journal)
  {
    hide IsEligible, StateFull;
  }

  lemma {:induction false} PhaseExtends(s: Orchestration, issues: seq<Issue>, clock: nat -> Time, n: nat)
    requires n <= |issues|
    ensures Appended(s.journal, DispatchUpTo(s, issues, clock, n).journal)
  {
    hide Visit, Orchestration.GlobalAvailable;
    if n > 0 {
      var before, after := DispatchUpTo(s, issues, clock, n - 1), DispatchUpTo(s, issues, clock, n);
      PhaseExtends(s, issues, clock, n - 1);
      VisitExtends(before, issues[n - 1], clock(n));
      assert Appended(before.journal, after.journal);
      AppendedTransitive(s.journal, before.journal, after.journal);
    }
  }

  lemma TickExtends(s: Orchestration, input: Input)
    ensures Appended(s.journal, OnTick(s, input).journal)
  {
    hide DispatchUpTo, Reconcile;
    var reconciled := Reconcile(s, input.clock(0), input.states);
    ReconcileExtends(s, input.clock(0), input.states);
    if input.candidates.Some? {
      var sorted := Sorting.SortForDispatch(input.candidates.value);
      PhaseExtends(reconciled, sorted, input.clock, |sorted|);
      AppendedTransitive(s.journal, reconciled.journal, DispatchAll(reconciled, sorted, input.clock).journal);
    }
  }

  lemma RetryJournal(s: Orchestration, id: string, attempt: int, identifier: string, url: Option<string>,
                     error: Option<string>, continuation: bool, now: Time)
    ensures ScheduleRetry(s, id, attempt, identifier, url, error, continuation, now).journal == s.journal
  {}

  lemma EndExtends(s: Orchestration, id: string, at: Time, act: Act)
    requires id in s.running && !act.Emitted?
    ensures Appended(s.journal, EndWorker(s, id, at).Log(act).journal)
  {
    var ended := EndWorker(s, id, at);
    assert Appended(s.journal, s.journal);
    assert Appended(s.journal, Then(s.journal, Ended(s.running[id].worker, at, s.running[id].session.tokens)));
    assert Appended(s.journal, ended.journal);
  }

  lemma ExitExtends(s: Orchestration, id: string, reason: ExitReason, err: Option<string>, input: Input)
    ensures Appended(s.journal, OnWorkerExit(s, id, reason, err, input).journal)
  {
    if id in s.running {
      var entry, ended := s.running[id], EndWorker(s, id, input.clock(0));
      EndExtends(s, id, input.clock(0), Released(id));
      EndExtends(s, id, input.clock(0), Completed(id));
      EndExtends(s, id, input.clock(0), Failed(id, AbnormalExit));
      hide EndWorker, ScheduleRetry, ExitMessage, Appended;
      RetryJournal(ended.(completed := ended.completed + {id}).Log(Completed(id)),
                   id, 1, entry.identifier, entry.issue.url, None, true, input.clock(1));
      RetryJournal(ended.Log(Failed(id, AbnormalExit)), id, entry.retryAttempt + 1, entry.identifier, entry.issue.url,
                   Some(ExitMessage(err)), false, input.clock(1));
    }
  }

  lemma WakeupExtends(s: Orchestration, id: string, input: Input)
    ensures Appended(s.journal, OnRetryTimer(s, id, input).journal)
  {
    hide IsEligible, StateFull, FindById, Orchestration.GlobalAvailable, Backoff.RetryDelay;
  }

  lemma DeliveryAppends(s: Orchestration, input: Input)
    requires s.rt.chan != []
    ensures Appended(s.journal, Apply(s, Deliver(input)).journal)
  {
    hide OnTick, OnWorkerExit, OnRetryTimer, OnAgentUpdate;
    match s.rt.chan[0].ev
    case TickEvent => TickExtends(Dequeue(s), input);
    case WorkerExit(id, reason, err) => ExitExtends(Dequeue(s), id, reason, err, input);
    case RetryTimerFired(id) => WakeupExtends(Dequeue(s), id, input);
    case AgentUpdate(id, msg) => UpdateJournal(Dequeue(s), id, msg);
    case _ =>
  }

  lemma StepExtends(s: Orchestration, step: Step)
    requires Enabled(s, step)
    ensures Extends(s.journal, Apply(s, step).journal)
  {
    hide Handle;
    if step.Deliver? {
      DeliveryAppends(s, step.input);
      AppendedEmitsNothing(s.journal, Apply(s, step).journal);
    }
  }

  lemma UpdateJournal(s: Orchestration, id: string, m: AgentEvent)
    ensures OnAgentUpdate(s, id, m).journal == s.journal
  {
    hide UpdateSession;
  }

  lemma {:induction false} RunExtends(s: Orchestration, steps: seq<Step>)
    requires Legal(s, steps)
    ensures Extends(s.journal, Exec(s, steps).journal)
    decreases |steps|
  {
    hide Enabled, Apply;
    if steps != [] {
      var next := Apply(s, steps[0]);
      StepExtends(s, steps[0]);
      RunExtends(next, steps[1..]);
      ExtendsTransitive(s.journal, next.journal, Exec(s, steps).journal);
    }
  }

  // ---------- termination ----------

  lemma {:induction false} TerminationsGrow(h: History, h': History, w: nat)
    requires Extends(h, h')
    ensures Terminations(h, w) <= Terminations(h', w)
    ensures Terminations(h, w) == Terminations(h', w) ==> VerdictOf(h', w) == VerdictOf(h, w)
    ensures HasEnded(h, w) ==> HasEnded(h', w)
    ensures Cleanups(h, w) <= Cleanups(h', w)
  {
    if h != h' { TerminationsGrow(h, h'.before, w); }
  }

  /** Termination is one-shot: once reconciliation has judged a worker, nothing that happens later
      changes the verdict, and while its entry lasts the entry's flags are that verdict. */
  lemma TerminationIsFinal(s: Orchestration, first: (Config, string), steps: seq<Step>, w: nat)
    requires Reached(s, first) && Legal(s, steps) && VerdictOf(s.journal, w) != Untouched
    ensures var s' := Exec(s, steps);
      && VerdictOf(s'.journal, w) == VerdictOf(s.journal, w)
      && Terminations(s'.journal, w) == 1
      && forall id :: id in s'.running && s'.running[id].worker == w ==>
           FlagsMatch(s'.running[id], VerdictOf(s.journal, w)) && w in s'.rt.cancelled
  {
    var s' := Exec(s, steps);
    ReachedMore(s, first, steps);
    ReachedOk(s, first, 0);
    ReachedOk(s', first, 0);
    RunExtends(s, steps);
    TerminationsGrow(s.journal, s'.journal, w);
    hide AttemptsOk, EndsOk, TokensOk, ClockOk, ConfigOk, ChannelOk, WorkersOk, TimersOk, ClaimsOk, VerdictOf,
      Terminations, HasEnded, Cleanups,
      Extends, Reached, Exec, Legal;
  }

  /** Exit cleanup: once for each worker that reconciliation dropped for a terminal state and whose
      entry has ended, for no other, and never while that worker is alive. */
  lemma CleanupExactlyOnce(s: Orchestration, first: (Config, string), w: nat)
    requires Reached(s, first)
    ensures Cleanups(s.journal, w) == if HasEnded(s.journal, w) && VerdictOf(s.journal, w) == Dropped(true) then 1 else 0
    ensures Cleanups(s.journal, w) > 0 ==> w !in s.rt.live
  {
    ReachedOk(s, first, 0);
    hide AttemptsOk, TokensOk, ClockOk, ConfigOk, VerdictOf, HasEnded, Cleanups;
    if w in s.rt.live { LiveServes(s, w); }
  }

  /** Where a worker's exit leads: a dropped issue is released, every other one - a stalled one
      included, however its worker returned - is queued for retry with its claim kept.  A normal return
      makes that attempt 1 and marks the issue completed, whatever reconciliation judged; an error adds
      one to the attempt. */
  lemma ExitOutcome(s: Orchestration, first: (Config, string), input: Input)
    requires Reached(s, first) && s.rt.chan != [] && s.rt.chan[0].ev.WorkerExit?
    ensures var id, s' := s.rt.chan[0].ev.id, Apply(s, Deliver(input));
      && id in s.running && id !in s'.running
      && (VerdictOf(s.journal, s.running[id].worker).Dropped? ==> id !in s'.claimed && id !in s'.retry)
      && (!VerdictOf(s.journal, s.running[id].worker).Dropped? ==> id in s'.claimed && id in s'.retry)
    ensures var WorkerExit(id, reason, _) := s.rt.chan[0].ev;
      var dropped, before, s' := VerdictOf(s.journal, s.running[id].worker).Dropped?, s.running[id].retryAttempt, Apply(s, Deliver(input));
      && (!dropped ==> s'.retry[id].attempt == (if reason == ExitNormal then 1 else before + 1))
      && (!dropped ==> (s'.retry[id].attempt == 1 <==> reason == ExitNormal || before == 0))
      && s'.completed == s.completed + (if !dropped && reason == ExitNormal then {id} else {})
  {
    hide BooksOk, LedgerOk, Reached, Apply;
    ReachedOk(s, first, 0);
    AttemptsAreHistory(s, first);
    var WorkerExit(id, reason, err) := s.rt.chan[0].ev;
    NoStaleMessage(s);
    ExitFlags(s, first, id);
    ExitPlaces(Dequeue(s), id, reason, err, input);
    Delivered(s, input);
    ExitApplied(s, input);
    ClaimsDisjoint(Apply(s, Deliver(input)));
  }

  lemma ExitApplied(s: Orchestration, input: Input)
    requires s.rt.chan != [] && s.rt.chan[0].ev.WorkerExit?
    ensures var WorkerExit(id, reason, err) := s.rt.chan[0].ev;
      Apply(s, Deliver(input)) == OnWorkerExit(Dequeue(s), id, reason, err, input)
  {
    hide OnWorkerExit;
  }

  lemma ExitFlags(s: Orchestration, first: (Config, string), id: string)
    requires LedgerOk(s, first, 0) && id in s.running
    ensures s.running[id].releaseOnExit <==> VerdictOf(s.journal, s.running[id].worker).Dropped?
  {
    hide AttemptsOk, EndsOk, TokensOk, ClockOk, ConfigOk, VerdictOf, Terminations, Cleanups, HasEnded;
    assert FlagsMatch(s.running[id], VerdictOf(s.journal, s.running[id].worker));
  }

  lemma ExitPlaces(s: Orchestration, id: string, reason: ExitReason, err: Option<string>, input: Input)
    requires id in s.running && s.running[id].retryAttempt >= 0
    ensures var s', e := OnWorkerExit(s, id, reason, err, input), s.running[id];
      && id !in s'.running
      && (e.releaseOnExit ==> id !in s'.claimed)
      && (!e.releaseOnExit ==> id in s'.retry && id in s'.claimed)
      && (!e.releaseOnExit ==> s'.retry[id].attempt == (if reason == ExitNormal then 1 else e.retryAttempt + 1))
      && s'.completed == s.completed + (if !e.releaseOnExit && reason == ExitNormal then {id} else {})
  {
    hide Backoff.RetryDelay, ExitMessage;
  }
}
