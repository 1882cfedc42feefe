/** The ledger carried through every handler, every step and every run.

    `LedgerOk` puts the subjects of `Ledger` together with the configuration in force.  Each handler is
    followed through its parts: a dispatch, a retry, a tick, a remark in the journal, a verdict of
    reconciliation, a session update, the end of an entry.  For each part a lemma ending in `Shape` says
    what it does to the fields the ledger looks at, and one ending in `Recorded` that the ledger still
    holds afterwards.  The handlers' lemmas join the parts, `DeliveryRecorded` the handlers,
    `StepRecorded` the steps and `RunRecorded` the runs.  The lemmas about handlers that hold a message in
    hand take the books of `Books` with that id held.  What is concluded from the ledger is in `Runs`. */
module Accounts {
  import opened Domain
  import opened State
  import opened Eligibility
  import opened Handlers
  import opened System
  import opened Wakeups
  import opened Books
  import opened Histories
  import opened Ledger
  import opened Liveness
  import Sorting
  import Backoff

  /** The effective settings mirror the last accepted configuration, and so does the armed tick. */
  ghost predicate ConfigOk(s: Orchestration, first: (Config, string)) {
    && (s.cfg, s.template) == ConfigOf(s.journal, first)
    && s.pollIntervalMs == s.cfg.pollIntervalMs && s.maxConcurrent == s.cfg.maxConcurrent
    && s.completed == CompletedIds(s.journal)
    && (forall t :: t in s.rt.armed && s.rt.armed[t].ev.TickEvent? ==>
          s.rt.armed[t].delay == 0 || s.rt.armed[t].delay == Backoff.Millis(s.pollIntervalMs))
  }

  ghost predicate LedgerOk(s: Orchestration, first: (Config, string), t: Time) {
    && AttemptsOk(s.running, s.retry, s.journal)
    && EndsOk(s.running, s.rt.nextWorker, s.journal)
    && TokensOk(s.running, s.rt.chan, s.totals, s.journal)
    && ClockOk(s.running, s.endedNs, s.rt.nextWorker, s.journal, t)
    && VerdictsOk(s.running, s.rt.nextWorker, s.journal)
    && ConfigOk(s, first)
  }

  // ---------- what the wake-up invariant gives ----------

  lemma OneEach(s: Orchestration, held: set<string>)
    requires BooksOk(s, held)
    ensures OneEntryEach(s.running)
  {
    hide ChannelOk, TimersOk, FlagsOk, ClaimsOk, ExitPending;
    forall a, b | a in s.running && b in s.running && s.running[a].worker == s.running[b].worker ensures a == b {
      assert Owners(s.running)[a] == Owners(s.running)[b];
    }
  }

  lemma NewcomerSilent(s: Orchestration, held: set<string>)
    requires BooksOk(s, held)
    ensures InFlight(s.rt.chan, s.rt.nextWorker) == NoUsage
  {
    forall i | 0 <= i < |s.rt.chan| ensures s.rt.chan[i].src != FromWorker(s.rt.nextWorker) {
      assert WellSent(s.rt.chan[i], Owners(s.running), Alarms(s.retry));
    }
    hide TimersOk, FlagsOk;
    NothingInFlight(s.rt.chan, s.rt.nextWorker);
  }

  /** Once a worker's exit heads the channel, nothing of that worker is left behind it. */
  lemma ExitIsLast(s: Orchestration)
    requires BooksOk(s, {}) && s.rt.chan != [] && s.rt.chan[0].ev.WorkerExit?
    ensures var id := s.rt.chan[0].ev.id;
      id in s.running && InFlight(s.rt.chan[1..], s.running[id].worker) == NoUsage
  {
    var m, chan := s.rt.chan[0], s.rt.chan[1..];
    assert WellSent(m, Owners(s.running), Alarms(s.retry));
    var w := s.running[m.ev.id].worker;
    forall i | 0 <= i < |chan| ensures chan[i].src != FromWorker(w) { assert s.rt.chan[i + 1].src != m.src; }
    hide TimersOk, FlagsOk, WorkersOk;
    NothingInFlight(chan, w);
  }

  // ---------- shared steps ----------

  lemma DispatchRecorded(s: Orchestration, issue: Issue, attempt: Option<int>, at: Time, held: set<string>,
                         first: (Config, string), t: Time)
    requires BooksOk(s, held) && LedgerOk(s, first, t) && issue.id !in s.running && issue.id !in s.retry
    requires attempt.Some? ==> attempt.value == AttemptOf(s.journal, issue.id) >= 0
    ensures LedgerOk(DispatchIssue(s, issue, attempt, at), first, t)
  {
    hide BooksOk, AttemptsOk, EndsOk, TokensOk, ClockOk, VerdictsOk, ConfigOk, DispatchIssue, InFlight, AttemptOf;
    NewcomerSilent(s, held);
    var n, id, h := s.rt.nextWorker, issue.id, s.journal;
    var e := NewEntry(issue, n, at, attempt);
    DispatchAttempts(s.running, s.retry, h, id, e, attempt.None?);
    DispatchEnds(s.running, n, h, id, e, attempt.None?);
    DispatchTokens(s.running, n, s.rt.chan, s.totals, h, id, e, attempt.None?);
    DispatchClock(s.running, s.endedNs, n, h, t, id, e, attempt.None?);
    DispatchVerdicts(s.running, n, h, id, e, attempt.None?);
    DispatchConfig(s, issue, attempt, at, first);
    DispatchShape(s, issue, attempt, at);
  }

  lemma DispatchShape(s: Orchestration, issue: Issue, attempt: Option<int>, at: Time)
    requires issue.id !in s.retry
    ensures var e := NewEntry(issue, s.rt.nextWorker, at, attempt);
      DispatchIssue(s, issue, attempt, at) ==
        s.(running := s.running[issue.id := e], claimed := s.claimed + {issue.id}, rt := s.rt.Go(issue.id))
         .Log(Act.Dispatched(issue.id, e.worker, attempt.None?, at))
  {}

  lemma DispatchConfig(s: Orchestration, issue: Issue, attempt: Option<int>, at: Time, first: (Config, string))
    requires ConfigOk(s, first) && issue.id !in s.retry
    ensures ConfigOk(DispatchIssue(s, issue, attempt, at), first)
  {
    DispatchShape(s, issue, attempt, at);
    hide DispatchIssue;
  }

  lemma RetryRecorded(s: Orchestration, id: string, attempt: int, identifier: string, url: Option<string>,
                      error: Option<string>, continuation: bool, now: Time, first: (Config, string), t: Time)
    requires LedgerOk(s, first, t) && id !in s.retry && attempt == AttemptOf(s.journal, id) >= 1
    ensures LedgerOk(ScheduleRetry(s, id, attempt, identifier, url, error, continuation, now), first, t)
  {
    hide EndsOk, TokensOk, ClockOk, VerdictsOk, AttemptOf, ConfigOf, CompletedIds, Backoff.RetryDelay;
    var s' := ScheduleRetry(s, id, attempt, identifier, url, error, continuation, now);
    assert AttemptsOk(s'.running, s'.retry, s'.journal);
    assert ConfigOk(s', first);
  }

  lemma TickRecorded(s: Orchestration, delay: int, first: (Config, string), t: Time)
    requires LedgerOk(s, first, t) && (delay == 0 || delay == Backoff.Millis(s.pollIntervalMs))
    ensures LedgerOk(ScheduleTick(s, delay), first, t)
  {
    hide AttemptsOk, EndsOk, TokensOk, ClockOk, VerdictsOk, ConfigOf, CompletedIds, Backoff.Millis;
    assert ConfigOk(ScheduleTick(s, delay), first);
  }

  /** Everything but the configuration part survives a remark. */
  lemma RemarkKept(s: Orchestration, act: Act, first: (Config, string), t: Time)
    requires LedgerOk(s, first, t) && IsRemark(act)
    requires act.Completed? || act.Failed? ==> act.id !in s.running && act.id !in s.retry
    ensures AttemptsOk(s.running, s.retry, Then(s.journal, act))
    ensures EndsOk(s.running, s.rt.nextWorker, Then(s.journal, act))
    ensures TokensOk(s.running, s.rt.chan, s.totals, Then(s.journal, act))
    ensures ClockOk(s.running, s.endedNs, s.rt.nextWorker, Then(s.journal, act), t)
    ensures VerdictsOk(s.running, s.rt.nextWorker, Then(s.journal, act))
  {
    hide AttemptsOk, EndsOk, TokensOk, VerdictsOk, LiveNs, RunTime, ConfigOk;
    RemarkAttempts(s.running, s.retry, s.journal, act);
    RemarkEnds(s.running, s.rt.nextWorker, s.journal, act);
    RemarkTokens(s.running, s.rt.chan, s.totals, s.journal, act);
    RunTimeSame(s.journal, act, s.rt.nextWorker, t);
    RemarkVerdicts(s.running, s.rt.nextWorker, s.journal, act);
  }

  lemma RemarkRecorded(s: Orchestration, act: Act, first: (Config, string), t: Time)
    requires LedgerOk(s, first, t) && (act.Failed? || act.Released?)
    requires act.Failed? ==> act.id !in s.running && act.id !in s.retry
    ensures LedgerOk(s.Log(act), first, t)
  {
    hide AttemptsOk, EndsOk, TokensOk, ClockOk, VerdictsOk;
    RemarkKept(s, act, first, t);
    assert ConfigOk(s.Log(act), first);
  }

  lemma CompletionRecorded(s: Orchestration, id: string, first: (Config, string), t: Time)
    requires LedgerOk(s, first, t) && id !in s.running && id !in s.retry
    ensures LedgerOk(s.(completed := s.completed + {id}).Log(Completed(id)), first, t)
  {
    hide AttemptsOk, EndsOk, TokensOk, ClockOk, VerdictsOk;
    RemarkKept(s, Completed(id), first, t);
    assert ConfigOk(s.(completed := s.completed + {id}).Log(Completed(id)), first);
  }

  lemma ReloadConfigOk(s: Orchestration, cfg: Config, template: string, first: (Config, string))
    requires ConfigOk(s, first)
    requires forall k :: k in s.rt.armed && s.rt.armed[k].ev.TickEvent? ==> s.tickTimer == Some(k)
    ensures ConfigOk(OnReload(s, cfg, template, true), first)
  {
    hide Backoff.Millis;
    var s' := OnReload(s, cfg, template, true);
    assert ConfigOf(s'.journal, first) == (cfg, template) && CompletedIds(s'.journal) == CompletedIds(s.journal);
    assert forall k :: k in s'.rt.armed && s'.rt.armed[k].ev.TickEvent? ==> k == s.rt.nextTimer;
    assert ConfigOk(s', first);
  }

  lemma ReloadShape(s: Orchestration, cfg: Config, template: string)
    ensures var s' := OnReload(s, cfg, template, true);
      && s'.running == s.running && s'.retry == s.retry && s'.totals == s.totals && s'.endedNs == s.endedNs
      && s'.rt.chan == s.rt.chan && s'.rt.nextWorker == s.rt.nextWorker && s'.journal == Then(s.journal, Reloaded(cfg, template))
  {}

  lemma ReloadRecorded(s: Orchestration, cfg: Config, template: string, trackerOk: bool, first: (Config, string), t: Time)
    requires LedgerOk(s, first, t) && BooksOk(s, {})
    ensures LedgerOk(OnReload(s, cfg, template, trackerOk), first, t)
  {
    if trackerOk {
      assert forall k :: k in s.rt.armed && s.rt.armed[k].ev.TickEvent? ==> s.tickTimer == Some(k);
      hide BooksOk, AttemptsOk, EndsOk, TokensOk, ClockOk, VerdictsOk, ConfigOk, OnReload;
      RemarkKept(s, Reloaded(cfg, template), first, t);
      ReloadConfigOk(s, cfg, template, first);
      ReloadShape(s, cfg, template);
    }
  }

  // ---------- reconciliation ----------

  /** A verdict in the journal and on the entries, nothing else but a cancellation. */
  lemma VerdictRecorded(s: Orchestration, s': Orchestration, act: Act, first: (Config, string), t: Time)
    requires LedgerOk(s, first, t) && (act.Stalled? || act.Terminated?)
    requires SameIdentities(s.running, s'.running)
    requires forall id :: id in s.running ==> s.running[id].session == s'.running[id].session
    requires s' == s.(running := s'.running, journal := Then(s.journal, act), rt := s.rt.(cancelled := s'.rt.cancelled))
    requires VerdictsOk(s'.running, s.rt.nextWorker, Then(s.journal, act))
    ensures LedgerOk(s', first, t)
  {
    hide AttemptsOk, EndsOk, TokensOk, VerdictsOk, LiveNs, RunTime;
    var n, h' := s.rt.nextWorker, Then(s.journal, act);
    JudgedAttempts(s.running, s.retry, s.journal, act);
    RemarkEnds(s.running, n, s.journal, act);
    RemarkTokens(s.running, s.rt.chan, s.totals, s.journal, act);
    RunTimeSame(s.journal, act, n, t);
    RewrittenEnds(s.running, s'.running, s.retry, n, h');
    RewrittenTokens(s.running, s'.running, s.rt.chan, s.totals, h');
    RewrittenClock(s.running, s'.running, s.endedNs, n, h', t);
    assert ConfigOk(s', first);
  }

  lemma StallShape(s: Orchestration, now: Time)
    requires s.cfg.stallTimeoutMs > 0
    ensures var s' := ReconcileStalls(s, now);
      && s'.journal.Then? && s'.journal.act.Stalled? && SameIdentities(s.running, s'.running)
      && s' == s.(running := s'.running, journal := Then(s.journal, s'.journal.act), rt := s.rt.(cancelled := s'.rt.cancelled))
      && forall id :: id in s.running ==> s.running[id].session == s'.running[id].session
  {
    hide IsStalled;
  }

  lemma StallsRecorded(s: Orchestration, now: Time, first: (Config, string), t: Time)
    requires LedgerOk(s, first, t) && BooksOk(s, {})
    ensures LedgerOk(ReconcileStalls(s, now), first, t)
  {
    hide BooksOk, AttemptsOk, EndsOk, TokensOk, ClockOk, VerdictsOk, ConfigOk, SameIdentities, OneEntryEach, IsStalled;
    if s.cfg.stallTimeoutMs > 0 {
      OneEach(s, {});
      StallShape(s, now);
      StallVerdicts(s, now);
      hide ReconcileStalls, LedgerOk;
      VerdictRecorded(s, ReconcileStalls(s, now), ReconcileStalls(s, now).journal.act, first, t);
    }
  }

  lemma StallVerdicts(s: Orchestration, now: Time)
    requires VerdictsOk(s.running, s.rt.nextWorker, s.journal) && EndsOk(s.running, s.rt.nextWorker, s.journal)
    requires OneEntryEach(s.running)
    requires s.cfg.stallTimeoutMs > 0
    ensures VerdictsOk(ReconcileStalls(s, now).running, s.rt.nextWorker, ReconcileStalls(s, now).journal)
  {
    var s' := ReconcileStalls(s, now);
    var act := s'.journal.act;
    forall id | id in s.running ensures s.running[id].worker in act.workers <==> IsStalled(s.cfg, s.running[id], now) {}
    JudgedVerdicts(s.running, s'.running, s.rt.nextWorker, s.journal, act);
  }

  lemma TerminationShape(s: Orchestration, id: string, cleanup: bool)
    requires id in s.running && !s.running[id].terminating
    ensures var s' := TerminateRunning(s, id, cleanup, true);
      && SameIdentities(s.running, s'.running)
      && s' == s.(running := s'.running, journal := Then(s.journal, Terminated(s.running[id].worker, cleanup)),
                  rt := s.rt.(cancelled := s'.rt.cancelled))
      && forall k :: k in s.running ==> s.running[k].session == s'.running[k].session
  {}

  lemma TerminationRecorded(s: Orchestration, id: string, cleanup: bool, first: (Config, string), t: Time)
    requires LedgerOk(s, first, t) && BooksOk(s, {})
    ensures LedgerOk(TerminateRunning(s, id, cleanup, true), first, t)
  {
    if id in s.running && !s.running[id].terminating {
      OneEach(s, {});
      TerminationShape(s, id, cleanup);
      TerminationVerdicts(s, id, cleanup);
      hide TerminateRunning, BooksOk, VerdictsOk;
      VerdictRecorded(s, TerminateRunning(s, id, cleanup, true), Terminated(s.running[id].worker, cleanup), first, t);
    }
  }

  lemma TerminationVerdicts(s: Orchestration, id: string, cleanup: bool)
    requires VerdictsOk(s.running, s.rt.nextWorker, s.journal) && EndsOk(s.running, s.rt.nextWorker, s.journal)
    requires OneEntryEach(s.running)
    requires id in s.running && !s.running[id].terminating
    ensures var s' := TerminateRunning(s, id, cleanup, true);
      VerdictsOk(s'.running, s.rt.nextWorker, Then(s.journal, Terminated(s.running[id].worker, cleanup)))
  {
    var s', act := TerminateRunning(s, id, cleanup, true), Terminated(s.running[id].worker, cleanup);
    forall k | k in s.running ensures FlagsMatch(s'.running[k], VerdictOf(Then(s.journal, act), s'.running[k].worker)) {
      assert k != id ==> s.running[k].worker != s.running[id].worker;
    }
    JudgedVerdicts(s.running, s'.running, s.rt.nextWorker, s.journal, act);
  }

  lemma SameFlagsVerdicts(a: map<string, Entry>, b: map<string, Entry>, n: nat, h: History)
    requires VerdictsOk(a, n, h) && SameIdentities(a, b)
    requires forall id :: id in a ==>
      (a[id].terminating, a[id].cleanupOnExit, a[id].releaseOnExit)
      == (b[id].terminating, b[id].cleanupOnExit, b[id].releaseOnExit)
    ensures VerdictsOk(b, n, h)
  {
    hide VerdictOf, Terminations, Cleanups, HasEnded;
  }

  /** Refreshing an issue's state and labels is not an event of the journal. */
  lemma DetailsRecorded(s: Orchestration, s': Orchestration, first: (Config, string), t: Time)
    requires LedgerOk(s, first, t)
    requires SameIdentities(s.running, s'.running) && s' == s.(running := s'.running)
    requires forall id :: id in s.running ==> s'.running[id].(issue := s.running[id].issue) == s.running[id]
    ensures LedgerOk(s', first, t)
  {
    var a, b := s.running, s'.running;
    assert forall id :: id in a ==> b[id].(issue := a[id].issue).session == a[id].session;
    hide AttemptsOk, EndsOk, TokensOk, ClockOk, VerdictsOk, SameIdentities;
    RewrittenEnds(a, b, s.retry, s.rt.nextWorker, s.journal);
    RewrittenTokens(a, b, s.rt.chan, s.totals, s.journal);
    RewrittenClock(a, b, s.endedNs, s.rt.nextWorker, s.journal, t);
    SameFlagsVerdicts(a, b, s.rt.nextWorker, s.journal);
    assert ConfigOk(s', first);
  }

  lemma RefreshOneRecorded(s: Orchestration, issue: Issue, first: (Config, string), t: Time)
    requires LedgerOk(s, first, t) && BooksOk(s, {})
    ensures LedgerOk(RefreshOne(s, issue), first, t)
  {
    hide BooksOk, LedgerOk, IsTerminalState, IsActiveState, TerminateRunning;
    if issue.id in s.running && !s.running[issue.id].terminating {
      if IsTerminalState(s.cfg, issue.state) {
        TerminationRecorded(s, issue.id, true, first, t);
      } else if IsActiveState(s.cfg, issue.state) {
        DetailsRecorded(s, RefreshOne(s, issue), first, t);
      } else {
        TerminationRecorded(s, issue.id, false, first, t);
      }
    }
  }

  lemma {:induction false} RefreshRecorded(s: Orchestration, issues: seq<Issue>, first: (Config, string), t: Time)
    requires LedgerOk(s, first, t) && BooksOk(s, {})
    ensures LedgerOk(Refresh(s, issues), first, t)
  {
    hide LedgerOk, BooksOk, RefreshOne;
    if issues != [] {
      var most := issues[..|issues| - 1];
      RefreshRecorded(s, most, first, t);
      Refreshed(s, most, {});
      RefreshOneRecorded(Refresh(s, most), issues[|issues| - 1], first, t);
    }
  }

  lemma ReconcileRecorded(s: Orchestration, now: Time, states: Option<seq<Issue>>, first: (Config, string), t: Time)
    requires LedgerOk(s, first, t) && BooksOk(s, {})
    ensures LedgerOk(Reconcile(s, now, states), first, t)
  {
    hide LedgerOk, BooksOk, ReconcileStalls, Refresh;
    StallsRecorded(s, now, first, t);
    StallsReconciled(s, now, {});
    if states.Some? { RefreshRecorded(ReconcileStalls(s, now), states.value, first, t); }
  }

  // ---------- tick ----------

  lemma {:induction false} PhaseRecorded(s: Orchestration, issues: seq<Issue>, clock: nat -> Time, n: nat,
                                         first: (Config, string), t: Time)
    requires LedgerOk(s, first, t) && BooksOk(s, {}) && n <= |issues|
    ensures LedgerOk(DispatchUpTo(s, issues, clock, n), first, t)
  {
    hide LedgerOk, BooksOk, Visit, Orchestration.GlobalAvailable;
    if n > 0 {
      var before, after := DispatchUpTo(s, issues, clock, n - 1), DispatchUpTo(s, issues, clock, n);
      PhaseRecorded(s, issues, clock, n - 1, first, t);
      DispatchedUpTo(s, issues, clock, n - 1);
      VisitRecorded(before, issues[n - 1], clock(n), first, t);
      assert LedgerOk(after, first, t);
    }
  }

  lemma VisitRecorded(s: Orchestration, issue: Issue, at: Time, first: (Config, string), t: Time)
    requires LedgerOk(s, first, t) && BooksOk(s, {})
    ensures LedgerOk(Visit(s, issue, at), first, t)
  {
    hide LedgerOk, ChannelOk, WorkersOk, TimersOk, FlagsOk, IsEligible, StateFull, DispatchIssue;
    if issue.id !in s.running && issue.id !in s.claimed { DispatchRecorded(s, issue, None, at, {}, first, t); }
  }

  lemma PollRecorded(s: Orchestration, input: Input, first: (Config, string), t: Time)
    requires LedgerOk(s, first, t) && BooksOk(s, {})
    ensures LedgerOk(PollAndDispatch(s, input), first, t)
  {
    hide LedgerOk, BooksOk, Reconcile, DispatchUpTo;
    ReconcileRecorded(s, input.clock(0), input.states, first, t);
    Reconciled(s, input.clock(0), input.states, {});
    if input.candidates.Some? {
      var sorted := Sorting.SortForDispatch(input.candidates.value);
      PhaseRecorded(Reconcile(s, input.clock(0), input.states), sorted, input.clock, |sorted|, first, t);
    }
  }

  lemma TickedRecorded(s: Orchestration, input: Input, first: (Config, string), t: Time)
    requires LedgerOk(s, first, t) && BooksOk(s, {})
    ensures LedgerOk(OnTick(s, input), first, t)
  {
    hide LedgerOk, BooksOk, PollAndDispatch, ScheduleTick;
    PollRecorded(s, input, first, t);
    TickRecorded(PollAndDispatch(s, input), Backoff.Millis(PollAndDispatch(s, input).pollIntervalMs), first, t);
  }

  // ---------- agent updates ----------

  lemma UpdateTokens(e: Session, m: AgentEvent)
    ensures UpdateSession(e, m).tokens == e.tokens.Plus(if m.usage.Some? then m.usage.value else NoUsage)
  {
    hide AppendActivity, ActivityOf, Truncate;
  }

  lemma UpdateShape(s: Orchestration, id: string, m: AgentEvent)
    requires id in s.running
    ensures var s', e := OnAgentUpdate(s, id, m), s.running[id].(session := UpdateSession(s.running[id].session, m));
      && s' == s.(running := s.running[id := e], totals := s'.totals, rateLimits := s'.rateLimits)
      && s'.totals == s.totals.Plus(if m.usage.Some? then m.usage.value else NoUsage)
  {
    hide UpdateSession;
    PlusLaws(s.totals, NoUsage, NoUsage);
  }

  lemma SessionSwapped(running: map<string, Entry>, id: string, e: Entry)
    requires id in running && e == running[id].(session := e.session)
    ensures SameIdentities(running, running[id := e])
    ensures forall k :: k in running ==>
      var a, b := running[k], running[id := e][k];
      (a.terminating, a.cleanupOnExit, a.releaseOnExit) == (b.terminating, b.cleanupOnExit, b.releaseOnExit)
  {}

  /** Crediting the update at the head of the channel to entry id, part by part. */
  lemma UpdateKept(s: Orchestration, id: string, e: Entry, t: Time)
    requires AttemptsOk(s.running, s.retry, s.journal) && EndsOk(s.running, s.rt.nextWorker, s.journal)
    requires TokensOk(s.running, s.rt.chan, s.totals, s.journal) && VerdictsOk(s.running, s.rt.nextWorker, s.journal)
    requires ClockOk(s.running, s.endedNs, s.rt.nextWorker, s.journal, t)
    requires OneEntryEach(s.running) && s.rt.chan != [] && id in s.running
    requires s.rt.chan[0].src == FromWorker(s.running[id].worker) && e == s.running[id].(session := e.session)
    requires e.session.tokens == s.running[id].session.tokens.Plus(UsageIn(s.rt.chan[0]))
    ensures var running', n, chan := s.running[id := e], s.rt.nextWorker, s.rt.chan[1..];
      && AttemptsOk(running', s.retry, s.journal) && EndsOk(running', n, s.journal)
      && TokensOk(running', chan, s.totals.Plus(UsageIn(s.rt.chan[0])), s.journal)
      && ClockOk(running', s.endedNs, n, s.journal, t) && VerdictsOk(running', n, s.journal)
  {
    hide *;
    var running', n, h := s.running[id := e], s.rt.nextWorker, s.journal;
    SessionSwapped(s.running, id, e);
    CreditTokens(s.running, s.rt.chan, s.totals, h, id, e);
    RewrittenEnds(s.running, running', s.retry, n, h);
    RewrittenClock(s.running, running', s.endedNs, n, h, t);
    SameFlagsVerdicts(s.running, running', n, h);
  }

  lemma UpdateRecorded(s: Orchestration, first: (Config, string), t: Time)
    requires LedgerOk(s, first, t) && BooksOk(s, {}) && s.rt.chan != [] && s.rt.chan[0].ev.AgentUpdate?
    ensures LedgerOk(OnAgentUpdate(Dequeue(s), s.rt.chan[0].ev.id, s.rt.chan[0].ev.msg), first, t)
  {
    hide BooksOk, UpdateSession, AttemptsOk, EndsOk, TokensOk, ClockOk, VerdictsOk, OneEntryEach, OnAgentUpdate,
      Usage.Plus, ConfigOf,
      CompletedIds;
    var m := s.rt.chan[0];
    var id := m.ev.id;
    OneEach(s, {});
    NoStaleMessage(s);
    var e := s.running[id].(session := UpdateSession(s.running[id].session, m.ev.msg));
    UpdateTokens(s.running[id].session, m.ev.msg);
    UpdateKept(s, id, e, t);
    UpdateShape(Dequeue(s), id, m.ev.msg);
    var s' := OnAgentUpdate(Dequeue(s), id, m.ev.msg);
    assert ConfigOk(s', first);
  }

  // ---------- worker exit ----------

  lemma EndKept(s: Orchestration, chan: seq<Message>, id: string, at: Time, first: (Config, string), t: Time)
    requires AttemptsOk(s.running, s.retry, s.journal) && EndsOk(s.running, s.rt.nextWorker, s.journal)
    requires TokensOk(s.running, chan, s.totals, s.journal) && VerdictsOk(s.running, s.rt.nextWorker, s.journal)
    requires ClockOk(s.running, s.endedNs, s.rt.nextWorker, s.journal, t)
    requires OneEntryEach(s.running) && id in s.running && InFlight(chan, s.running[id].worker) == NoUsage
    ensures var rest, n, h' := s.running - {id}, s.rt.nextWorker, EndedHistory(s.journal, s.running[id], at);
      && AttemptsOk(rest, s.retry, h') && EndsOk(rest, n, h') && TokensOk(rest, chan, s.totals, h') && VerdictsOk(rest, n, h')
      && ClockOk(rest, s.endedNs + (at - s.running[id].startedAt), n, h', t)
      && AttemptOf(h', id) == s.running[id].retryAttempt >= 0
  {
    hide *;
    var n, h := s.rt.nextWorker, s.journal;
    EndAttempts(s.running, s.retry, h, id, at);
    EndEnds(s.running, n, h, id, at);
    EndTokens(s.running, chan, s.totals, h, id, at);
    EndClock(s.running, s.endedNs, n, h, t, id, at);
    EndVerdicts(s.running, n, h, id, at);
  }

  /** The ledger after the exit has been taken and the entry ended, and the attempt number the next
      retry builds on. */
  lemma EndRecorded(s: Orchestration, at: Time, first: (Config, string), t: Time)
    requires LedgerOk(s, first, t) && BooksOk(s, {}) && s.rt.chan != [] && s.rt.chan[0].ev.WorkerExit?
    ensures var id := s.rt.chan[0].ev.id;
      && id in s.running
      && LedgerOk(EndWorker(Dequeue(s), id, at), first, t)
      && AttemptOf(EndWorker(Dequeue(s), id, at).journal, id) == s.running[id].retryAttempt >= 0
  {
    hide BooksOk, AttemptsOk, EndsOk, TokensOk, ClockOk, VerdictsOk, ConfigOk, OneEntryEach, AttemptOf, EndWorker,
      EndedHistory, InFlight;
    ExitIsLast(s);
    OneEach(s, {});
    var id := s.rt.chan[0].ev.id;
    TakenTokens(s.running, s.rt.chan, s.totals, s.journal);
    EndKept(s, s.rt.chan[1..], id, at, first, t);
    ConfigTaken(s, first);
    EndShape(Dequeue(s), id, at);
    EndConfig(Dequeue(s), id, at, first);
  }

  lemma ConfigTaken(s: Orchestration, first: (Config, string))
    requires ConfigOk(s, first) && s.rt.chan != []
    ensures ConfigOk(Dequeue(s), first)
  {}

  lemma EndShape(s: Orchestration, id: string, at: Time)
    requires id in s.running
    ensures EndWorker(s, id, at) ==
      s.(running := s.running - {id}, endedNs := s.endedNs + (at - s.running[id].startedAt),
         journal := EndedHistory(s.journal, s.running[id], at))
  {}

  lemma EndConfig(s: Orchestration, id: string, at: Time, first: (Config, string))
    requires ConfigOk(s, first) && id in s.running
    ensures ConfigOk(EndWorker(s, id, at), first)
  {
    var e, s' := s.running[id], EndWorker(s, id, at);
    var ended := Then(s.journal, Ended(e.worker, at, e.session.tokens));
    assert ConfigOf(ended, first) == ConfigOf(s.journal, first) && CompletedIds(ended) == CompletedIds(s.journal);
    assert ConfigOf(s'.journal, first) == ConfigOf(s.journal, first) && CompletedIds(s'.journal) == CompletedIds(s.journal);
    assert ConfigOk(s', first);
  }

  lemma ClaimDropped(s: Orchestration, id: string, first: (Config, string), t: Time)
    requires LedgerOk(s, first, t)
    ensures LedgerOk(s.(claimed := s.claimed - {id}).Log(Released(id)), first, t)
  {
    RemarkRecorded(s, Released(id), first, t);
    hide AttemptsOk, EndsOk, TokensOk, ClockOk, VerdictsOk, ConfigOf, CompletedIds;
    assert ConfigOk(s.(claimed := s.claimed - {id}).Log(Released(id)), first);
  }

  lemma ContinuationRecorded(s: Orchestration, id: string, identifier: string, url: Option<string>, now: Time,
                             first: (Config, string), t: Time)
    requires LedgerOk(s, first, t) && id !in s.running && id !in s.retry
    ensures LedgerOk(ScheduleRetry(s.(completed := s.completed + {id}).Log(Completed(id)), id, 1, identifier, url,
                                   None, true, now), first, t)
  {
    hide LedgerOk, ScheduleRetry;
    CompletionRecorded(s, id, first, t);
    var done := s.(completed := s.completed + {id}).Log(Completed(id));
    assert AttemptOf(done.journal, id) == 1;
    RetryRecorded(done, id, 1, identifier, url, None, true, now, first, t);
  }

  lemma EndFields(s: Orchestration, id: string, at: Time)
    requires id in s.running
    ensures EndWorker(s, id, at).running == s.running - {id} && EndWorker(s, id, at).retry == s.retry
  {}

  lemma ExitOutcomeRecorded(s: Orchestration, id: string, reason: ExitReason, err: Option<string>, input: Input,
                            first: (Config, string), t: Time)
    requires id in s.running && id !in s.retry
    requires LedgerOk(EndWorker(s, id, input.clock(0)), first, t)
    requires AttemptOf(EndWorker(s, id, input.clock(0)).journal, id) == s.running[id].retryAttempt >= 0
    ensures LedgerOk(OnWorkerExit(s, id, reason, err, input), first, t)
  {
    hide LedgerOk, EndWorker, ScheduleRetry, ExitMessage, AttemptOf;
    var entry, ended := s.running[id], EndWorker(s, id, input.clock(0));
    EndFields(s, id, input.clock(0));
    if entry.releaseOnExit {
      ClaimDropped(ended, id, first, t);
    } else if reason == ExitNormal {
      ContinuationRecorded(ended, id, entry.identifier, entry.issue.url, input.clock(1), first, t);
    } else {
      RetryAgain(ended, id, entry.retryAttempt, AbnormalExit, entry.identifier, entry.issue.url,
                 Some(ExitMessage(err)), input.clock(1), first, t);
    }
  }

  lemma ExitRecorded(s: Orchestration, input: Input, first: (Config, string), t: Time)
    requires LedgerOk(s, first, t) && BooksOk(s, {}) && s.rt.chan != [] && s.rt.chan[0].ev.WorkerExit?
    ensures var WorkerExit(id, reason, err) := s.rt.chan[0].ev;
      LedgerOk(OnWorkerExit(Dequeue(s), id, reason, err, input), first, t)
  {
    var WorkerExit(id, reason, err) := s.rt.chan[0].ev;
    assert id !in s.retry by {
      ExitHandled(s, input);
      hide ChannelOk, WorkersOk, TimersOk, FlagsOk;
    }
    hide LedgerOk, BooksOk, EndWorker, OnWorkerExit, AttemptOf;
    EndRecorded(s, input.clock(0), first, t);
    ExitOutcomeRecorded(Dequeue(s), id, reason, err, input, first, t);
  }

  // ---------- retry wake-up ----------

  lemma DequeueRecorded(s: Orchestration, first: (Config, string), t: Time)
    requires LedgerOk(s, first, t) && s.rt.chan != [] && !s.rt.chan[0].ev.AgentUpdate?
    ensures LedgerOk(Dequeue(s), first, t)
  {
    hide AttemptsOk, EndsOk, TokensOk, ClockOk, VerdictsOk, ConfigOf, CompletedIds;
    TakenTokens(s.running, s.rt.chan, s.totals, s.journal);
    assert ConfigOk(Dequeue(s), first);
  }

  lemma EntryTaken(s: Orchestration, id: string, first: (Config, string), t: Time)
    requires LedgerOk(s, first, t) && id in s.retry
    ensures LedgerOk(s.(retry := s.retry - {id}), first, t)
    ensures s.retry[id].attempt == AttemptOf(s.journal, id) >= 1
  {
    hide EndsOk, TokensOk, ClockOk, VerdictsOk, ConfigOf, CompletedIds, AttemptOf;
    assert AttemptsOk(s.running, s.retry - {id}, s.journal);
    assert ConfigOk(s.(retry := s.retry - {id}), first);
  }

  lemma WakeupRecorded(s: Orchestration, input: Input, first: (Config, string), t: Time)
    requires LedgerOk(s, first, t) && BooksOk(s, {}) && s.rt.chan != [] && s.rt.chan[0].ev.RetryTimerFired?
    ensures LedgerOk(Apply(s, Deliver(input)), first, t)
  {
    hide LedgerOk, ChannelOk, WorkersOk, TimersOk, FlagsOk, ScheduleRetry, DispatchIssue, IsEligible, StateFull, FindById,
      Orchestration.GlobalAvailable;
    var id := s.rt.chan[0].ev.id;
    WakeupHandled(s);
    DequeueRecorded(s, first, t);
    EntryTaken(Dequeue(s), id, first, t);
    var entry, taken := s.retry[id], Dequeue(s).(retry := s.retry - {id});
    assert id !in taken.running && id !in taken.retry;
    if input.candidates.None? {
      RetryAgain(taken, id, entry.attempt, RetryPollFailed, entry.identifier, entry.url, Some("retry poll failed"), input.clock(0), first, t);
    } else {
      var found := FindById(input.candidates.value, id);
      Found(input.candidates.value, id);
      if found.None? || !IsEligible(taken.cfg, found.value) {
        ClaimDropped(taken, id, first, t);
      } else if taken.GlobalAvailable() == 0 || StateFull(taken, found.value.state) {
        RetryAgain(taken, id, entry.attempt, NoSlots, found.value.identifier, found.value.url,
                   Some("no available orchestrator slots"), input.clock(0), first, t);
      } else {
        DispatchRecorded(taken, found.value, Some(entry.attempt), input.clock(0), {id}, first, t);
      }
    }
  }

  lemma RetryAgain(s: Orchestration, id: string, attempt: int, kind: FailureKind, identifier: string, url: Option<string>,
                   error: Option<string>, now: Time, first: (Config, string), t: Time)
    requires LedgerOk(s, first, t) && id !in s.running && id !in s.retry && attempt == AttemptOf(s.journal, id) >= 0
    ensures LedgerOk(ScheduleRetry(s.Log(Failed(id, kind)), id, attempt + 1, identifier, url, error, false, now), first, t)
  {
    hide LedgerOk, ScheduleRetry;
    RemarkRecorded(s, Failed(id, kind), first, t);
    assert AttemptOf(s.Log(Failed(id, kind)).journal, id) == AttemptOf(s.journal, id) + 1;
    RetryRecorded(s.Log(Failed(id, kind)), id, attempt + 1, identifier, url, error, false, now, first, t);
  }

  // ---------- steps and runs ----------

  lemma DeliveryRecorded(s: Orchestration, input: Input, first: (Config, string), t: Time)
    requires LedgerOk(s, first, t) && BooksOk(s, {}) && s.rt.chan != []
    ensures LedgerOk(Apply(s, Deliver(input)), first, t)
  {
    hide LedgerOk, BooksOk, OnTick, OnAgentUpdate, OnWorkerExit, OnRetryTimer, OnReload, ScheduleTick;
    var ev, d := s.rt.chan[0].ev, Dequeue(s);
    match ev
    case WorkerExit(id, reason, err) => ExitRecorded(s, input, first, t);
    case RetryTimerFired(_) => WakeupRecorded(s, input, first, t);
    case AgentUpdate(_, _) => UpdateRecorded(s, first, t);
    case TickEvent =>
      Dequeued(s);
      DequeueRecorded(s, first, t);
      TickedRecorded(d, input, first, t);
    case ReloadConfig(cfg, template) =>
      Dequeued(s);
      DequeueRecorded(s, first, t);
      ReloadRecorded(d, cfg, template, input.trackerOk, first, t);
    case RefreshRequest =>
      DequeueRecorded(s, first, t);
      TickRecorded(d, 0, first, t);
    case SnapshotRequest => DequeueRecorded(s, first, t);
  }

  lemma EmissionRecorded(s: Orchestration, w: nat, msg: AgentEvent, first: (Config, string), t: Time)
    requires LedgerOk(s, first, t) && BooksOk(s, {}) && w in s.rt.live
    ensures LedgerOk(EmitStep(s, w, msg), first, t)
  {
    var m := Message(AgentUpdate(s.rt.live[w], msg), FromWorker(w));
    LiveServes(s, w);
    hide BooksOk, AttemptsOk, EndsOk, TokensOk, ClockOk, VerdictsOk, ConfigOf, CompletedIds, Serving;
    if msg.usage.Some? {
      var act := Emitted(w, msg.usage.value);
      EmissionTokens(s.running, s.rt.chan, s.totals, s.journal, m);
      JudgedAttempts(s.running, s.retry, s.journal, act);
      RemarkEnds(s.running, s.rt.nextWorker, s.journal, act);
      RemarkVerdicts(s.running, s.rt.nextWorker, s.journal, act);
      EmissionClock(s, act, t);
    } else {
      SilentTokens(s.running, s.rt.chan, s.totals, s.journal, m);
    }
    EmissionConfig(s, w, msg, first);
  }

  lemma EmissionClock(s: Orchestration, act: Act, t: Time)
    requires ClockOk(s.running, s.endedNs, s.rt.nextWorker, s.journal, t) && act.Emitted?
    ensures ClockOk(s.running, s.endedNs, s.rt.nextWorker, Then(s.journal, act), t)
  {
    RunTimeSame(s.journal, act, s.rt.nextWorker, t);
  }

  lemma EmissionConfig(s: Orchestration, w: nat, msg: AgentEvent, first: (Config, string))
    requires ConfigOk(s, first) && w in s.rt.live
    ensures ConfigOk(EmitStep(s, w, msg), first)
  {}

  lemma LiveServes(s: Orchestration, w: nat)
    requires BooksOk(s, {}) && w in s.rt.live
    ensures Serving(s.running, w)
  {
    assert Owners(s.running)[s.rt.live[w]] == w;
  }

  /** A step that only queues a message without usage, or only moves a timer. */
  ghost predicate Silent(s: Orchestration, s': Orchestration) {
    && s' == s.(rt := s'.rt) && s'.rt.nextWorker == s.rt.nextWorker
    && (s'.rt.chan == s.rt.chan || (s'.rt.chan != [] && s'.rt.chan == s.rt.chan + [s'.rt.chan[|s'.rt.chan| - 1]]
                                    && UsageIn(s'.rt.chan[|s'.rt.chan| - 1]) == NoUsage))
    && (forall t :: t in s'.rt.armed ==> t in s.rt.armed && s'.rt.armed[t] == s.rt.armed[t])
  }

  lemma SilentRecorded(s: Orchestration, s': Orchestration, first: (Config, string), t: Time)
    requires LedgerOk(s, first, t) && Silent(s, s')
    ensures LedgerOk(s', first, t)
  {
    hide AttemptsOk, EndsOk, TokensOk, ClockOk, VerdictsOk, ConfigOf, CompletedIds, UsageIn;
    if s'.rt.chan != s.rt.chan { SilentTokens(s.running, s.rt.chan, s.totals, s.journal, s'.rt.chan[|s'.rt.chan| - 1]); }
    assert ConfigOk(s', first);
  }

  lemma StepIsSilent(s: Orchestration, step: Step)
    requires Enabled(s, step) && !step.Deliver? && !step.Emit?
    requires step.Post? ==> !s.rt.firing[step.timer].ev.AgentUpdate?
    ensures Silent(s, Apply(s, step))
  {}

  lemma StepRecorded(s: Orchestration, step: Step, first: (Config, string), t: Time)
    requires LedgerOk(s, first, t) && BooksOk(s, {}) && Enabled(s, step)
    ensures LedgerOk(Apply(s, step), first, t)
  {
    hide BooksOk, LedgerOk, Silent, Handle, EmitStep, ExitStep, FireStep, PostStep, Enqueue;
    if step.Deliver? {
      DeliveryRecorded(s, step.input, first, t);
    } else if step.Emit? {
      EmissionRecorded(s, step.worker, step.msg, first, t);
    } else {
      if step.Post? { PostedKinds(s, step); }
      StepIsSilent(s, step);
      SilentRecorded(s, Apply(s, step), first, t);
    }
  }

  lemma PostedKinds(s: Orchestration, step: Step)
    requires BooksOk(s, {}) && Enabled(s, step) && step.Post?
    ensures !s.rt.firing[step.timer].ev.AgentUpdate?
  {
    assert WellArmed(s.rt.firing[step.timer].ev, step.timer, Alarms(s.retry));
  }

  lemma FreshTokens(chan: seq<Message>)
    requires InFlightTotal(chan) == NoUsage
    ensures TokensOk(map[], chan, NoUsage, Start)
  {
    hide InFlightTotal;
    assert SessionTotal(map[]) == NoUsage;
  }

  lemma FreshRest(t: Time)
    ensures AttemptsOk(map[], map[], Start) && EndsOk(map[], 0, Start)
    ensures VerdictsOk(map[], 0, Start) && ClockOk(map[], 0, 0, Start, t)
  {
    assert LiveNs(map[], t) == 0;
    forall w: nat ensures !HasEnded(Start, w) && VerdictOf(Start, w) == Untouched && Terminations(Start, w) == 0
      && Cleanups(Start, w) == 0 {}
  }

  lemma FreshQueue(queued: seq<Event>)
    requires CanStart(queued)
    ensures InFlightTotal(seq(|queued|, i requires 0 <= i < |queued| => Message(queued[i], External))) == NoUsage
  {
    var chan := seq(|queued|, i requires 0 <= i < |queued| => Message(queued[i], External));
    forall i | 0 <= i < |chan| ensures UsageIn(chan[i]) == NoUsage { assert queued[i] in queued; }
    QuietChannel(chan);
  }

  lemma StartupRecorded(cfg: Config, template: string, queued: seq<Event>, t: Time)
    requires CanStart(queued)
    ensures LedgerOk(Startup(cfg, template, queued), (cfg, template), t)
  {
    hide AttemptsOk, EndsOk, TokensOk, ClockOk, VerdictsOk, InFlightTotal, CanStart;
    var s := Startup(cfg, template, queued);
    FreshQueue(queued);
    FreshTokens(s.rt.chan);
    FreshRest(t);
    assert ConfigOk(s, (cfg, template));
  }

  lemma {:induction false} QuietChannel(chan: seq<Message>)
    requires forall i :: 0 <= i < |chan| ==> UsageIn(chan[i]) == NoUsage
    ensures InFlightTotal(chan) == NoUsage
  {
    if chan != [] {
      hide UsageIn;
      assert UsageIn(chan[0]) == NoUsage;
      QuietChannel(chan[1..]);
    }
  }

  lemma {:induction false} RunRecorded(s: Orchestration, steps: seq<Step>, first: (Config, string), t: Time)
    requires LedgerOk(s, first, t) && BooksOk(s, {}) && Legal(s, steps)
    ensures LedgerOk(Exec(s, steps), first, t)
    decreases |steps|
  {
    hide LedgerOk, BooksOk, Apply, Enabled;
    if steps != [] {
      StepRecorded(s, steps[0], first, t);
      StepKeepsBooks(s, steps[0]);
      RunRecorded(Apply(s, steps[0]), steps[1..], first, t);
    }
  }
}
