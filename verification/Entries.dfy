/** How one delivery treats workers and entries: a live worker goes on living, an entry keeps its worker
    and its session, and only a dispatch brings a new one, with a fresh worker.  The relation
    `Descends` says so, and composes: a handler's parts are followed one after the other, as the dispatch
    phase follows its visits.  Agent updates are the one thing it leaves out. */
module Entries {
  import opened Domain
  import opened State
  import opened Eligibility
  import opened Handlers
  import opened System
  import opened Wakeups
  import opened Books
  import Sorting
  import Backoff

  /** Worker numbers in use are below the next one. */
  predicate Numbered(s: Orchestration) { forall w | w in s.rt.live :: w < s.rt.nextWorker }

  ghost predicate Descends(a: Orchestration, b: Orchestration) {
    && a.rt.nextWorker <= b.rt.nextWorker
    && (forall w :: w in a.rt.live ==> w in b.rt.live && b.rt.live[w] == a.rt.live[w])
    && (forall w: nat :: a.rt.nextWorker <= w < b.rt.nextWorker ==> w in b.rt.live)
    && (forall id :: id in b.running ==>
          || (id in a.running && b.running[id].worker == a.running[id].worker && b.running[id].session == a.running[id].session)
          || (b.running[id].worker >= a.rt.nextWorker && b.running[id].session == NewSession))
    && Numbered(b)
  }

  lemma DescendsTransitive(a: Orchestration, b: Orchestration, c: Orchestration)
    requires Descends(a, b) && Descends(b, c)
    ensures Descends(a, c)
  {}

  /** Workers stay, entries keep worker and session or go. */
  lemma Keeps(a: Orchestration, b: Orchestration)
    requires Numbered(a) && b.rt.live == a.rt.live && b.rt.nextWorker == a.rt.nextWorker
    requires forall id :: id in b.running ==>
      id in a.running && b.running[id].worker == a.running[id].worker && b.running[id].session == a.running[id].session
    ensures Descends(a, b)
  {}

  lemma DispatchDescends(s: Orchestration, issue: Issue, attempt: Option<int>, at: Time)
    requires Numbered(s)
    ensures Descends(s, DispatchIssue(s, issue, attempt, at))
  {}

  lemma VisitDescends(s: Orchestration, issue: Issue, at: Time)
    requires Numbered(s)
    ensures Descends(s, Visit(s, issue, at))
  {
    hide IsEligible, StateFull, DispatchIssue, Descends;
    Keeps(s, s);
    DispatchDescends(s, issue, None, at);
  }

  lemma {:induction false} PhaseDescends(s: Orchestration, issues: seq<Issue>, clock: nat -> Time, n: nat)
    requires Numbered(s) && n <= |issues|
    ensures Descends(s, DispatchUpTo(s, issues, clock, n))
  {
    hide Visit, Orchestration.GlobalAvailable, Descends, Numbered;
    if n == 0 {
      Keeps(s, s);
    } else {
      var before := DispatchUpTo(s, issues, clock, n - 1);
      PhaseDescends(s, issues, clock, n - 1);
      StillNumbered(s, before);
      Keeps(before, before);
      VisitDescends(before, issues[n - 1], clock(n));
      DescendsTransitive(s, before, DispatchUpTo(s, issues, clock, n));
    }
  }

  lemma StillNumbered(a: Orchestration, b: Orchestration)
    requires Descends(a, b)
    ensures Numbered(b)
  {}

  lemma RefreshOneDescends(s: Orchestration, issue: Issue)
    requires Numbered(s)
    ensures Descends(s, RefreshOne(s, issue))
  {
    hide IsTerminalState, IsActiveState, Descends;
    Keeps(s, RefreshOne(s, issue));
  }

  lemma {:induction false} RefreshDescends(s: Orchestration, issues: seq<Issue>)
    requires Numbered(s)
    ensures Descends(s, Refresh(s, issues))
  {
    hide RefreshOne, Descends, Numbered;
    if issues == [] {
      Keeps(s, s);
    } else {
      var most := Refresh(s, issues[..|issues| - 1]);
      RefreshDescends(s, issues[..|issues| - 1]);
      StillNumbered(s, most);
      RefreshOneDescends(most, issues[|issues| - 1]);
      DescendsTransitive(s, most, Refresh(s, issues));
    }
  }

  lemma ReconcileDescends(s: Orchestration, now: Time, states: Option<seq<Issue>>)
    requires Numbered(s)
    ensures Descends(s, Reconcile(s, now, states))
  {
    hide IsStalled, Refresh, Descends, Numbered;
    var stalls := ReconcileStalls(s, now);
    Keeps(s, stalls);
    StillNumbered(s, stalls);
    if states.Some? {
      RefreshDescends(stalls, states.value);
      DescendsTransitive(s, stalls, Refresh(stalls, states.value));
    }
  }

  lemma TickSet(s: Orchestration, delay: int)
    requires Numbered(s)
    ensures Descends(s, ScheduleTick(s, delay))
  {
    hide Descends;
    Keeps(s, ScheduleTick(s, delay));
  }

  lemma TickDescends(s: Orchestration, input: Input)
    requires Numbered(s)
    ensures Descends(s, OnTick(s, input))
  {
    hide Reconcile, DispatchUpTo, ScheduleTick, Descends, Numbered;
    var reconciled, polled := Reconcile(s, input.clock(0), input.states), PollAndDispatch(s, input);
    ReconcileDescends(s, input.clock(0), input.states);
    StillNumbered(s, reconciled);
    if input.candidates.Some? {
      var sorted := Sorting.SortForDispatch(input.candidates.value);
      PhaseDescends(reconciled, sorted, input.clock, |sorted|);
      DescendsTransitive(s, reconciled, DispatchAll(reconciled, sorted, input.clock));
    }
    StillNumbered(s, polled);
    TickSet(polled, Backoff.Millis(polled.pollIntervalMs));
    DescendsTransitive(s, polled, OnTick(s, input));
  }

  lemma RetrySet(s: Orchestration, id: string, attempt: int, identifier: string, url: Option<string>,
                 error: Option<string>, continuation: bool, now: Time)
    requires Numbered(s)
    ensures Descends(s, ScheduleRetry(s, id, attempt, identifier, url, error, continuation, now))
  {
    hide Descends, Backoff.RetryDelay;
    Keeps(s, ScheduleRetry(s, id, attempt, identifier, url, error, continuation, now));
  }

  lemma EndDescends(s: Orchestration, id: string, at: Time)
    requires Numbered(s) && id in s.running
    ensures Descends(s, EndWorker(s, id, at))
  {
    hide Descends;
    Keeps(s, EndWorker(s, id, at));
  }

  lemma ExitDescends(s: Orchestration, id: string, reason: ExitReason, err: Option<string>, input: Input)
    requires Numbered(s)
    ensures Descends(s, OnWorkerExit(s, id, reason, err, input))
  {
    hide EndWorker, ScheduleRetry, ExitMessage, Descends, Numbered;
    if id !in s.running {
      Keeps(s, s);
    } else {
      var e, ended, s' := s.running[id], EndWorker(s, id, input.clock(0)), OnWorkerExit(s, id, reason, err, input);
      var done, failed := ended.(completed := ended.completed + {id}).Log(Completed(id)), ended.Log(Failed(id, AbnormalExit));
      EndDescends(s, id, input.clock(0));
      StillNumbered(s, ended);
      if e.releaseOnExit {
        Keeps(ended, s');
      } else if reason == ExitNormal {
        Keeps(ended, done);
        StillNumbered(ended, done);
        RetrySet(done, id, 1, e.identifier, e.issue.url, None, true, input.clock(1));
        DescendsTransitive(ended, done, s');
      } else {
        Keeps(ended, failed);
        StillNumbered(ended, failed);
        RetrySet(failed, id, e.retryAttempt + 1, e.identifier, e.issue.url, Some(ExitMessage(err)), false, input.clock(1));
        DescendsTransitive(ended, failed, s');
      }
      DescendsTransitive(s, ended, s');
    }
  }

  lemma WakeupDescends(s: Orchestration, id: string, input: Input)
    requires Numbered(s)
    ensures Descends(s, OnRetryTimer(s, id, input))
  {
    hide IsEligible, StateFull, FindById, DispatchIssue, ScheduleRetry, Orchestration.GlobalAvailable, Descends, Numbered;
    if id !in s.retry {
      Keeps(s, s);
    } else {
      var e, taken, s', now := s.retry[id], s.(retry := s.retry - {id}), OnRetryTimer(s, id, input), input.clock(0);
      Keeps(s, taken);
      StillNumbered(s, taken);
      if input.candidates.None? {
        Requeued(taken, id, RetryPollFailed, e.attempt + 1, e.identifier, e.url, "retry poll failed", now);
      } else {
        var found := FindById(input.candidates.value, id);
        if found.None? || !IsEligible(taken.cfg, found.value) {
          Keeps(taken, s');
        } else if taken.GlobalAvailable() == 0 || StateFull(taken, found.value.state) {
          Requeued(taken, id, NoSlots, e.attempt + 1, found.value.identifier, found.value.url, "no available orchestrator slots", now);
        } else {
          DispatchDescends(taken, found.value, Some(e.attempt), now);
        }
      }
      DescendsTransitive(s, taken, s');
    }
  }

  lemma Requeued(s: Orchestration, id: string, kind: FailureKind, attempt: int, identifier: string, url: Option<string>,
                 error: string, now: Time)
    requires Numbered(s)
    ensures Descends(s, ScheduleRetry(s.Log(Failed(id, kind)), id, attempt, identifier, url, Some(error), false, now))
  {
    hide ScheduleRetry, Descends, Numbered;
    var failed := s.Log(Failed(id, kind));
    Keeps(s, failed);
    StillNumbered(s, failed);
    RetrySet(failed, id, attempt, identifier, url, Some(error), false, now);
    DescendsTransitive(s, failed, ScheduleRetry(failed, id, attempt, identifier, url, Some(error), false, now));
  }

  /** Every handler but that of agent updates descends. */
  lemma HandleDescends(s: Orchestration, ev: Event, input: Input)
    requires Numbered(s) && !ev.AgentUpdate?
    ensures Descends(s, Handle(s, ev, input))
  {
    hide OnTick, OnWorkerExit, OnRetryTimer, ScheduleTick, Descends, Numbered;
    match ev
    case TickEvent => TickDescends(s, input);
    case WorkerExit(id, reason, err) => ExitDescends(s, id, reason, err, input);
    case RetryTimerFired(id) => WakeupDescends(s, id, input);
    case ReloadConfig(cfg, template) =>
      if input.trackerOk {
        var reloaded := s.(cfg := cfg, template := template, pollIntervalMs := cfg.pollIntervalMs, maxConcurrent := cfg.maxConcurrent)
          .Log(Reloaded(cfg, template));
        Keeps(s, reloaded);
        StillNumbered(s, reloaded);
        TickSet(reloaded, Backoff.Millis(cfg.pollIntervalMs));
        DescendsTransitive(s, reloaded, OnReload(s, cfg, template, true));
      } else {
        Keeps(s, s);
      }
    case RefreshRequest => TickSet(s, 0);
    case SnapshotRequest => Keeps(s, s);
  }

  lemma BooksNumbered(s: Orchestration)
    requires BooksOk(s, {})
    ensures Numbered(s) && forall id :: id in s.running ==> s.running[id].worker < s.rt.nextWorker
  {
    hide ChannelOk, TimersOk, FlagsOk, ClaimsOk;
    assert forall id :: id in s.running ==> Owners(s.running)[id] == s.running[id].worker;
  }

  lemma UpdateRuntime(s: Orchestration, id: string, m: AgentEvent)
    ensures OnAgentUpdate(s, id, m).rt == s.rt
  {
    hide UpdateSession;
  }

  /** A worker lives until its own exit, and a new one lives. */
  lemma StepLive(s: Orchestration, step: Step)
    requires BooksOk(s, {}) && Enabled(s, step)
    ensures var a, b := s.rt, Apply(s, step).rt;
      && (forall w: nat :: w in a.live ==> (w in b.live && b.live[w] == a.live[w]) || (step.Exit? && step.worker == w))
      && (forall w: nat :: a.nextWorker <= w < b.nextWorker ==> w in b.live)
  {
    hide BooksOk, OnTick, OnAgentUpdate, OnWorkerExit, OnRetryTimer, OnReload, ScheduleTick;
    if step.Deliver? {
      BooksNumbered(s);
      var d, ev := Dequeue(s), s.rt.chan[0].ev;
      if ev.AgentUpdate? { UpdateRuntime(d, ev.id, ev.msg); } else { HandleDescends(d, ev, step.input); }
    }
  }
}
