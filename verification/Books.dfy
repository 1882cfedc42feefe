/** The whole-system invariant behind wake-ups, claims and termination, carried through every handler
    and every step. */
module Books {
  import opened Domain
  import opened State
  import opened Handlers
  import opened System
  import opened Wakeups
  import opened Eligibility
  import Sorting
  import Backoff

  /** The claim set is the disjoint union of running, retrying and - while a handler holds a message
      of its wake-up in hand - held ids. */
  ghost predicate ClaimsOk(s: Orchestration, held: set<string>) {
    && s.claimed == s.running.Keys + s.retry.Keys + held
    && s.running.Keys !! s.retry.Keys && s.running.Keys !! held && s.retry.Keys !! held
  }

  /** Cleanup only with release, release only on termination, termination only with cancellation. */
  ghost predicate FlagsOk(s: Orchestration) {
    forall id :: id in s.running ==>
      var e := s.running[id];
      (e.cleanupOnExit ==> e.releaseOnExit) && (e.releaseOnExit ==> e.terminating) && (e.terminating ==> e.worker in s.rt.cancelled)
  }

  ghost predicate BooksOk(s: Orchestration, held: set<string>) {
    && ClaimsOk(s, held)
    && FlagsOk(s)
    && ChannelOk(s.rt.chan, Owners(s.running), Alarms(s.retry))
    && WorkersOk(Owners(s.running), s.rt.live, s.rt.nextWorker, s.rt.chan)
    && TimersOk(Alarms(s.retry), s.rt.armed, s.rt.firing, s.rt.nextTimer, s.tickTimer, s.rt.chan)
  }

  // ---------- shared steps ----------

  /** The books do not look at anything else. */
  lemma BooksSame(s: Orchestration, s': Orchestration, held: set<string>)
    requires BooksOk(s, held)
    requires s'.running == s.running && s'.claimed == s.claimed && s'.retry == s.retry
    requires s'.tickTimer == s.tickTimer && s'.rt == s.rt
    ensures BooksOk(s', held)
  {
    hide WorkersOk, ChannelOk, TimersOk;
  }

  lemma TickScheduled(s: Orchestration, delay: int, held: set<string>)
    requires BooksOk(s, held)
    ensures BooksOk(ScheduleTick(s, delay), held)
  {
    hide WorkersOk, ChannelOk, TimersOk;
    TickArmed(Alarms(s.retry), s.rt.armed, s.rt.firing, s.rt.nextTimer, s.tickTimer, s.rt.chan, delay);
  }

  /** An id that is neither running nor retrying can be dispatched; removeRetryTimer finds nothing. */
  lemma Dispatched(s: Orchestration, issue: Issue, attempt: Option<int>, at: Time, held: set<string>)
    requires BooksOk(s, held) && issue.id !in s.running && issue.id !in s.retry
    ensures BooksOk(DispatchIssue(s, issue, attempt, at), held - {issue.id})
  {
    hide WorkersOk, ChannelOk, TimersOk;
    var s' := DispatchIssue(s, issue, attempt, at);
    WorkerSpawned(Owners(s.running), s.rt.live, s.rt.nextWorker, s.rt.chan, Alarms(s.retry), issue.id);
    assert Owners(s'.running) == Owners(s.running)[issue.id := s.rt.nextWorker];
  }

  lemma RetryScheduled(s: Orchestration, id: string, attempt: int, identifier: string, url: Option<string>,
                       error: Option<string>, continuation: bool, now: Time, held: set<string>)
    requires BooksOk(s, held) && id !in s.running && id !in s.retry
    ensures BooksOk(ScheduleRetry(s, id, attempt, identifier, url, error, continuation, now), held - {id})
    ensures id in ScheduleRetry(s, id, attempt, identifier, url, error, continuation, now).retry
  {
    hide WorkersOk, ChannelOk, TimersOk;
    var s' := ScheduleRetry(s, id, attempt, identifier, url, error, continuation, now);
    RetryArmed(Alarms(s.retry), s.rt.armed, s.rt.firing, s.rt.nextTimer, s.tickTimer, s.rt.chan, Owners(s.running), id,
               s'.rt.armed[s.rt.nextTimer].delay);
    assert Alarms(s'.retry) == Alarms(s.retry)[id := s.rt.nextTimer];
  }

  /** Changing sessions, flags or issue details inside running entries moves no wake-up. */
  lemma EntriesChanged(s: Orchestration, s': Orchestration, held: set<string>)
    requires BooksOk(s, held) && FlagsOk(s') && Owners(s'.running) == Owners(s.running)
    requires s'.retry == s.retry && s'.claimed == s.claimed && s'.tickTimer == s.tickTimer
    requires s'.rt == s.rt.(cancelled := s'.rt.cancelled)
    ensures BooksOk(s', held)
  {
    assert Owners(s'.running).Keys == s'.running.Keys && Owners(s.running).Keys == s.running.Keys;
  }

  // ---------- reconciliation ----------

  lemma StallsReconciled(s: Orchestration, now: Time, held: set<string>)
    requires BooksOk(s, held)
    ensures BooksOk(ReconcileStalls(s, now), held)
    ensures ReconcileStalls(s, now).running.Keys == s.running.Keys
    ensures ReconcileStalls(s, now).retry == s.retry && ReconcileStalls(s, now).claimed == s.claimed
  {
    hide ChannelOk, WorkersOk, TimersOk, IsStalled;
    assert Owners(ReconcileStalls(s, now).running) == Owners(s.running);
    StallFlags(s, now);
    EntriesChanged(s, ReconcileStalls(s, now), held);
  }

  lemma StallFlags(s: Orchestration, now: Time)
    requires FlagsOk(s)
    ensures FlagsOk(ReconcileStalls(s, now))
  {
    hide IsStalled;
  }

  lemma RefreshedOne(s: Orchestration, issue: Issue, held: set<string>)
    requires BooksOk(s, held)
    ensures BooksOk(RefreshOne(s, issue), held)
    ensures RefreshOne(s, issue).running.Keys == s.running.Keys
    ensures RefreshOne(s, issue).retry == s.retry && RefreshOne(s, issue).claimed == s.claimed
  {
    hide ChannelOk, WorkersOk, TimersOk, FlagsOk, Owners, RefreshOne;
    RefreshedEntry(s, issue);
    RefreshedFlags(s, issue);
    EntriesChanged(s, RefreshOne(s, issue), held);
  }

  /** Refreshing rewrites one entry at most, and may cancel its worker. */
  lemma RefreshedEntry(s: Orchestration, issue: Issue)
    ensures var s' := RefreshOne(s, issue);
      && s' == s.(running := s'.running, rt := s.rt.(cancelled := s'.rt.cancelled), journal := s'.journal)
      && s'.running.Keys == s.running.Keys && Owners(s'.running) == Owners(s.running)
  {
    hide IsTerminalState, IsActiveState;
    var s' := RefreshOne(s, issue);
    assert forall id :: id in s.running ==> s'.running[id].worker == s.running[id].worker;
  }

  lemma RefreshedFlags(s: Orchestration, issue: Issue)
    requires FlagsOk(s)
    ensures FlagsOk(RefreshOne(s, issue))
  {
    hide IsTerminalState, IsActiveState;
  }

  lemma {:induction false} Refreshed(s: Orchestration, issues: seq<Issue>, held: set<string>)
    requires BooksOk(s, held)
    ensures BooksOk(Refresh(s, issues), held)
    ensures Refresh(s, issues).running.Keys == s.running.Keys
    ensures Refresh(s, issues).retry == s.retry && Refresh(s, issues).claimed == s.claimed
  {
    hide BooksOk, RefreshOne;
    if issues != [] {
      var most := issues[..|issues| - 1];
      Refreshed(s, most, held);
      RefreshedOne(Refresh(s, most), issues[|issues| - 1], held);
    }
  }

  /** reconcile never adds to or takes from running, retrying or claimed. */
  lemma Reconciled(s: Orchestration, now: Time, states: Option<seq<Issue>>, held: set<string>)
    requires BooksOk(s, held)
    ensures BooksOk(Reconcile(s, now, states), held)
    ensures Reconcile(s, now, states).running.Keys == s.running.Keys
    ensures Reconcile(s, now, states).retry == s.retry && Reconcile(s, now, states).claimed == s.claimed
  {
    StallsReconciled(s, now, held);
    if states.Some? { Refreshed(ReconcileStalls(s, now), states.value, held); }
  }

  // ---------- tick ----------

  lemma {:induction false} DispatchedUpTo(s: Orchestration, issues: seq<Issue>, clock: nat -> Time, n: nat)
    requires BooksOk(s, {}) && n <= |issues|
    ensures BooksOk(DispatchUpTo(s, issues, clock, n), {})
  {
    hide BooksOk, Visit, Orchestration.GlobalAvailable;
    if n > 0 {
      DispatchedUpTo(s, issues, clock, n - 1);
      Visited(DispatchUpTo(s, issues, clock, n - 1), issues[n - 1], clock(n));
    }
  }

  lemma Visited(s: Orchestration, issue: Issue, at: Time)
    requires BooksOk(s, {})
    ensures BooksOk(Visit(s, issue, at), {})
  {
    hide ChannelOk, WorkersOk, TimersOk, FlagsOk, IsEligible, StateFull, DispatchIssue;
    if issue.id !in s.running && issue.id !in s.claimed {
      Dispatched(s, issue, None, at, {});
      assert {} - {issue.id} == {};
    }
  }

  lemma Polled(s: Orchestration, input: Input)
    requires BooksOk(s, {})
    ensures BooksOk(PollAndDispatch(s, input), {})
  {
    Reconciled(s, input.clock(0), input.states, {});
    if input.candidates.Some? {
      var issues := Sorting.SortForDispatch(input.candidates.value);
      DispatchedUpTo(Reconcile(s, input.clock(0), input.states), issues, input.clock, |issues|);
    }
  }

  lemma Ticked(s: Orchestration, input: Input)
    requires BooksOk(s, {})
    ensures BooksOk(OnTick(s, input), {})
  {
    Polled(s, input);
    TickScheduled(PollAndDispatch(s, input), Backoff.Millis(PollAndDispatch(s, input).pollIntervalMs), {});
  }

  // ---------- the messages ----------

  lemma Updated(s: Orchestration, id: string, m: AgentEvent)
    requires BooksOk(s, {})
    ensures BooksOk(OnAgentUpdate(s, id, m), {})
  {
    var s' := OnAgentUpdate(s, id, m);
    assert Owners(s'.running) == Owners(s.running);
    EntriesChanged(s, s', {});
  }

  /** Taking a worker's exit off the channel and ending its entry leaves the id in hand. */
  lemma ExitHandled(s: Orchestration, input: Input)
    requires BooksOk(s, {}) && s.rt.chan != [] && s.rt.chan[0].ev.WorkerExit?
    ensures var id := s.rt.chan[0].ev.id;
            id in s.running && BooksOk(EndWorker(Dequeue(s), id, input.clock(0)), {id})
  {
    hide WorkersOk, ChannelOk, TimersOk;
    var id := s.rt.chan[0].ev.id;
    ExitTaken(Owners(s.running), s.rt.live, s.rt.nextWorker, s.rt.chan, Alarms(s.retry));
    OtherTaken(Alarms(s.retry), s.rt.armed, s.rt.firing, s.rt.nextTimer, s.tickTimer, s.rt.chan);
    var s' := EndWorker(Dequeue(s), id, input.clock(0));
    assert Owners(s'.running) == Owners(s.running) - {id};
  }

  lemma Exited(s: Orchestration, input: Input)
    requires BooksOk(s, {}) && s.rt.chan != [] && s.rt.chan[0].ev.WorkerExit?
    ensures BooksOk(Handle(Dequeue(s), s.rt.chan[0].ev, input), {})
  {
    hide BooksOk, EndWorker, ScheduleRetry, Dequeue, ExitMessage;
    ExitHandled(s, input);
    var WorkerExit(id, reason, err) := s.rt.chan[0].ev;
    var entry := s.running[id];
    DequeueFields(s);
    var ended := EndWorker(Dequeue(s), id, input.clock(0));
    HeldApart(ended, id);
    assert {id} - {id} == {};
    if entry.releaseOnExit {
      ClaimReleased(ended, id);
    } else if reason == ExitNormal {
      var done := ended.(completed := ended.completed + {id}).Log(Completed(id));
      BooksSame(ended, done, {id});
      RetryScheduled(done, id, 1, entry.identifier, entry.issue.url, None, true, input.clock(1), {id});
    } else {
      var failed := ended.Log(Failed(id, AbnormalExit));
      BooksSame(ended, failed, {id});
      RetryScheduled(failed, id, entry.retryAttempt + 1, entry.identifier, entry.issue.url,
                     Some(ExitMessage(err)), false, input.clock(1), {id});
    }
  }

  /** With nothing in hand the claims are the running and the retrying ids, and no id is both. */
  lemma ClaimsDisjoint(s: Orchestration)
    requires BooksOk(s, {})
    ensures forall id :: id in s.claimed <==> id in s.running || id in s.retry
    ensures forall id :: id in s.retry ==> id !in s.running
  {
    hide WorkersOk, ChannelOk, TimersOk, FlagsOk;
  }

  lemma DequeueFields(s: Orchestration)
    requires s.rt.chan != []
    ensures Dequeue(s) == s.(rt := Dequeue(s).rt)
  {}

  lemma HeldApart(s: Orchestration, id: string)
    requires BooksOk(s, {id})
    ensures id !in s.running && id !in s.retry
  {
    hide WorkersOk, ChannelOk, TimersOk, FlagsOk;
    assert id in {id};
  }

  /** The id in hand can be let go. */
  lemma ClaimReleased(s: Orchestration, id: string)
    requires BooksOk(s, {id})
    ensures BooksOk(s.(claimed := s.claimed - {id}).Log(Released(id)), {})
  {
    hide WorkersOk, ChannelOk, TimersOk;
  }

  lemma WakeupHandled(s: Orchestration)
    requires BooksOk(s, {}) && s.rt.chan != [] && s.rt.chan[0].ev.RetryTimerFired?
    ensures var id := s.rt.chan[0].ev.id;
            id in s.retry && BooksOk(Dequeue(s).(retry := s.retry - {id}), {id})
  {
    var id := s.rt.chan[0].ev.id;
    MessageTaken(Owners(s.running), s.rt.live, s.rt.nextWorker, s.rt.chan, Alarms(s.retry));
    WakeupTaken(Alarms(s.retry), s.rt.armed, s.rt.firing, s.rt.nextTimer, s.tickTimer, s.rt.chan, Owners(s.running));
    assert Alarms(s.retry - {id}) == Alarms(s.retry) - {id};
  }

  lemma Found(issues: seq<Issue>, id: string)
    ensures FindById(issues, id).Some? ==> FindById(issues, id).value.id == id
  {}

  /** A retry looks at the first candidate with its id, and at none exactly if there is none. */
  lemma {:induction false} FoundFirst(issues: seq<Issue>, id: string, i: nat)
    requires i < |issues| && issues[i].id == id && forall j :: 0 <= j < i ==> issues[j].id != id
    ensures FindById(issues, id) == Some(issues[i])
  {
    if i > 0 { FoundFirst(issues[1..], id, i - 1); }
  }

  lemma {:induction false} FoundNone(issues: seq<Issue>, id: string)
    requires forall j :: 0 <= j < |issues| ==> issues[j].id != id
    ensures FindById(issues, id) == None
  {
    if issues != [] { FoundNone(issues[1..], id); }
  }

  lemma Retried(s: Orchestration, input: Input)
    requires BooksOk(s, {}) && s.rt.chan != [] && s.rt.chan[0].ev.RetryTimerFired?
    ensures BooksOk(Handle(Dequeue(s), s.rt.chan[0].ev, input), {})
  {
    hide BooksOk, ScheduleRetry, DispatchIssue, Dequeue, IsEligible, StateFull, FindById, Orchestration.GlobalAvailable;
    WakeupHandled(s);
    var id := s.rt.chan[0].ev.id;
    var entry := s.retry[id];
    DequeueFields(s);
    var taken := Dequeue(s).(retry := s.retry - {id});
    HeldApart(taken, id);
    assert {id} - {id} == {};
    if input.candidates.None? {
      BooksSame(taken, taken.Log(Failed(id, RetryPollFailed)), {id});
      RetryScheduled(taken.Log(Failed(id, RetryPollFailed)), id, entry.attempt + 1, entry.identifier, entry.url,
                     Some("retry poll failed"), false, input.clock(0), {id});
    } else {
      var found := FindById(input.candidates.value, id);
      Found(input.candidates.value, id);
      ClaimReleased(taken, id);
      if found.Some? {
        BooksSame(taken, taken.Log(Failed(id, NoSlots)), {id});
        RetryScheduled(taken.Log(Failed(id, NoSlots)), id, entry.attempt + 1, found.value.identifier, found.value.url,
                       Some("no available orchestrator slots"), false, input.clock(0), {id});
        Dispatched(taken, found.value, Some(entry.attempt), input.clock(0), {id});
      }
    }
  }

  lemma Dequeued(s: Orchestration)
    requires BooksOk(s, {}) && s.rt.chan != [] && !s.rt.chan[0].ev.WorkerExit? && !s.rt.chan[0].ev.RetryTimerFired?
    ensures BooksOk(Dequeue(s), {})
  {
    MessageTaken(Owners(s.running), s.rt.live, s.rt.nextWorker, s.rt.chan, Alarms(s.retry));
    OtherTaken(Alarms(s.retry), s.rt.armed, s.rt.firing, s.rt.nextTimer, s.tickTimer, s.rt.chan);
  }

  lemma Delivered(s: Orchestration, input: Input)
    requires BooksOk(s, {}) && s.rt.chan != []
    ensures BooksOk(Apply(s, Deliver(input)), {})
  {
    hide BooksOk, OnTick, OnAgentUpdate, OnWorkerExit, OnRetryTimer, ScheduleTick, Dequeue;
    match s.rt.chan[0].ev
    case WorkerExit(_, _, _) => Exited(s, input);
    case RetryTimerFired(_) => Retried(s, input);
    case TickEvent => Dequeued(s); Ticked(Dequeue(s), input);
    case AgentUpdate(id, msg) => Dequeued(s); Updated(Dequeue(s), id, msg);
    case RefreshRequest => Dequeued(s); TickScheduled(Dequeue(s), 0, {});
    case SnapshotRequest => Dequeued(s);
    case ReloadConfig(cfg, template) =>
      Dequeued(s);
      var d := Dequeue(s);
      var reloaded := d.(cfg := cfg, template := template, pollIntervalMs := cfg.pollIntervalMs,
                         maxConcurrent := cfg.maxConcurrent)
        .Log(Reloaded(cfg, template));
      BooksSame(d, reloaded, {});
      TickScheduled(reloaded, Backoff.Millis(cfg.pollIntervalMs), {});
  }

  // ---------- steps and runs ----------

  lemma Sent(s: Orchestration, ev: Event)
    requires BooksOk(s, {}) && IsExternal(ev)
    ensures BooksOk(s.(rt := Enqueue(s.rt, ev, External)), {})
  {
    var m := Message(ev, External);
    OtherSent(Owners(s.running), s.rt.live, s.rt.nextWorker, s.rt.chan, m);
    OtherPosted(Alarms(s.retry), s.rt.armed, s.rt.firing, s.rt.nextTimer, s.tickTimer, s.rt.chan, m);
    assert WellSent(m, Owners(s.running), Alarms(s.retry));
  }

  lemma Emission(s: Orchestration, w: nat, msg: AgentEvent)
    requires BooksOk(s, {}) && w in s.rt.live
    ensures BooksOk(EmitStep(s, w, msg), {})
  {
    WorkerEmitted(Owners(s.running), s.rt.live, s.rt.nextWorker, s.rt.chan, Alarms(s.retry), w, msg);
    OtherPosted(Alarms(s.retry), s.rt.armed, s.rt.firing, s.rt.nextTimer, s.tickTimer, s.rt.chan,
                Message(AgentUpdate(s.rt.live[w], msg), FromWorker(w)));
  }

  lemma Exiting(s: Orchestration, w: nat, err: Option<string>)
    requires BooksOk(s, {}) && w in s.rt.live
    ensures BooksOk(ExitStep(s, w, err), {})
  {
    var reason := if err.Some? then ExitAbnormal else ExitNormal;
    WorkerExited(Owners(s.running), s.rt.live, s.rt.nextWorker, s.rt.chan, Alarms(s.retry), w, reason, err);
    OtherPosted(Alarms(s.retry), s.rt.armed, s.rt.firing, s.rt.nextTimer, s.tickTimer, s.rt.chan,
                Message(WorkerExit(s.rt.live[w], reason, err), FromWorker(w)));
  }

  lemma Firing(s: Orchestration, t: nat)
    requires BooksOk(s, {}) && t in s.rt.armed
    ensures BooksOk(FireStep(s, t), {})
  {
    TimerFired(Alarms(s.retry), s.rt.armed, s.rt.firing, s.rt.nextTimer, s.tickTimer, s.rt.chan, t);
  }

  lemma Posting(s: Orchestration, t: nat)
    requires BooksOk(s, {}) && t in s.rt.firing
    ensures BooksOk(PostStep(s, t), {})
  {
    TimerPosted(Alarms(s.retry), s.rt.armed, s.rt.firing, s.rt.nextTimer, s.tickTimer, s.rt.chan, Owners(s.running), t);
    OtherSent(Owners(s.running), s.rt.live, s.rt.nextWorker, s.rt.chan, Message(s.rt.firing[t].ev, FromTimer(t)));
  }

  lemma StepKeepsBooks(s: Orchestration, step: Step)
    requires BooksOk(s, {}) && Enabled(s, step)
    ensures BooksOk(Apply(s, step), {})
  {
    match step
    case Deliver(input) => Delivered(s, input);
    case Emit(w, msg) => Emission(s, w, msg);
    case Exit(w, err) => Exiting(s, w, err);
    case Fire(t) => Firing(s, t);
    case Post(t) => Posting(s, t);
    case Send(ev) => Sent(s, ev);
  }

  lemma StartupBooks(cfg: Config, template: string, queued: seq<Event>)
    requires CanStart(queued)
    ensures BooksOk(Startup(cfg, template, queued), {})
  {
    var waiting := seq(|queued|, i requires 0 <= i < |queued| => Message(queued[i], External));
    assert forall i :: 0 <= i < |waiting| ==> waiting[i].ev in queued && waiting[i].src == External;
    assert Owners(map[]) == map[] && Alarms(map[]) == map[];
  }

  lemma {:induction false} RunKeepsBooks(s: Orchestration, steps: seq<Step>)
    requires BooksOk(s, {}) && Legal(s, steps)
    ensures BooksOk(Exec(s, steps), {})
    decreases |steps|
  {
    if steps != [] {
      StepKeepsBooks(s, steps[0]);
      RunKeepsBooks(Apply(s, steps[0]), steps[1..]);
    }
  }
}
