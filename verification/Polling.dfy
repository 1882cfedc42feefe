/** Limits and cadence over whole steps: growth of the running set is capped, and the poll loop neither
    dies nor multiplies.  The pending ticks are the tick timers that are armed or have fired and the ticks
    in the channel.  Every handler but those of ticks, refreshes and reloads leaves the tick timers alone,
    and no handler stops a retry's wake-up; a tick, a refresh or a reload leaves exactly one tick armed.  So
    there is a pending tick in every reachable state, and no step but a refresh or a reload adds one. */
module Polling {
  import opened Domain
  import opened State
  import opened Eligibility
  import opened Handlers
  import opened System
  import opened Wakeups
  import opened Books
  import opened Dispatching
  import opened Liveness
  import Sorting
  import Backoff

  // ---------- growth ----------

  /** A tick keeps every state within its limit, measured against the counts reconciliation leaves. */
  lemma TickWithinLimits(s: Orchestration, input: Input, state: string)
    ensures WithinLimits(Reconcile(s, input.clock(0), input.states), PollAndDispatch(s, input), state)
  {
    var reconciled := Reconcile(s, input.clock(0), input.states);
    if reconciled.cfg.dispatchValid && input.candidates.Some? {
      var sorted := Sorting.SortForDispatch(input.candidates.value);
      PhaseRespectsLimits(reconciled, sorted, input.clock, |sorted|, state);
    }
  }

  /** The conditions under which a retry wake-up ends in a dispatch. */
  predicate RetryDispatches(s: Orchestration, id: string, input: Input) {
    && id in s.retry && input.candidates.Some?
    && var found := FindById(input.candidates.value, id);
       found.Some? && IsEligible(s.cfg, found.value) && s.GlobalAvailable() > 0 && !StateFull(s, found.value.state)
  }

  lemma RetryChangesRunning(s: Orchestration, id: string, input: Input)
    ensures var s' := OnRetryTimer(s, id, input);
      s'.running == if RetryDispatches(s, id, input)
        then s.running[id := NewEntry(FindById(input.candidates.value, id).value, s.rt.nextWorker, input.clock(0),
                                      Some(s.retry[id].attempt))]
        else s.running
  {
    hide IsEligible, StateFull, FindById, ScheduleRetry, DispatchIssue, NewEntry, Orchestration.GlobalAvailable;
    if id in s.retry {
      var e, taken := s.retry[id], s.(retry := s.retry - {id});
      SameLimits(s, taken);
      if input.candidates.None? {
        RetryKeepsRunning(taken.Log(Failed(id, RetryPollFailed)), id, e.attempt + 1, e.identifier, e.url, Some("retry poll failed"),
                          false, input.clock(0));
      } else {
        var found := FindById(input.candidates.value, id);
        Found(input.candidates.value, id);
        if found.None? || !IsEligible(taken.cfg, found.value) {
        } else if taken.GlobalAvailable() == 0 || StateFull(taken, found.value.state) {
          RetryKeepsRunning(taken.Log(Failed(id, NoSlots)), id, e.attempt + 1, found.value.identifier, found.value.url,
                            Some("no available orchestrator slots"), false, input.clock(0));
        } else {
          DispatchAdds(taken, found.value, Some(e.attempt), input.clock(0));
        }
      }
    }
  }

  lemma SameLimits(s: Orchestration, taken: Orchestration)
    requires taken == s.(retry := taken.retry)
    ensures taken.GlobalAvailable() == s.GlobalAvailable() >= 0
    ensures forall state :: StateFull(taken, state) == StateFull(s, state)
  {
    hide CountByState;
  }

  lemma RetryKeepsRunning(s: Orchestration, id: string, attempt: int, identifier: string, url: Option<string>,
                          error: Option<string>, continuation: bool, now: Time)
    ensures ScheduleRetry(s, id, attempt, identifier, url, error, continuation, now).running == s.running
  {
    hide Backoff.RetryDelay;
  }

  /** So does a retry: it dispatches only into a free slot of a state that is not full. */
  lemma RetryWithinLimits(s: Orchestration, id: string, input: Input, state: string)
    requires id !in s.running
    ensures WithinLimits(s, OnRetryTimer(s, id, input), state)
  {
    RetryChangesRunning(s, id, input);
    hide OnRetryTimer, IsEligible, FindById;
    if RetryDispatches(s, id, input) {
      var issue := FindById(input.candidates.value, id).value;
      InsertedCount(s.running, id, NewEntry(issue, s.rt.nextWorker, input.clock(0), Some(s.retry[id].attempt)), state);
      if NormalizeState(issue.state) == NormalizeState(state) {
        assert IdsInState(s.running, issue.state) == IdsInState(s.running, state);
      }
    }
  }

  lemma TickGrowth(s: Orchestration, input: Input)
    requires BooksOk(s, {})
    ensures |OnTick(s, input).running| <= Max(|s.running|, s.maxConcurrent)
  {
    hide BooksOk, Reconcile, PollAndDispatch, CountByState;
    var reconciled := Reconcile(s, input.clock(0), input.states);
    Reconciled(s, input.clock(0), input.states, {});
    ReconcileKeepsConfig(s, input.clock(0), input.states);
    KeysCard(s.running);
    KeysCard(reconciled.running);
    TickWithinLimits(s, input, "");
  }

  lemma UpdateGrowth(s: Orchestration, id: string, m: AgentEvent)
    ensures |OnAgentUpdate(s, id, m).running| == |s.running|
  {
    KeysCard(s.running);
    KeysCard(OnAgentUpdate(s, id, m).running);
    assert OnAgentUpdate(s, id, m).running.Keys == s.running.Keys;
  }

  /** A step that makes the running set grow leaves it within the global limit in force. */
  lemma GrowthCapped(s: Orchestration, step: Step)
    requires BooksOk(s, {}) && Enabled(s, step)
    ensures |Apply(s, step).running| > |s.running| ==> |Apply(s, step).running| <= s.maxConcurrent
  {
    hide BooksOk, OnTick, OnAgentUpdate, OnWorkerExit, OnRetryTimer;
    if step.Deliver? {
      var d, ev, input := Dequeue(s), s.rt.chan[0].ev, step.input;
      NoStaleMessage(s);
      ClaimsDisjoint(s);
      match ev
      case TickEvent =>
        Dequeued(s);
        TickGrowth(d, input);
      case RetryTimerFired(id) => RetryWithinLimits(d, id, input, "");
      case AgentUpdate(id, msg) => UpdateGrowth(d, id, msg);
      case WorkerExit(id, reason, err) => ExitShrinks(d, id, reason, err, input);
      case _ =>
    }
  }

  lemma ExitShrinks(s: Orchestration, id: string, reason: ExitReason, err: Option<string>, input: Input)
    ensures |OnWorkerExit(s, id, reason, err, input).running| <= |s.running|
  {
    hide EndWorker, ScheduleRetry, ExitMessage;
    if id in s.running {
      var e, ended := s.running[id], EndWorker(s, id, input.clock(0));
      EntryGone(s, id, input.clock(0));
      RetryKeepsRunning(ended.(completed := ended.completed + {id}).Log(Completed(id)),
                        id, 1, e.identifier, e.issue.url, None, true, input.clock(1));
      RetryKeepsRunning(ended.Log(Failed(id, AbnormalExit)), id, e.retryAttempt + 1, e.identifier, e.issue.url,
                        Some(ExitMessage(err)), false, input.clock(1));
    }
  }

  lemma EntryGone(s: Orchestration, id: string, at: Time)
    requires id in s.running
    ensures |EndWorker(s, id, at).running| <= |s.running|
  {
    var s' := EndWorker(s, id, at);
    KeysCard(s.running);
    KeysCard(s'.running);
    assert s'.running.Keys == s.running.Keys - {id};
    SubsetCard(s'.running.Keys, s.running.Keys);
  }

  // ---------- pending ticks ----------

  /** Tick wake-ups on their way: armed, fired but not posted, posted but not delivered. */
  ghost function PendingTicks(rt: Runtime): nat {
    |TimersFor(rt.armed, TickEvent)| + |TimersFor(rt.firing, TickEvent)| + Copies(rt.chan, TickEvent)
  }

  lemma AtMostOneArmedTick(s: Orchestration)
    requires BooksOk(s, {})
    ensures |TimersFor(s.rt.armed, TickEvent)| <= 1
  {
    if s.tickTimer.Some? {
      SubsetCard(TimersFor(s.rt.armed, TickEvent), {s.tickTimer.value});
    } else {
      assert TimersFor(s.rt.armed, TickEvent) == {};
    }
  }

  /** scheduleTick replaces the armed tick by a new one. */
  lemma TickScheduledOnce(s: Orchestration, delay: int, held: set<string>)
    requires BooksOk(s, held)
    ensures var s' := ScheduleTick(s, delay);
      |TimersFor(s'.rt.armed, TickEvent)| == 1 && s'.rt.firing == s.rt.firing && s'.rt.chan == s.rt.chan
  {
    hide WorkersOk, ChannelOk, FlagsOk, ClaimsOk;
    assert TimersFor(ScheduleTick(s, delay).rt.armed, TickEvent) == {s.rt.nextTimer};
  }

  /** What a handler may do to the timers without touching a tick: arm a retry wake-up. */
  ghost predicate OnlyWakeupsArmed(a: Runtime, b: Runtime) {
    && b.firing == a.firing && b.chan == a.chan
    && (forall t :: t in a.armed ==> t in b.armed && b.armed[t] == a.armed[t])
    && (forall t :: t in b.armed && t !in a.armed ==> b.armed[t].ev.RetryTimerFired?)
  }

  lemma WakeupsArmedTicks(a: Runtime, b: Runtime)
    requires OnlyWakeupsArmed(a, b)
    ensures PendingTicks(b) == PendingTicks(a)
  {
    assert TimersFor(b.armed, TickEvent) == TimersFor(a.armed, TickEvent);
  }

  /** Timers, channel, retry entries and configuration are as they were. */
  ghost predicate Untimed(a: Orchestration, b: Orchestration) {
    && b.rt.armed == a.rt.armed && b.rt.firing == a.rt.firing && b.rt.chan == a.rt.chan && b.rt.nextTimer == a.rt.nextTimer
    && b.retry == a.retry && b.tickTimer == a.tickTimer && SameConfig(a, b)
  }

  ghost predicate SameConfig(a: Orchestration, b: Orchestration) {
    b.cfg == a.cfg && b.template == a.template && b.pollIntervalMs == a.pollIntervalMs && b.maxConcurrent == a.maxConcurrent
  }

  lemma VisitUntimed(s: Orchestration, issue: Issue, at: Time)
    requires ClaimsOk(s, {})
    ensures Untimed(s, Visit(s, issue, at))
  {
    hide IsEligible, StateFull;
    assert issue.id !in s.claimed ==> issue.id !in s.retry;
  }

  lemma {:induction false} PhaseUntimed(s: Orchestration, issues: seq<Issue>, clock: nat -> Time, n: nat)
    requires BooksOk(s, {}) && n <= |issues|
    ensures Untimed(s, DispatchUpTo(s, issues, clock, n))
  {
    hide ClaimsOk, ChannelOk, WorkersOk, TimersOk, FlagsOk, Visit, Orchestration.GlobalAvailable;
    if n > 0 {
      PhaseUntimed(s, issues, clock, n - 1);
      DispatchedUpTo(s, issues, clock, n - 1);
      var before := DispatchUpTo(s, issues, clock, n - 1);
      VisitUntimed(before, issues[n - 1], clock(n));
      assert Untimed(before, DispatchUpTo(s, issues, clock, n));
    }
  }

  lemma RefreshOneUntimed(s: Orchestration, issue: Issue)
    ensures Untimed(s, RefreshOne(s, issue))
  {
    hide IsTerminalState, IsActiveState;
  }

  lemma {:induction false} RefreshUntimed(s: Orchestration, issues: seq<Issue>)
    ensures Untimed(s, Refresh(s, issues))
  {
    if issues != [] {
      var most := Refresh(s, issues[..|issues| - 1]);
      RefreshUntimed(s, issues[..|issues| - 1]);
      RefreshOneUntimed(most, issues[|issues| - 1]);
      hide RefreshOne;
      assert Untimed(most, Refresh(s, issues));
    }
  }

  lemma ReconcileUntimed(s: Orchestration, now: Time, states: Option<seq<Issue>>)
    ensures Untimed(s, Reconcile(s, now, states))
  {
    var stalls := ReconcileStalls(s, now);
    assert Untimed(s, stalls);
    if states.Some? { RefreshUntimed(stalls, states.value); }
    hide ReconcileStalls, Refresh;
  }

  /** Reconciling and dispatching arm, stop and post nothing, and keep every retry entry. */
  lemma PollUntimed(s: Orchestration, input: Input)
    requires BooksOk(s, {})
    ensures Untimed(s, PollAndDispatch(s, input))
  {
    var reconciled := Reconcile(s, input.clock(0), input.states);
    Reconciled(s, input.clock(0), input.states, {});
    ReconcileUntimed(s, input.clock(0), input.states);
    hide BooksOk, Reconcile;
    if input.candidates.Some? {
      var sorted := Sorting.SortForDispatch(input.candidates.value);
      PhaseUntimed(reconciled, sorted, input.clock, |sorted|);
      assert Untimed(reconciled, DispatchAll(reconciled, sorted, input.clock));
    }
  }

  lemma ScheduleRetryArms(s: Orchestration, id: string, attempt: int, identifier: string, url: Option<string>,
                          error: Option<string>, continuation: bool, now: Time)
    requires id !in s.retry && s.rt.nextTimer !in s.rt.armed
    ensures WakeupsOnly(s, ScheduleRetry(s, id, attempt, identifier, url, error, continuation, now), id)
  {
    hide Backoff.RetryDelay;
  }

  /** The handler stopped no timer, armed at most wake-ups, and left the other issues' retries alone. */
  ghost predicate WakeupsOnly(a: Orchestration, b: Orchestration, id: string) {
    && OnlyWakeupsArmed(a.rt, b.rt) && b.tickTimer == a.tickTimer && SameConfig(a, b)
    && (forall k :: k in a.retry && k != id ==> k in b.retry && b.retry[k] == a.retry[k])
  }

  /** The same seen from a state with the same timers and the same retries for the other issues. */
  lemma WakeupsFrom(s: Orchestration, taken: Orchestration, s': Orchestration, id: string)
    requires WakeupsOnly(taken, s', id)
    requires taken.rt == s.rt && taken.tickTimer == s.tickTimer && SameConfig(s, taken) && taken.retry - {id} == s.retry - {id}
    ensures WakeupsOnly(s, s', id)
  {
    hide OnlyWakeupsArmed;
    forall k | k in s.retry && k != id
      ensures k in s'.retry && s'.retry[k] == s.retry[k]
    {
      assert k in taken.retry - {id} && (taken.retry - {id})[k] == (s.retry - {id})[k];
    }
  }

  lemma NoWakeups(s: Orchestration, s': Orchestration, id: string)
    requires s'.rt == s.rt && s'.tickTimer == s.tickTimer && SameConfig(s, s') && s'.retry - {id} == s.retry - {id}
    ensures WakeupsOnly(s, s', id)
  {
    forall k | k in s.retry && k != id
      ensures k in s'.retry && s'.retry[k] == s.retry[k]
    {
      assert k in s'.retry - {id} && (s'.retry - {id})[k] == (s.retry - {id})[k];
    }
  }

  lemma EndUntimed(s: Orchestration, id: string, at: Time)
    requires id in s.running
    ensures var s' := EndWorker(s, id, at);
      s'.rt == s.rt && s'.tickTimer == s.tickTimer && s'.retry == s.retry && SameConfig(s, s')
  {}

  lemma ExitWakeupsOnly(s: Orchestration, id: string, reason: ExitReason, err: Option<string>, input: Input)
    requires id in s.running && id !in s.retry && s.rt.nextTimer !in s.rt.armed
    ensures WakeupsOnly(s, OnWorkerExit(s, id, reason, err, input), id)
  {
    hide EndWorker, ScheduleRetry, ExitMessage, WakeupsOnly;
    var e, ended := s.running[id], EndWorker(s, id, input.clock(0));
    var done := ended.(completed := ended.completed + {id}).Log(Completed(id));
    var failed := ended.Log(Failed(id, AbnormalExit));
    var s' := OnWorkerExit(s, id, reason, err, input);
    EndUntimed(s, id, input.clock(0));
    ScheduleRetryArms(done, id, 1, e.identifier, e.issue.url, None, true, input.clock(1));
    ScheduleRetryArms(failed, id, e.retryAttempt + 1, e.identifier, e.issue.url, Some(ExitMessage(err)), false, input.clock(1));
    if e.releaseOnExit {
      NoWakeups(s, s', id);
    } else if reason == ExitNormal {
      WakeupsFrom(s, done, s', id);
    } else {
      WakeupsFrom(s, failed, s', id);
    }
  }

  lemma DispatchWakeupsOnly(s: Orchestration, issue: Issue, attempt: Option<int>, at: Time)
    requires issue.id !in s.retry
    ensures WakeupsOnly(s, DispatchIssue(s, issue, attempt, at), issue.id)
  {}

  lemma RetryWakeupsOnly(s: Orchestration, id: string, input: Input)
    requires id in s.retry && s.rt.nextTimer !in s.rt.armed
    ensures WakeupsOnly(s, OnRetryTimer(s, id, input), id)
  {
    hide ScheduleRetry, DispatchIssue, IsEligible, StateFull, FindById, Orchestration.GlobalAvailable, WakeupsOnly;
    var e, taken, s' := s.retry[id], s.(retry := s.retry - {id}), OnRetryTimer(s, id, input);
    if input.candidates.None? {
      ScheduleRetryArms(taken.Log(Failed(id, RetryPollFailed)), id, e.attempt + 1, e.identifier, e.url,
                        Some("retry poll failed"), false, input.clock(0));
      WakeupsFrom(s, taken.Log(Failed(id, RetryPollFailed)), s', id);
    } else {
      var found := FindById(input.candidates.value, id);
      Found(input.candidates.value, id);
      if found.None? || !IsEligible(taken.cfg, found.value) {
        NoWakeups(s, s', id);
      } else if taken.GlobalAvailable() == 0 || StateFull(taken, found.value.state) {
        ScheduleRetryArms(taken.Log(Failed(id, NoSlots)), id, e.attempt + 1, found.value.identifier, found.value.url,
                          Some("no available orchestrator slots"), false, input.clock(0));
        WakeupsFrom(s, taken.Log(Failed(id, NoSlots)), s', id);
      } else {
        DispatchWakeupsOnly(taken, found.value, Some(e.attempt), input.clock(0));
        WakeupsFrom(s, taken, s', id);
      }
    }
  }

  lemma UpdateWakeupsOnly(s: Orchestration, id: string, m: AgentEvent)
    ensures WakeupsOnly(s, OnAgentUpdate(s, id, m), id)
  {
    hide UpdateSession, Usage.Plus;
  }

  /** Timer handles are fresh, and the tick timer is no retry's. */
  lemma TimersApart(s: Orchestration)
    requires BooksOk(s, {})
    ensures s.rt.nextTimer !in s.rt.armed
    ensures forall t :: t in s.rt.armed && s.rt.armed[t].ev.RetryTimerFired? ==> s.tickTimer != Some(t)
  {
    hide WorkersOk, ChannelOk, FlagsOk, ClaimsOk;
  }

  /** Handling an exit, an update or a retry wake-up stops no timer and arms at most that issue's
      wake-up; every other retry entry stays as it is. */
  lemma IssueHandlersArm(s: Orchestration, input: Input)
    requires BooksOk(s, {}) && s.rt.chan != []
    requires s.rt.chan[0].ev.WorkerExit? || s.rt.chan[0].ev.RetryTimerFired? || s.rt.chan[0].ev.AgentUpdate?
    ensures WakeupsOnly(Dequeue(s), Apply(s, Deliver(input)), s.rt.chan[0].ev.id)
  {
    hide BooksOk, WakeupsOnly, OnAgentUpdate, OnWorkerExit, OnRetryTimer, OnTick;
    var d := Dequeue(s);
    NoStaleMessage(s);
    ClaimsDisjoint(s);
    TimersApart(s);
    match s.rt.chan[0].ev
    case AgentUpdate(id, msg) => UpdateWakeupsOnly(d, id, msg);
    case WorkerExit(id, reason, err) => ExitWakeupsOnly(d, id, reason, err, input);
    case RetryTimerFired(id) => RetryWakeupsOnly(d, id, input);
  }

  // ---------- one step ----------

  /** Handling a tick never increases the pending ticks, a refresh or a reload adds at most one, no
      other step changes their number; and there is always one. */
  ghost predicate TicksStep(s: Orchestration, step: Step, s': Orchestration)
    requires Enabled(s, step)
  {
    var before, after := PendingTicks(s.rt), PendingTicks(s'.rt);
    if step.Deliver? && s.rt.chan[0].ev.TickEvent? then 1 <= after <= before
    else if step.Deliver? && (s.rt.chan[0].ev.RefreshRequest? || s.rt.chan[0].ev.ReloadConfig?) then
      before <= after <= before + 1
    else after == before
  }

  lemma DeliveryTicks(s: Orchestration, input: Input)
    requires BooksOk(s, {}) && s.rt.chan != []
    ensures TicksStep(s, Deliver(input), Apply(s, Deliver(input)))
  {
    hide BooksOk, Handle, PendingTicks, OnTick, OnReload, ScheduleTick;
    var d, ev, s' := Dequeue(s), s.rt.chan[0].ev, Apply(s, Deliver(input));
    AtMostOneArmedTick(s);
    TicksParts(s, ev, s');
    if ev.AgentUpdate? || ev.WorkerExit? || ev.RetryTimerFired? {
      IssueHandlersArm(s, input);
      WakeupsArmedTicks(d.rt, s'.rt);
      TicksParts(s, ev, d);
    } else {
      Dequeued(s);
      HandledTicks(d, ev, input);
    }
  }

  /** The pending ticks of s, and of a state whose channel is the rest of its channel. */
  lemma TicksParts(s: Orchestration, ev: Event, s': Orchestration)
    requires s.rt.chan != [] && s.rt.chan[0].ev == ev
    ensures PendingTicks(s.rt) == |TimersFor(s.rt.armed, TickEvent)| + |TimersFor(s.rt.firing, TickEvent)|
      + Copies(s.rt.chan[1..], TickEvent) + (if ev == TickEvent then 1 else 0)
    ensures PendingTicks(s'.rt) == |TimersFor(s'.rt.armed, TickEvent)| + |TimersFor(s'.rt.firing, TickEvent)|
      + Copies(s'.rt.chan, TickEvent)
  {}

  /** A tick, a refresh or a reload that takes leaves one armed tick; a snapshot request or a reload
      that fails leaves the timers alone. */
  lemma HandledTicks(s: Orchestration, ev: Event, input: Input)
    requires BooksOk(s, {}) && !ev.AgentUpdate? && !ev.WorkerExit? && !ev.RetryTimerFired?
    ensures var s' := Handle(s, ev, input);
      && s'.rt.firing == s.rt.firing && s'.rt.chan == s.rt.chan
      && if ev.SnapshotRequest? || (ev.ReloadConfig? && !input.trackerOk) then s'.rt.armed == s.rt.armed
         else |TimersFor(s'.rt.armed, TickEvent)| == 1
  {
    hide BooksOk, PollAndDispatch, ScheduleTick, TimersFor, PendingTicks;
    match ev
    case TickEvent =>
      Polled(s, input);
      PollUntimed(s, input);
      var polled := PollAndDispatch(s, input);
      TickScheduledOnce(polled, Backoff.Millis(polled.pollIntervalMs), {});
    case RefreshRequest => TickScheduledOnce(s, 0, {});
    case ReloadConfig(cfg, template) =>
      var reloaded := s.(cfg := cfg, template := template, pollIntervalMs := cfg.pollIntervalMs,
                         maxConcurrent := cfg.maxConcurrent)
        .Log(Reloaded(cfg, template));
      BooksSame(s, reloaded, {});
      TickScheduledOnce(reloaded, Backoff.Millis(cfg.pollIntervalMs), {});
    case SnapshotRequest =>
  }

  lemma TimerLeft(timers: map<nat, Timer>, t: nat, ev: Event)
    requires t in timers
    ensures |TimersFor(timers - {t}, ev)| + (if timers[t].ev == ev then 1 else 0) == |TimersFor(timers, ev)|
  {
    var before, after := TimersFor(timers, ev), TimersFor(timers - {t}, ev);
    if timers[t].ev == ev {
      assert t in before && after == before - {t};
    } else {
      assert after == before;
    }
  }

  lemma FireTicks(s: Orchestration, t: nat)
    requires t in s.rt.armed && t !in s.rt.firing
    ensures PendingTicks(FireStep(s, t).rt) == PendingTicks(s.rt)
  {
    var rt := FireStep(s, t).rt;
    TimerLeft(s.rt.armed, t, TickEvent);
    TimerLeft(rt.firing, t, TickEvent);
    assert rt.firing - {t} == s.rt.firing;
  }

  lemma PostTicks(s: Orchestration, t: nat)
    requires t in s.rt.firing
    ensures PendingTicks(PostStep(s, t).rt) == PendingTicks(s.rt)
  {
    CopiesSnoc(s.rt.chan, Message(s.rt.firing[t].ev, FromTimer(t)), TickEvent);
    TimerLeft(s.rt.firing, t, TickEvent);
  }

  lemma SenderTicks(s: Orchestration, step: Step)
    requires Enabled(s, step) && (step.Emit? || step.Exit? || step.Send?)
    ensures PendingTicks(Apply(s, step).rt) == PendingTicks(s.rt)
  {
    hide TimersFor;
    match step
    case Emit(w, msg) => CopiesSnoc(s.rt.chan, Message(AgentUpdate(s.rt.live[w], msg), FromWorker(w)), TickEvent);
    case Exit(w, err) =>
      var reason := if err.Some? then ExitAbnormal else ExitNormal;
      CopiesSnoc(s.rt.chan, Message(WorkerExit(s.rt.live[w], reason, err), FromWorker(w)), TickEvent);
    case Send(ev) => CopiesSnoc(s.rt.chan, Message(ev, External), TickEvent);
  }

  lemma StepTicks(s: Orchestration, step: Step)
    requires BooksOk(s, {}) && Enabled(s, step)
    ensures TicksStep(s, step, Apply(s, step))
  {
    assert step.Fire? ==> step.timer !in s.rt.firing;
    hide BooksOk, Handle, PendingTicks;
    match step
    case Deliver(input) => DeliveryTicks(s, input);
    case Fire(t) => FireTicks(s, t);
    case Post(t) => PostTicks(s, t);
    case _ => SenderTicks(s, step);
  }

  lemma {:induction false} RunTicks(s: Orchestration, steps: seq<Step>)
    requires BooksOk(s, {}) && Legal(s, steps) && PendingTicks(s.rt) >= 1
    ensures PendingTicks(Exec(s, steps).rt) >= 1
    decreases |steps|
  {
    if steps != [] {
      StepTicks(s, steps[0]);
      StepKeepsBooks(s, steps[0]);
      RunTicks(Apply(s, steps[0]), steps[1..]);
    }
  }

  /** In every state of every run a tick is armed, firing or posted, and at most one is armed. */
  lemma PollLoopAlive(cfg: Config, template: string, queued: seq<Event>, steps: seq<Step>)
    requires CanStart(queued) && Legal(Startup(cfg, template, queued), steps)
    ensures var s := Exec(Startup(cfg, template, queued), steps);
      PendingTicks(s.rt) >= 1 && |TimersFor(s.rt.armed, TickEvent)| <= 1
  {
    var s0 := Startup(cfg, template, queued);
    StartupBooks(cfg, template, queued);
    assert TimersFor(s0.rt.armed, TickEvent) == {0};
    RunTicks(s0, steps);
    RunKeepsBooks(s0, steps);
    AtMostOneArmedTick(Exec(s0, steps));
  }

  lemma TickSparesWakeup(s: Orchestration, delay: int, t: nat)
    requires t in s.rt.armed && s.tickTimer != Some(t) && t != s.rt.nextTimer
    ensures t in ScheduleTick(s, delay).rt.armed && ScheduleTick(s, delay).rt.armed[t] == s.rt.armed[t]
  {}

  lemma DeliverySparesWakeup(s: Orchestration, input: Input, t: nat)
    requires BooksOk(s, {}) && s.rt.chan != [] && t in s.rt.armed && s.rt.armed[t].ev.RetryTimerFired?
    ensures t in Apply(s, Deliver(input)).rt.armed && Apply(s, Deliver(input)).rt.armed[t] == s.rt.armed[t]
  {
    hide BooksOk, Handle, OnTick, ScheduleTick, PollAndDispatch;
    var d, ev := Dequeue(s), s.rt.chan[0].ev;
    TimersApart(s);
    if ev.AgentUpdate? || ev.WorkerExit? || ev.RetryTimerFired? {
      IssueHandlersArm(s, input);
    } else {
      Dequeued(s);
      HandlerSparesWakeup(d, ev, input, t);
    }
  }

  lemma HandlerSparesWakeup(s: Orchestration, ev: Event, input: Input, t: nat)
    requires BooksOk(s, {}) && t in s.rt.armed && s.tickTimer != Some(t) && t != s.rt.nextTimer
    requires !ev.AgentUpdate? && !ev.WorkerExit? && !ev.RetryTimerFired?
    ensures t in Handle(s, ev, input).rt.armed && Handle(s, ev, input).rt.armed[t] == s.rt.armed[t]
  {
    hide BooksOk, ScheduleTick, PollAndDispatch;
    match ev
    case TickEvent =>
      PollUntimed(s, input);
      var polled := PollAndDispatch(s, input);
      TickSparesWakeup(polled, Backoff.Millis(polled.pollIntervalMs), t);
    case RefreshRequest => TickSparesWakeup(s, 0, t);
    case ReloadConfig(cfg, template) =>
      TickSparesWakeup(s.(cfg := cfg, template := template, pollIntervalMs := cfg.pollIntervalMs,
                          maxConcurrent := cfg.maxConcurrent)
                        .Log(Reloaded(cfg, template)), Backoff.Millis(cfg.pollIntervalMs), t);
    case SnapshotRequest =>
  }

  /** No retry wake-up is ever stopped: while its timer is armed, only firing takes it away. */
  lemma NoWakeupStopped(s: Orchestration, step: Step, t: nat)
    requires BooksOk(s, {}) && Enabled(s, step) && t in s.rt.armed && s.rt.armed[t].ev.RetryTimerFired? && step != Fire(t)
    ensures t in Apply(s, step).rt.armed && Apply(s, step).rt.armed[t] == s.rt.armed[t]
  {
    hide BooksOk, Handle;
    if step.Deliver? { DeliverySparesWakeup(s, step.input, t); }
  }
}
