/** Which delay every armed timer was given, in every run: retries wait as long as the backoff says, ticks
    come after the poll interval in force.  A retry is followed from the delivery that set it up through
    the steps that keep it, with its timer armed, then fired, then posted. */
module Delays {
  import opened Domain
  import opened State
  import opened Handlers
  import opened System
  import opened Wakeups
  import opened Books
  import opened Liveness
  import opened Polling
  import opened Admission
  import opened Outcomes
  import opened Fairness
  import opened Runs
  import Backoff

  // ---------- retries ----------

  /** Where timer t is still to fire or to post, it is `timer`. */
  predicate Set(rt: Runtime, t: nat, timer: Timer) {
    (t in rt.armed ==> rt.armed[t] == timer) && (t in rt.firing ==> rt.firing[t] == timer)
  }

  /** The step handles the exit or the wake-up of `id`, and sets up its retry: after a normal exit due in
      1 s, and otherwise after the failure delay of its attempt number under the cap then in force. */
  ghost predicate SetsUp(s: Orchestration, step: Step, s': Orchestration, id: string) {
    && step.Deliver? && s.rt.chan != [] && id in s'.retry && IsAbout(s.rt.chan[0].ev, id)
    && var r, ev := s'.retry[id], s.rt.chan[0].ev;
       var normal := ev.WorkerExit? && ev.reason == ExitNormal;
       && r.attempt >= 1 && r.timer == s.rt.nextTimer
       && var delay := if normal then 1_000_000_000 else AfterFailure(r.attempt, s.cfg.maxRetryBackoffMs);
          && r.timer in s'.rt.armed && s'.rt.armed[r.timer] == Timer(RetryTimerFired(id), delay)
          && r.dueAtMs == (step.input.clock(if ev.WorkerExit? then 1 else 0) + delay) / 1_000_000
  }

  predicate IsAbout(ev: Event, id: string) { (ev.WorkerExit? || ev.RetryTimerFired?) && ev.id == id }

  /** A step keeps a retry, or sets it up. */
  lemma RetryStep(s: Orchestration, step: Step, id: string)
    requires BooksOk(s, {}) && Enabled(s, step) && id in Apply(s, step).retry
    requires forall k :: k in s.running ==> s.running[k].retryAttempt >= 0
    requires forall k :: k in s.retry ==> s.retry[k].attempt >= 1
    ensures var s' := Apply(s, step);
      (id in s.retry && s'.retry[id] == s.retry[id]) || SetsUp(s, step, s', id)
  {
    hide BooksOk, Handle, SetsUp;
    if step.Deliver? {
      var ev := s.rt.chan[0].ev;
      NoStaleMessage(s);
      ClaimsDisjoint(s);
      if ev.WorkerExit? {
        ExitSetsUp(s, step.input, id);
      } else if ev.RetryTimerFired? {
        WakeupSetsUp(s, step.input, id);
      } else if ev.AgentUpdate? {
        UpdateRetries(Dequeue(s), ev, step.input);
      } else {
        Dequeued(s);
        TimelessRetries(Dequeue(s), ev, step.input);
      }
    }
  }

  lemma UpdateRetries(s: Orchestration, ev: Event, input: Input)
    requires ev.AgentUpdate?
    ensures Handle(s, ev, input).retry == s.retry
  {
    hide UpdateSession;
  }

  lemma TimelessRetries(s: Orchestration, ev: Event, input: Input)
    requires BooksOk(s, {}) && !ev.AgentUpdate? && !ev.WorkerExit? && !ev.RetryTimerFired?
    ensures Handle(s, ev, input).retry == s.retry
  {
    hide BooksOk, PollAndDispatch, OnAgentUpdate, OnWorkerExit, OnRetryTimer;
    if ev.TickEvent? { PollUntimed(s, input); }
  }

  lemma ExitSetsUp(s: Orchestration, input: Input, id: string)
    requires s.rt.chan != [] && s.rt.chan[0].ev.WorkerExit? && id in Apply(s, Deliver(input)).retry
    requires var k := s.rt.chan[0].ev.id; k in s.running && k !in s.retry && s.running[k].retryAttempt >= 0
    ensures var s' := Apply(s, Deliver(input));
      (id in s.retry && s'.retry[id] == s.retry[id]) || SetsUp(s, Deliver(input), s', id)
  {
    hide OnWorkerExit, AfterFailure;
    var d := Dequeue(s);
    var WorkerExit(k, reason, err) := s.rt.chan[0].ev;
    ExitSpelled(d, k, reason, err, input);
    assert Apply(s, Deliver(input)) == OnWorkerExit(d, k, reason, err, input);
    KeptRetry(d, OnWorkerExit(d, k, reason, err, input), k, id);
  }

  lemma KeptRetry(s: Orchestration, s': Orchestration, k: string, id: string)
    requires id in s'.retry
    ensures id != k && s'.retry - {k} == s.retry - {k} ==> id in s.retry && s'.retry[id] == s.retry[id]
  {
    if id != k && s'.retry - {k} == s.retry - {k} {
      assert id in s'.retry - {k} && (s'.retry - {k})[id] == (s.retry - {k})[id];
    }
  }

  lemma WakeupSetsUp(s: Orchestration, input: Input, id: string)
    requires s.rt.chan != [] && s.rt.chan[0].ev.RetryTimerFired? && id in Apply(s, Deliver(input)).retry
    requires var k := s.rt.chan[0].ev.id; k in s.retry && k !in s.running && s.retry[k].attempt >= 1
    ensures var s' := Apply(s, Deliver(input));
      (id in s.retry && id != s.rt.chan[0].ev.id && s'.retry[id] == s.retry[id]) || SetsUp(s, Deliver(input), s', id)
  {
    hide OnRetryTimer, AfterFailure, Wanted, HasRoom, FindById;
    var d, k := Dequeue(s), s.rt.chan[0].ev.id;
    WakeupCases(d, k, input);
    assert Apply(s, Deliver(input)) == OnRetryTimer(d, k, input);
    KeptRetry(d, OnRetryTimer(d, k, input), k, id);
  }

  /** A kept retry keeps its timer as it was set. */
  lemma TimerKept(s: Orchestration, step: Step, id: string, timer: Timer)
    requires BooksOk(s, {}) && Enabled(s, step) && forall k :: k in s.retry ==> s.retry[k].attempt >= 1
    requires id in s.retry && id in Apply(s, step).retry && Apply(s, step).retry[id] == s.retry[id]
    requires Set(s.rt, s.retry[id].timer, timer)
    ensures Set(Apply(s, step).rt, s.retry[id].timer, timer)
  {
    hide BooksOk, Enabled, Apply;
    var t, s' := s.retry[id].timer, Apply(s, step);
    StepKeepsBooks(s, step);
    WhereItIs(s, id);
    OnePlace(s');
    if t in s.rt.armed {
      if step == Fire(t) { FiredNow(s, t); } else { NoWakeupStopped(s, step, t); }
    } else if t in s.rt.firing {
      if step == Post(t) { PostedNow(s, t); } else { StepFiring(s, step, t); }
    } else {
      var i :| 0 <= i < |s.rt.chan| && s.rt.chan[i] == Message(RetryTimerFired(id), FromTimer(t));
      StepChannel(s, step);
      if step.Deliver? {
        if i == 0 { Renewed(s, step.input, id); }
        assert s'.rt.chan[i - 1].src == FromTimer(t);
      } else {
        assert s'.rt.chan[i].src == FromTimer(t);
      }
    }
  }

  /** A retry's timer is armed, firing or posted. */
  lemma WhereItIs(s: Orchestration, id: string)
    requires BooksOk(s, {}) && id in s.retry
    ensures var t := s.retry[id].timer;
      && t < s.rt.nextTimer
      && (t in s.rt.armed ==> s.rt.armed[t].ev == RetryTimerFired(id))
      && (t in s.rt.armed || t in s.rt.firing || WakeupPosted(s.rt.chan, id, t))
  {
    hide ChannelOk, WorkersOk, FlagsOk, ClaimsOk, WakeupPosted;
    var t, alarms := s.retry[id].timer, Alarms(s.retry);
    assert alarms[id] == t;
    assert Awaited(id, alarms[id], s.rt.armed, s.rt.firing, s.rt.chan);
    PostedNotArmed(s, id, t);
  }

  lemma PostedNotArmed(s: Orchestration, id: string, t: nat)
    requires BooksOk(s, {})
    ensures WakeupPosted(s.rt.chan, id, t) ==> t !in s.rt.armed
  {
    hide ChannelOk, WorkersOk, FlagsOk, ClaimsOk;
  }

  /** A timer is in one place only. */
  lemma OnePlace(s: Orchestration)
    requires BooksOk(s, {})
    ensures s.rt.armed.Keys !! s.rt.firing.Keys
    ensures forall i :: 0 <= i < |s.rt.chan| && s.rt.chan[i].src.FromTimer? ==>
      s.rt.chan[i].src.timer !in s.rt.armed && s.rt.chan[i].src.timer !in s.rt.firing
  {
    hide ChannelOk, WorkersOk, FlagsOk, ClaimsOk;
  }

  lemma PostedNow(s: Orchestration, t: nat)
    requires Enabled(s, Post(t))
    ensures var chan := Apply(s, Post(t)).rt.chan; chan != [] && chan[|chan| - 1].src == FromTimer(t)
  {}

  lemma Renewed(s: Orchestration, input: Input, id: string)
    requires BooksOk(s, {}) && s.rt.chan != [] && s.rt.chan[0].ev == RetryTimerFired(id)
    requires forall k :: k in s.retry ==> s.retry[k].attempt >= 1
    ensures id in Apply(s, Deliver(input)).retry ==> Apply(s, Deliver(input)).retry[id].timer == s.rt.nextTimer
  {
    hide BooksOk, Apply;
    NoStaleMessage(s);
    ClaimsDisjoint(s);
    if id in Apply(s, Deliver(input)).retry { WakeupSetsUp(s, input, id); }
  }

  lemma SomeStep(first: (Config, string), queued: seq<Event>, steps: seq<Step>, id: string)
    requires Legal(Startup(first.0, first.1, queued), steps) && id in Exec(Startup(first.0, first.1, queued), steps).retry
    ensures steps != []
  {}

  lemma SetsTimer(s: Orchestration, step: Step, s': Orchestration, id: string)
    requires SetsUp(s, step, s', id) && BooksOk(s', {})
    ensures id in s'.retry && s'.retry[id].timer in s'.rt.armed
    ensures Set(s'.rt, s'.retry[id].timer, s'.rt.armed[s'.retry[id].timer])
  {
    hide BooksOk, AfterFailure;
    OnePlace(s');
  }

  /** In every state of every run each retry was set up by one delivery of the run, and its timer, until
      it has posted, is the one that was set then. */
  lemma {:induction false} RetryWasSetUp(first: (Config, string), queued: seq<Event>, steps: seq<Step>, id: string)
      returns (k: nat, before: Orchestration)
    requires CanStart(queued) && Legal(Startup(first.0, first.1, queued), steps)
    requires id in Exec(Startup(first.0, first.1, queued), steps).retry
    ensures var s0 := Startup(first.0, first.1, queued);
      k < |steps| && Legal(s0, steps[..k]) && before == Exec(s0, steps[..k]) && Enabled(before, steps[k])
    ensures var s, later := Exec(Startup(first.0, first.1, queued), steps), Apply(before, steps[k]);
      && SetsUp(before, steps[k], later, id) && s.retry[id] == later.retry[id]
      && Set(s.rt, s.retry[id].timer, later.rt.armed[later.retry[id].timer])
    decreases |steps|
  {
    hide *;
    var s0 := Startup(first.0, first.1, queued);
    SomeStep(first, queued, steps, id);
    if steps != [] {
      var most, last := steps[..|steps| - 1], steps[|steps| - 1];
      LastStep(s0, steps);
      var s := Exec(s0, most);
      Reaches(first, queued, most);
      ReachedOk(s, first, 0);
      AttemptsAreHistory(s, first);
      RetryStep(s, last, id);
      if SetsUp(s, last, Apply(s, last), id) {
        k, before := |steps| - 1, s;
        StepKeepsBooks(s, last);
        SetsTimer(s, last, Apply(s, last), id);
      } else {
        k, before := RetryWasSetUp(first, queued, most, id);
        assert most[..k] == steps[..k];
        Reaches(first, queued, steps[..k]);
        ReachedOk(before, first, 0);
        StepKeepsBooks(before, steps[k]);
        SetsTimer(before, steps[k], Apply(before, steps[k]), id);
        TimerKept(s, last, id, Apply(before, steps[k]).rt.armed[Apply(before, steps[k]).retry[id].timer]);
      }
    }
  }

  // ---------- ticks ----------

  /** The only armed tick timer is due after `delay` ns. */
  ghost predicate NextTick(s: Orchestration, delay: int) {
    && s.tickTimer.Some? && s.tickTimer.value in s.rt.armed && s.rt.armed[s.tickTimer.value] == Timer(TickEvent, delay)
    && forall t :: t in s.rt.armed && s.rt.armed[t].ev == TickEvent ==> t == s.tickTimer.value
  }

  lemma TickSet(s: Orchestration, delay: int)
    requires BooksOk(s, {})
    ensures NextTick(ScheduleTick(s, delay), delay)
  {
    TickTimerApart(s);
    hide BooksOk;
  }

  lemma TickTimerApart(s: Orchestration)
    requires BooksOk(s, {})
    ensures forall t :: t in s.rt.armed && s.rt.armed[t].ev == TickEvent ==> s.tickTimer == Some(t)
  {
    hide ChannelOk, WorkersOk, FlagsOk, ClaimsOk;
  }

  /** After a tick, whatever became of it, the next one comes after the poll interval in force; after a
      refresh request at once; after a reload that took, with all of the new settings in force, after the
      new interval.  A reload whose tracker cannot be built changes nothing, nor
      does a request for a snapshot. */
  lemma Cadence(s: Orchestration, input: Input)
    requires BooksOk(s, {}) && s.rt.chan != []
    ensures var ev, s' := s.rt.chan[0].ev, Apply(s, Deliver(input));
      && (ev.TickEvent? ==> NextTick(s', Backoff.Wrap64(s.pollIntervalMs * 1_000_000)))
      && (ev.RefreshRequest? ==> NextTick(s', 0) && s'.running == s.running && s'.retry == s.retry)
      && (ev.SnapshotRequest? ==> s' == s.(rt := s.rt.(chan := s.rt.chan[1..])))
      && (ev.ReloadConfig? && !input.trackerOk ==> s' == s.(rt := s.rt.(chan := s.rt.chan[1..])))
      && (ev.ReloadConfig? && input.trackerOk ==>
            && NextTick(s', Backoff.Wrap64(ev.cfg.pollIntervalMs * 1_000_000))
            && s'.cfg == ev.cfg && s'.template == ev.template
            && s'.pollIntervalMs == ev.cfg.pollIntervalMs && s'.maxConcurrent == ev.cfg.maxConcurrent
            && s'.running == s.running && s'.retry == s.retry && s'.claimed == s.claimed && s'.completed == s.completed)
  {
    hide BooksOk, NextTick, PollAndDispatch, OnAgentUpdate, OnWorkerExit, OnRetryTimer;
    var d := Dequeue(s);
    match s.rt.chan[0].ev
    case TickEvent =>
      Dequeued(s);
      Polled(d, input);
      PollUntimed(d, input);
      TickSet(PollAndDispatch(d, input), Backoff.Wrap64(s.pollIntervalMs * 1_000_000));
    case RefreshRequest =>
      Dequeued(s);
      TickSet(d, 0);
    case ReloadConfig(cfg, template) =>
      Dequeued(s);
      var reloaded := d.(cfg := cfg, template := template, pollIntervalMs := cfg.pollIntervalMs, maxConcurrent := cfg.maxConcurrent)
        .Log(Reloaded(cfg, template));
      BooksSame(d, reloaded, {});
      TickSet(reloaded, Backoff.Wrap64(cfg.pollIntervalMs * 1_000_000));
    case _ =>
  }

  /** The first tick comes at once. */
  lemma FirstTick(first: (Config, string), queued: seq<Event>)
    ensures NextTick(Startup(first.0, first.1, queued), 0)
  {}
}
