/** Runs that never end.  If the loop goes on receiving, workers return, and timers fire and post, then
    every claim's wake-up is delivered: possibility, in Progress, becomes certainty. */
module Fairness {
  import opened State
  import opened Handlers
  import opened System
  import opened Wakeups
  import opened Books
  import opened Entries
  import opened Polling
  import opened Progress
  import Runs

  // ---------- the channel is first in, first out ----------

  function Deliveries(steps: seq<Step>): nat {
    if steps == [] then 0 else (if steps[0].Deliver? then 1 else 0) + Deliveries(steps[1..])
  }

  lemma StepChannel(s: Orchestration, step: Step)
    requires BooksOk(s, {}) && Enabled(s, step)
    ensures var before, after := s.rt.chan, Apply(s, step).rt.chan;
      if step.Deliver? then after == before[1..] else before <= after
  {
    hide BooksOk, Handle;
    if step.Deliver? { Runs.DeliveryChannel(s, step.input); }
  }

  /** Whatever else goes on, the message at position k of the channel is what the (k + 1)-th delivery
      from now handles. */
  lemma {:induction false} QueueInOrder(s: Orchestration, steps: seq<Step>, k: nat)
    requires BooksOk(s, {}) && Legal(s, steps) && k < |s.rt.chan| && Deliveries(steps) <= k
    ensures var chan := Exec(s, steps).rt.chan;
      k - Deliveries(steps) < |chan| && chan[k - Deliveries(steps)] == s.rt.chan[k]
    decreases |steps|
  {
    hide BooksOk, Enabled, Apply;
    if steps != [] {
      StepChannel(s, steps[0]);
      StepKeepsBooks(s, steps[0]);
      QueueInOrder(Apply(s, steps[0]), steps[1..], if steps[0].Deliver? then k - 1 else k);
    }
  }

  // ---------- endless runs ----------

  datatype Run = Run(state: nat -> Orchestration, step: nat -> Step)

  ghost predicate IsRun(r: Run) {
    forall i: nat :: Enabled(r.state(i), r.step(i)) && r.state(i + 1) == Apply(r.state(i), r.step(i))
  }

  /** The loop keeps receiving; a worker returns some day; a timer is stopped or fires, and a fired
      timer's post gets through. */
  ghost predicate Fair(r: Run) {
    && (forall i: nat :: r.state(i).rt.chan != [] ==> exists j: nat :: i <= j && r.step(j).Deliver?)
    && (forall i: nat, w: nat :: w in r.state(i).rt.live ==> exists j: nat :: i <= j && w !in r.state(j).rt.live)
    && (forall i: nat, t: nat :: t in r.state(i).rt.armed ==> exists j: nat :: i <= j && t !in r.state(j).rt.armed)
    && (forall i: nat, t: nat :: t in r.state(i).rt.firing ==> exists j: nat :: i <= j && t !in r.state(j).rt.firing)
  }

  lemma {:induction false} AlwaysBooks(r: Run, i: nat)
    requires IsRun(r) && BooksOk(r.state(0), {})
    ensures BooksOk(r.state(i), {})
  {
    hide BooksOk, Enabled, Apply;
    if i > 0 {
      AlwaysBooks(r, i - 1);
      OneOf(r, i - 1);
      StepKeepsBooks(r.state(i - 1), r.step(i - 1));
    }
  }

  /** The run's i-th step. */
  lemma OneOf(r: Run, i: nat)
    requires IsRun(r)
    ensures Enabled(r.state(i), r.step(i)) && r.state(i + 1) == Apply(r.state(i), r.step(i))
  {}

  // ---------- the wake-up's way ----------

  /** The channel over one step of the run. */
  lemma ChannelMoves(r: Run, i: nat)
    requires IsRun(r) && BooksOk(r.state(0), {})
    ensures var before, after := r.state(i).rt.chan, r.state(i + 1).rt.chan;
      if r.step(i).Deliver? then before != [] && after == before[1..] else before <= after
  {
    hide BooksOk, Apply;
    AlwaysBooks(r, i);
    OneOf(r, i);
    StepChannel(r.state(i), r.step(i));
  }

  lemma NextDelivery(r: Run, i: nat) returns (n: nat)
    requires Fair(r) && r.state(i).rt.chan != []
    ensures i <= n && r.step(n).Deliver?
  {
    n :| i <= n && r.step(n).Deliver?;
  }

  /** The message at position k is delivered. */
  lemma {:induction false} Served(r: Run, i: nat, k: nat) returns (j: nat)
    requires IsRun(r) && Fair(r) && BooksOk(r.state(0), {}) && k < |r.state(i).rt.chan|
    ensures i <= j && r.step(j).Deliver? && r.state(j).rt.chan != [] && r.state(j).rt.chan[0] == r.state(i).rt.chan[k]
    decreases k
  {
    hide *;
    var n := NextDelivery(r, i);
    j := i;
    while !r.step(j).Deliver?
      invariant i <= j <= n && k < |r.state(j).rt.chan| && r.state(j).rt.chan[k] == r.state(i).rt.chan[k]
      decreases n - j
    {
      ChannelMoves(r, j);
      j := j + 1;
    }
    if k > 0 {
      ChannelMoves(r, j);
      j := Served(r, j + 1, k - 1);
    }
  }

  lemma StepFiring(s: Orchestration, step: Step, t: nat)
    requires BooksOk(s, {}) && Enabled(s, step) && t in s.rt.firing && step != Post(t)
    ensures t in Apply(s, step).rt.firing && Apply(s, step).rt.firing[t] == s.rt.firing[t]
  {
    hide BooksOk, Handle;
    FiredOnce(s, t);
    if step.Deliver? {
      var ev := s.rt.chan[0].ev;
      if ev.AgentUpdate? || ev.WorkerExit? || ev.RetryTimerFired? {
        IssueHandlersArm(s, step.input);
      } else {
        Dequeued(s);
        HandledTicks(Dequeue(s), ev, step.input);
      }
    }
  }

  lemma FiredOnce(s: Orchestration, t: nat)
    requires BooksOk(s, {}) && t in s.rt.firing
    ensures t !in s.rt.armed
  {
    hide ChannelOk, WorkersOk, FlagsOk, ClaimsOk;
  }

  /** A live worker's exit is queued. */
  lemma WorkerReturns(r: Run, i: nat, w: nat) returns (j: nat)
    requires IsRun(r) && Fair(r) && BooksOk(r.state(0), {}) && w in r.state(i).rt.live
    ensures i <= j && r.state(j).rt.chan != []
    ensures IsWakeup(r.state(j).rt.chan[|r.state(j).rt.chan| - 1].ev, r.state(i).rt.live[w])
  {
    hide BooksOk, Enabled, Apply;
    var n: nat :| i <= n && w !in r.state(n).rt.live;
    j := i;
    while !(r.step(j).Exit? && r.step(j).worker == w)
      invariant i <= j < n && w in r.state(j).rt.live && r.state(j).rt.live[w] == r.state(i).rt.live[w]
      decreases n - j
    {
      AlwaysBooks(r, j);
      OneOf(r, j);
      StepLive(r.state(j), r.step(j));
      j := j + 1;
    }
    OneOf(r, j);
    ExitQueued(r.state(j), r.step(j));
    j := j + 1;
  }

  lemma ExitQueued(s: Orchestration, step: Step)
    requires Enabled(s, step) && step.Exit?
    ensures var chan := Apply(s, step).rt.chan; chan != [] && IsWakeup(chan[|chan| - 1].ev, s.rt.live[step.worker])
  {}

  /** A fired retry timer's wake-up is queued. */
  lemma TimerPosts(r: Run, i: nat, t: nat, id: string) returns (j: nat)
    requires IsRun(r) && Fair(r) && BooksOk(r.state(0), {})
    requires t in r.state(i).rt.firing && r.state(i).rt.firing[t].ev == RetryTimerFired(id)
    ensures i <= j && r.state(j).rt.chan != [] && IsWakeup(r.state(j).rt.chan[|r.state(j).rt.chan| - 1].ev, id)
  {
    hide BooksOk, Enabled, Apply;
    var n: nat :| i <= n && t !in r.state(n).rt.firing;
    j := i;
    while r.step(j) != Post(t)
      invariant i <= j < n && t in r.state(j).rt.firing && r.state(j).rt.firing[t] == r.state(i).rt.firing[t]
      decreases n - j
    {
      AlwaysBooks(r, j);
      OneOf(r, j);
      StepFiring(r.state(j), r.step(j), t);
      j := j + 1;
    }
    OneOf(r, j);
    PostQueued(r.state(j), t);
    j := j + 1;
  }

  lemma PostQueued(s: Orchestration, t: nat)
    requires Enabled(s, Post(t))
    ensures var chan := Apply(s, Post(t)).rt.chan; chan != [] && chan[|chan| - 1].ev == s.rt.firing[t].ev
  {}

  /** An armed retry timer fires. */
  lemma TimerFires(r: Run, i: nat, t: nat, id: string) returns (j: nat)
    requires IsRun(r) && Fair(r) && BooksOk(r.state(0), {})
    requires t in r.state(i).rt.armed && r.state(i).rt.armed[t].ev == RetryTimerFired(id)
    ensures i <= j && t in r.state(j).rt.firing && r.state(j).rt.firing[t].ev == RetryTimerFired(id)
  {
    hide BooksOk, Enabled, Apply;
    var n: nat :| i <= n && t !in r.state(n).rt.armed;
    j := i;
    while r.step(j) != Fire(t)
      invariant i <= j < n && t in r.state(j).rt.armed && r.state(j).rt.armed[t] == r.state(i).rt.armed[t]
      decreases n - j
    {
      AlwaysBooks(r, j);
      OneOf(r, j);
      NoWakeupStopped(r.state(j), r.step(j), t);
      j := j + 1;
    }
    OneOf(r, j);
    FiredNow(r.state(j), t);
    j := j + 1;
  }

  lemma FiredNow(s: Orchestration, t: nat)
    requires Enabled(s, Fire(t))
    ensures var firing := Apply(s, Fire(t)).rt.firing; t in firing && firing[t] == s.rt.armed[t]
  {}

  /** Where a claim's wake-up is. */
  lemma WakeupIsSomewhere(s: Orchestration, id: string)
    requires BooksOk(s, {}) && id in s.claimed
    ensures || (exists w: nat :: w in s.rt.live && s.rt.live[w] == id)
            || (exists t: nat :: t in s.rt.armed && s.rt.armed[t].ev == RetryTimerFired(id))
            || (exists t: nat :: t in s.rt.firing && s.rt.firing[t].ev == RetryTimerFired(id))
            || (exists k: nat :: k < |s.rt.chan| && IsWakeup(s.rt.chan[k].ev, id))
  {
    hide FlagsOk;
    ClaimsDisjoint(s);
    if id in s.running {
      ExitOrWorker(s, id);
    } else {
      var t := s.retry[id].timer;
      assert Awaited(id, Alarms(s.retry)[id], s.rt.armed, s.rt.firing, s.rt.chan);
    }
  }

  lemma ExitOrWorker(s: Orchestration, id: string)
    requires BooksOk(s, {}) && id in s.running
    ensures var w := s.running[id].worker;
      (w in s.rt.live && s.rt.live[w] == id) || exists k: nat :: k < |s.rt.chan| && IsWakeup(s.rt.chan[k].ev, id)
  {
    hide TimersOk, FlagsOk, ClaimsOk;
    var owners := Owners(s.running);
    var w := owners[id];
    if w in s.rt.live {
      assert owners[s.rt.live[w]] == w;
    } else {
      assert ExitPending(s.rt.chan, w);
      var k: nat :| k < |s.rt.chan| && IsExitOf(s.rt.chan[k], w);
      assert WellSent(s.rt.chan[k], owners, Alarms(s.retry));
      assert IsWakeup(s.rt.chan[k].ev, id);
    }
  }

  /** No claim is stuck: in every fair run, each claimed issue's wake-up is delivered. */
  lemma ClaimsAreServed(r: Run, first: (Config, string), i: nat, id: string) returns (j: nat)
    requires Runs.Reached(r.state(0), first) && IsRun(r) && Fair(r) && id in r.state(i).claimed
    ensures i <= j && r.step(j).Deliver? && r.state(j).rt.chan != [] && IsWakeup(r.state(j).rt.chan[0].ev, id)
  {
    hide *;
    Runs.ReachedOk(r.state(0), first, 0);
    AlwaysBooks(r, i);
    var rt := r.state(i).rt;
    WakeupIsSomewhere(r.state(i), id);
    j := i;
    if k: nat :| k < |rt.chan| && IsWakeup(rt.chan[k].ev, id) {
      j := Served(r, i, k);
    } else {
      if w: nat :| w in rt.live && rt.live[w] == id {
        j := WorkerReturns(r, i, w);
      } else if t: nat :| t in rt.firing && rt.firing[t].ev == RetryTimerFired(id) {
        j := TimerPosts(r, i, t, id);
      } else {
        var t: nat :| t in rt.armed && rt.armed[t].ev == RetryTimerFired(id);
        j := TimerFires(r, i, t, id);
        j := TimerPosts(r, j, t, id);
      }
      j := Served(r, j, |r.state(j).rt.chan| - 1);
    }
  }
}
