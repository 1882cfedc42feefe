/** No claim is stuck: a claim is given up only by its own wake-up, and from every reachable state that
    wake-up can still be brought to the head of the channel. */
module Progress {
  import opened Domain
  import opened State
  import opened Eligibility
  import opened Handlers
  import opened System
  import opened Wakeups
  import opened Books
  import opened Dispatching
  import opened Runs
  import Sorting

  predicate IsWakeup(ev: Event, id: string) { (ev.WorkerExit? || ev.RetryTimerFired?) && ev.id == id }

  lemma PollKeepsClaims(s: Orchestration, input: Input, id: string)
    requires BooksOk(s, {}) && id in s.claimed
    ensures id in PollAndDispatch(s, input).claimed
  {
    hide BooksOk, Reconcile, DispatchUpTo, Orchestration.GlobalAvailable;
    var reconciled := Reconcile(s, input.clock(0), input.states);
    Reconciled(s, input.clock(0), input.states, {});
    if input.candidates.Some? {
      var sorted := Sorting.SortForDispatch(input.candidates.value);
      PhaseKeeps(reconciled, sorted, input.clock, 0, |sorted|, id);
      PhaseStart(reconciled, sorted, input.clock);
    }
  }

  lemma ExitKeepsOthers(s: Orchestration, k: string, reason: ExitReason, err: Option<string>, input: Input, id: string)
    requires id in s.claimed && id != k
    ensures id in OnWorkerExit(s, k, reason, err, input).claimed
  {
    hide ExitMessage;
  }

  lemma RetryKeepsOthers(s: Orchestration, k: string, input: Input, id: string)
    requires id in s.claimed && id != k
    ensures id in OnRetryTimer(s, k, input).claimed
  {
    hide IsEligible, StateFull, FindById, Orchestration.GlobalAvailable;
  }

  /** Only an issue's own wake-up can end its claim, whatever the tracker answers. */
  lemma ClaimEndsByOwnWakeup(s: Orchestration, input: Input, id: string)
    requires BooksOk(s, {}) && s.rt.chan != [] && id in s.claimed && !IsWakeup(s.rt.chan[0].ev, id)
    ensures id in Apply(s, Deliver(input)).claimed
  {
    hide BooksOk, PollAndDispatch, OnWorkerExit, OnRetryTimer;
    var d := Dequeue(s);
    match s.rt.chan[0].ev
    case TickEvent => Dequeued(s); PollKeepsClaims(d, input, id);
    case WorkerExit(k, reason, err) => ExitKeepsOthers(d, k, reason, err, input, id);
    case RetryTimerFired(k) => RetryKeepsOthers(d, k, input, id);
    case _ =>
  }

  /** A handler's worst case: the tracker is down. */
  const TRACKER_DOWN := Input((_: nat) => 0, None, None, false)

  lemma BringWorkerHome(s: Orchestration, id: string) returns (steps: seq<Step>)
    requires BooksOk(s, {}) && s.rt.chan == [] && id in s.running
    ensures Legal(s, steps) && Exec(s, steps).rt.chan != [] && IsWakeup(Exec(s, steps).rt.chan[0].ev, id)
  {
    var w := s.running[id].worker;
    assert w in s.rt.live && s.rt.live[w] == id by {
      hide TimersOk, ChannelOk, FlagsOk;
      assert Owners(s.running)[id] == w && !ExitPending(s.rt.chan, w);
      assert Owners(s.running)[s.rt.live[w]] == w;
    }
    hide BooksOk;
    steps := [Exit(w, None)];
    assert steps[1..] == [];
    assert Legal(Apply(s, steps[0]), []);
  }

  lemma BringTimerHome(s: Orchestration, id: string) returns (steps: seq<Step>)
    requires BooksOk(s, {}) && s.rt.chan == [] && id in s.retry
    ensures Legal(s, steps) && Exec(s, steps).rt.chan != [] && IsWakeup(Exec(s, steps).rt.chan[0].ev, id)
  {
    var t := s.retry[id].timer;
    assert Awaited(id, Alarms(s.retry)[id], s.rt.armed, s.rt.firing, s.rt.chan);
    hide BooksOk;
    if t in s.rt.armed && s.rt.armed[t].ev == RetryTimerFired(id) {
      var fired := FireStep(s, t);
      steps := [Fire(t), Post(t)];
      assert steps[1..] == [Post(t)] && [Post(t)][1..] == [];
      assert Legal(Apply(fired, Post(t)), []);
      assert Legal(fired, [Post(t)]);
      assert Exec(fired, [Post(t)]) == PostStep(fired, t);
    } else {
      steps := [Post(t)];
      assert steps[1..] == [];
      assert Legal(Apply(s, steps[0]), []);
    }
  }

  /** From every state of every run, each claimed issue's wake-up can be delivered next after finitely
      many steps, even if the tracker never answers. */
  lemma {:induction false} WakeupReachable(s: Orchestration, id: string) returns (steps: seq<Step>)
    requires BooksOk(s, {}) && id in s.claimed
    ensures Legal(s, steps) && Exec(s, steps).rt.chan != [] && IsWakeup(Exec(s, steps).rt.chan[0].ev, id)
    decreases |s.rt.chan|
  {
    if s.rt.chan == [] {
      ClaimsDisjoint(s);
      if id in s.running { steps := BringWorkerHome(s, id); } else { steps := BringTimerHome(s, id); }
    } else if IsWakeup(s.rt.chan[0].ev, id) {
      steps := [];
    } else {
      hide BooksOk, Handle;
      var step := Deliver(TRACKER_DOWN);
      var next := Apply(s, step);
      StepKeepsBooks(s, step);
      DeliveryChannel(s, TRACKER_DOWN);
      ClaimEndsByOwnWakeup(s, TRACKER_DOWN, id);
      var rest := WakeupReachable(next, id);
      steps := [step] + rest;
      assert steps[1..] == rest;
    }
  }

  lemma NoClaimStuck(s: Orchestration, first: (Config, string), id: string) returns (steps: seq<Step>)
    requires Reached(s, first) && id in s.claimed
    ensures Legal(s, steps) && Exec(s, steps).rt.chan != [] && IsWakeup(Exec(s, steps).rt.chan[0].ev, id)
  {
    ReachedOk(s, first, 0);
    hide *;
    steps := WakeupReachable(s, id);
  }
}
