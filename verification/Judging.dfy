/** What reconciliation decides about a worker, from what the clock and the tracker say, and what comes
    of it on exit.  A tick is split into the stall check, the replies one by one and the dispatches; a run
    into its ticks, at which verdicts are given, and the other steps, which give none. */
module Judging {
  import opened Domain
  import opened State
  import opened Eligibility
  import opened Handlers
  import opened System
  import opened Wakeups
  import opened Books
  import opened Dispatching
  import opened Histories
  import opened Ledger
  import opened Accounts
  import opened Entries
  import opened Admission
  import opened Runs
  import Sorting
  import Backoff
  import Fairness
  import Liveness

  // ---------- what the world says ----------

  /** Nothing has been heard from the worker for longer than the stall timeout, counted from its last
      event or, before any, from its start. */
  predicate Overdue(cfg: Config, e: Entry, now: Time) {
    && cfg.stallTimeoutMs > 0
    && now - (if e.session.lastTimestamp == None then e.startedAt else e.session.lastTimestamp.value) > Backoff.Wrap64(cfg.stallTimeoutMs * 1_000_000)
  }

  lemma StalledExactly(cfg: Config, e: Entry, now: Time)
    ensures cfg.stallTimeoutMs > 0 ==> (IsStalled(cfg, e, now) <==> !e.terminating && Overdue(cfg, e, now))
  {
    hide Backoff.Wrap64;
    assert Backoff.Millis(cfg.stallTimeoutMs) == Backoff.Wrap64(cfg.stallTimeoutMs * 1_000_000);
  }

  /** The reply says that the issue is in a terminal state, or in none worth working on. */
  predicate Decides(cfg: Config, reply: Issue, id: string) {
    reply.id == id && (Listed(cfg.terminalStates, reply.state) || !Listed(cfg.activeStates, reply.state))
  }

  predicate FirstDeciding(cfg: Config, replies: seq<Issue>, id: string, k: nat) {
    k < |replies| && Decides(cfg, replies[k], id) && forall j :: 0 <= j < k ==> !Decides(cfg, replies[j], id)
  }

  predicate NoneDeciding(cfg: Config, replies: seq<Issue>, id: string) {
    forall j :: 0 <= j < |replies| ==> !Decides(cfg, replies[j], id)
  }

  predicate LastMention(replies: seq<Issue>, id: string, m: nat) {
    m < |replies| && replies[m].id == id && forall j :: m < j < |replies| ==> replies[j].id != id
  }

  /** The issue has been brought up to date: its state and its labels are those of the last reply. */
  ghost predicate Updated(was: Entry, now: Entry, replies: seq<Issue>, id: string) {
    && now == was.(issue := was.issue.(state := now.issue.state, labels := now.issue.labels))
    && ((forall j :: 0 <= j < |replies| ==> replies[j].id != id) ==> now == was)
    && forall m: nat :: LastMention(replies, id, m) ==> now.issue.state == replies[m].state && now.issue.labels == replies[m].labels
  }

  /** The entry is to end with a release, and with a cleanup if the state is terminal. */
  ghost predicate DroppedAs(cfg: Config, before: Entry, now: Entry, state: string) {
    now == before.(terminating := true, releaseOnExit := true, cleanupOnExit := Listed(cfg.terminalStates, state))
  }

  // ---------- one refresh ----------

  lemma SameLists(cfg: Config, state: string)
    ensures IsTerminalState(cfg, state) == Listed(cfg.terminalStates, state)
    ensures IsActiveState(cfg, state) == Listed(cfg.activeStates, state)
  {
    hide NormalizeState;
  }

  lemma OneReply(s: Orchestration, reply: Issue, id: string)
    requires id in s.running
    ensures var e, s' := s.running[id], RefreshOne(s, reply);
      && id in s'.running && s'.cfg == s.cfg && s.rt.cancelled <= s'.rt.cancelled
      && (e.terminating || reply.id != id ==> s'.running[id] == e)
      && (!e.terminating && reply.id == id && !Decides(s.cfg, reply, id) ==>
            s'.running[id] == e.(issue := e.issue.(state := reply.state, labels := reply.labels)))
      && (!e.terminating && Decides(s.cfg, reply, id) ==>
            && s'.running[id] == e.(terminating := true, releaseOnExit := true,
                                    cleanupOnExit := Listed(s.cfg.terminalStates, reply.state))
            && e.worker in s'.rt.cancelled)
  {
    hide IsTerminalState, IsActiveState, Listed;
    SameLists(s.cfg, reply.state);
  }

  lemma MentionedLater(replies: seq<Issue>, reply: Issue, id: string)
    ensures forall m: nat :: LastMention(replies + [reply], id, m) ==>
      if reply.id == id then m == |replies| else LastMention(replies, id, m)
    ensures (forall j :: 0 <= j < |replies + [reply]| ==> (replies + [reply])[j].id != id) ==>
      reply.id != id && forall j :: 0 <= j < |replies| ==> replies[j].id != id
  {
    var all := replies + [reply];
    assert all[|replies|] == reply && forall j :: 0 <= j < |replies| ==> all[j] == replies[j];
  }

  lemma UpdatedMore(was: Entry, now: Entry, later: Entry, replies: seq<Issue>, reply: Issue, id: string)
    requires Updated(was, now, replies, id)
    requires later == if reply.id == id then now.(issue := now.issue.(state := reply.state, labels := reply.labels)) else now
    ensures Updated(was, later, replies + [reply], id)
  {
    MentionedLater(replies, reply, id);
    var all := replies + [reply];
    forall m: nat | LastMention(all, id, m)
      ensures later.issue.state == all[m].state && later.issue.labels == all[m].labels
    {
      if reply.id != id { assert LastMention(replies, id, m) && all[m] == replies[m]; }
    }
  }

  lemma {:induction false} TerminatingStays(s: Orchestration, replies: seq<Issue>, id: string)
    requires id in s.running && s.running[id].terminating
    ensures var s' := Refresh(s, replies);
      id in s'.running && s'.running[id] == s.running[id] && s'.cfg == s.cfg && s.rt.cancelled <= s'.rt.cancelled
  {
    hide RefreshOne;
    if replies != [] {
      var most := replies[..|replies| - 1];
      TerminatingStays(s, most, id);
      OneReply(Refresh(s, most), replies[|replies| - 1], id);
    }
  }

  /** The replies up to the first deciding one bring the issue up to date; the first deciding one ends it;
      the rest is ignored. */
  lemma {:induction false} Replies(s: Orchestration, replies: seq<Issue>, id: string)
    requires id in s.running && !s.running[id].terminating
    ensures var e, s' := s.running[id], Refresh(s, replies);
      && id in s'.running && s'.cfg == s.cfg && s.rt.cancelled <= s'.rt.cancelled
      && (NoneDeciding(s.cfg, replies, id) ==> Updated(e, s'.running[id], replies, id))
    ensures forall k: nat :: FirstDeciding(s.cfg, replies, id, k) ==>
      var s' := Refresh(s, replies);
      s.running[id].worker in s'.rt.cancelled && EndsAt(s.cfg, s.running[id], s'.running[id], replies, k, id)
  {
    hide RefreshOne, Refresh, Decides, Updated;
    RefreshLast(s, replies);
    if replies == [] {
      NothingYet(s.running[id], id);
    } else {
      var n := |replies| - 1;
      var most, last := replies[..n], replies[n];
      var mid := Refresh(s, most);
      assert most + [last] == replies;
      Replies(s, most, id);
      OneReply(mid, last, id);
      DecidingLater(s.cfg, most, last, id);
      if NoneDeciding(s.cfg, most, id) {
        NotEnded(s.running[id], mid.running[id], most, id);
        if Decides(s.cfg, last, id) {
          EndsNow(s.cfg, s.running[id], mid.running[id], Refresh(s, replies).running[id], most, last, id);
        } else {
          UpdatedMore(s.running[id], mid.running[id], Refresh(s, replies).running[id], most, last, id);
        }
      } else {
        var k := FirstOne(s.cfg, most, id);
        EndedLong(s.cfg, s.running[id], mid.running[id], most, last, k, id);
        OnlyFirst(s.cfg, replies, id, k);
      }
    }
  }

  /** Up to date by the replies before the k-th, and then dropped by that one. */
  ghost predicate EndsAt(cfg: Config, was: Entry, now: Entry, replies: seq<Issue>, k: nat, id: string)
    requires k < |replies|
  {
    exists mid: Entry :: Updated(was, mid, replies[..k], id) && DroppedAs(cfg, mid, now, replies[k].state)
  }

  lemma RefreshLast(s: Orchestration, replies: seq<Issue>)
    ensures Refresh(s, replies) ==
      if replies == [] then s else RefreshOne(Refresh(s, replies[..|replies| - 1]), replies[|replies| - 1])
  {}

  lemma NothingYet(e: Entry, id: string)
    ensures Updated(e, e, [], id)
  {}

  lemma NotEnded(was: Entry, now: Entry, replies: seq<Issue>, id: string)
    requires Updated(was, now, replies, id)
    ensures now.terminating == was.terminating && now.worker == was.worker
  {}

  lemma DecidingLater(cfg: Config, replies: seq<Issue>, reply: Issue, id: string)
    ensures var all := replies + [reply];
      && (NoneDeciding(cfg, all, id) <==> NoneDeciding(cfg, replies, id) && !Decides(cfg, reply, id))
      && forall k: nat :: FirstDeciding(cfg, all, id, k) <==>
           FirstDeciding(cfg, replies, id, k) || (k == |replies| && NoneDeciding(cfg, replies, id) && Decides(cfg, reply, id))
  {
    hide Decides;
    var all := replies + [reply];
    assert all[|replies|] == reply && forall j :: 0 <= j < |replies| ==> all[j] == replies[j];
  }

  lemma {:induction false} FirstOne(cfg: Config, replies: seq<Issue>, id: string) returns (k: nat)
    requires !NoneDeciding(cfg, replies, id)
    ensures FirstDeciding(cfg, replies, id, k)
  {
    hide Decides;
    k := 0;
    while !Decides(cfg, replies[k], id)
      invariant 0 <= k < |replies| && forall j :: 0 <= j < k ==> !Decides(cfg, replies[j], id)
      decreases |replies| - k
    {
      k := k + 1;
    }
  }

  lemma OnlyFirst(cfg: Config, replies: seq<Issue>, id: string, k: nat)
    requires FirstDeciding(cfg, replies, id, k)
    ensures forall m: nat :: FirstDeciding(cfg, replies, id, m) ==> m == k
  {
    hide Decides;
  }

  lemma EndsNow(cfg: Config, was: Entry, mid: Entry, now: Entry, replies: seq<Issue>, reply: Issue, id: string)
    requires Updated(was, mid, replies, id) && DroppedAs(cfg, mid, now, reply.state)
    ensures EndsAt(cfg, was, now, replies + [reply], |replies|, id)
  {
    hide Updated, DroppedAs;
    assert (replies + [reply])[..|replies|] == replies;
  }

  lemma EndedLong(cfg: Config, was: Entry, now: Entry, replies: seq<Issue>, reply: Issue, k: nat, id: string)
    requires k < |replies| && EndsAt(cfg, was, now, replies, k, id)
    ensures EndsAt(cfg, was, now, replies + [reply], k, id) && now.terminating
  {
    hide Updated;
    assert (replies + [reply])[..k] == replies[..k];
  }

  // ---------- one tick ----------

  lemma StallCheck(s: Orchestration, now: Time, id: string)
    requires id in s.running
    ensures var e, s' := s.running[id], ReconcileStalls(s, now);
      && id in s'.running && s'.cfg == s.cfg && s.rt.cancelled <= s'.rt.cancelled
      && (!e.terminating && Overdue(s.cfg, e, now) ==> s'.running[id] == e.(terminating := true) && e.worker in s'.rt.cancelled)
      && (e.terminating || !Overdue(s.cfg, e, now) ==> s'.running[id] == e)
  {
    hide Backoff.Wrap64;
    assert Backoff.Millis(s.cfg.stallTimeoutMs) == Backoff.Wrap64(s.cfg.stallTimeoutMs * 1_000_000);
  }

  /** What reconciliation makes of an entry. */
  ghost predicate Judged(cfg: Config, e: Entry, now: Entry, input: Input, id: string, cancelled: set<nat>) {
    if e.terminating then now == e
    else if Overdue(cfg, e, input.clock(0)) then now == e.(terminating := true) && e.worker in cancelled
    else if input.states == None then now == e
    else
      && (NoneDeciding(cfg, input.states.value, id) ==> Updated(e, now, input.states.value, id))
      && forall k: nat :: FirstDeciding(cfg, input.states.value, id, k) ==>
           e.worker in cancelled && EndsAt(cfg, e, now, input.states.value, k, id)
  }

  lemma ReconcileJudges(s: Orchestration, input: Input, id: string)
    requires id in s.running
    ensures var s' := Reconcile(s, input.clock(0), input.states);
      id in s'.running && Judged(s.cfg, s.running[id], s'.running[id], input, id, s'.rt.cancelled)
  {
    hide ReconcileStalls, Refresh, Overdue, NoneDeciding, Updated, FirstDeciding, EndsAt;
    var e, now := s.running[id], input.clock(0);
    var stalls := ReconcileStalls(s, now);
    StallCheck(s, now, id);
    if input.states.Some? {
      if stalls.running[id].terminating {
        TerminatingStays(stalls, input.states.value, id);
      } else {
        Replies(stalls, input.states.value, id);
      }
    } else {
      assert Reconcile(s, now, input.states) == stalls;
    }
  }

  lemma {:induction false} PhaseCancels(s: Orchestration, issues: seq<Issue>, clock: nat -> Time, n: nat)
    requires n <= |issues|
    ensures DispatchUpTo(s, issues, clock, n).rt.cancelled == s.rt.cancelled
  {
    hide IsEligible, StateFull, Orchestration.GlobalAvailable;
    if n > 0 { PhaseCancels(s, issues, clock, n - 1); }
  }

  /** A tick judges each running worker: one that is already judged stays as it is; one that is overdue is
      stopped; otherwise the first deciding reply of the tracker ends it, with a cleanup exactly if the
      state it reports is a terminal one, and without such a reply the issue is brought up to date. */
  lemma TickJudges(s: Orchestration, input: Input, id: string)
    requires id in s.running
    ensures var s' := OnTick(s, input);
      id in s'.running && Judged(s.cfg, s.running[id], s'.running[id], input, id, s'.rt.cancelled)
  {
    hide Reconcile, DispatchUpTo, Judged;
    ReconcileJudges(s, input, id);
    var reconciled := Reconcile(s, input.clock(0), input.states);
    if input.candidates.Some? {
      var sorted := Sorting.SortForDispatch(input.candidates.value);
      PhaseGrew(reconciled, sorted, input.clock, 0, |sorted|);
      PhaseStart(reconciled, sorted, input.clock);
      PhaseCancels(reconciled, sorted, input.clock, |sorted|);
    }
  }

  // ---------- one step of a run ----------

  ghost predicate IsTick(s: Orchestration, step: Step) { step.Deliver? && s.rt.chan != [] && s.rt.chan[0].ev.TickEvent? }

  /** The entry of worker w in s, if it may still be judged. */
  ghost predicate Open(s: Orchestration, id: string, w: nat) {
    id in s.running && s.running[id].worker == w && !s.running[id].terminating
  }

  /** The step is a tick that finds worker w overdue. */
  ghost predicate StopsAt(s: Orchestration, step: Step, w: nat) {
    IsTick(s, step) && exists id :: Open(s, id, w) && Overdue(s.cfg, s.running[id], step.input.clock(0))
  }

  /** The step is a tick at which the tracker reports the issue of worker w, which is not overdue, in a
      state that ends the worker: a terminal one in the configuration in force, if `terminal`. */
  ghost predicate DropsAt(s: Orchestration, step: Step, w: nat, terminal: bool) {
    IsTick(s, step) && step.input.states.Some? && exists id, k: nat :: ReportsAt(s, step.input, id, k, w, terminal)
  }

  ghost predicate ReportsAt(s: Orchestration, input: Input, id: string, k: nat, w: nat, terminal: bool)
    requires input.states.Some?
  {
    && Open(s, id, w) && !Overdue(s.cfg, s.running[id], input.clock(0))
    && FirstDeciding(s.cfg, input.states.value, id, k)
    && terminal == Listed(s.cfg.terminalStates, input.states.value[k].state)
  }

  /** Without a tick no verdict is given. */
  ghost predicate Unjudged(h: History, h': History) {
    h' == h || (h'.Then? && !h'.act.Stalled? && !h'.act.Terminated? && Unjudged(h, h'.before))
  }

  lemma {:induction false} UnjudgedVerdict(h: History, h': History, w: nat)
    requires Unjudged(h, h')
    ensures VerdictOf(h', w) == VerdictOf(h, w)
  {
    if h' != h { UnjudgedVerdict(h, h'.before, w); }
  }

  lemma ExitUnjudged(s: Orchestration, id: string, reason: ExitReason, err: Option<string>, input: Input)
    ensures Unjudged(s.journal, OnWorkerExit(s, id, reason, err, input).journal)
  {
    if id in s.running {
      var entry, ended := s.running[id], EndWorker(s, id, input.clock(0));
      assert Unjudged(s.journal, s.journal);
      assert Unjudged(s.journal, Then(s.journal, Ended(entry.worker, input.clock(0), entry.session.tokens)));
      assert Unjudged(s.journal, ended.journal);
      hide EndWorker, ScheduleRetry, ExitMessage;
      RetryJournal(ended.(completed := ended.completed + {id}).Log(Completed(id)),
                   id, 1, entry.identifier, entry.issue.url, None, true, input.clock(1));
      RetryJournal(ended.Log(Failed(id, AbnormalExit)), id, entry.retryAttempt + 1, entry.identifier, entry.issue.url,
                   Some(ExitMessage(err)), false, input.clock(1));
    }
  }

  lemma WakeupUnjudged(s: Orchestration, id: string, input: Input)
    ensures Unjudged(s.journal, OnRetryTimer(s, id, input).journal)
  {
    hide IsEligible, StateFull, FindById, Orchestration.GlobalAvailable, Backoff.RetryDelay;
  }

  lemma NoTickNoVerdict(s: Orchestration, step: Step, w: nat)
    requires Enabled(s, step) && !IsTick(s, step)
    ensures VerdictOf(Apply(s, step).journal, w) == VerdictOf(s.journal, w)
  {
    hide OnTick, OnWorkerExit, OnRetryTimer, OnAgentUpdate, VerdictOf;
    assert Unjudged(s.journal, s.journal);
    if step.Deliver? {
      var d := Dequeue(s);
      match s.rt.chan[0].ev {
        case WorkerExit(id, reason, err) => ExitUnjudged(d, id, reason, err, step.input);
        case RetryTimerFired(id) => WakeupUnjudged(d, id, step.input);
        case AgentUpdate(id, msg) => UpdateJournal(d, id, msg);
        case _ =>
      }
    }
    UnjudgedVerdict(s.journal, Apply(s, step).journal, w);
  }

  // a worker without an entry is not judged

  lemma StallsUnserved(s: Orchestration, now: Time, w: nat)
    requires !Serving(s.running, w)
    ensures var s' := ReconcileStalls(s, now);
      VerdictOf(s'.journal, w) == VerdictOf(s.journal, w) && !Serving(s'.running, w)
  {
    hide IsStalled;
  }

  lemma RefreshOneUnserved(s: Orchestration, reply: Issue, w: nat)
    requires !Serving(s.running, w)
    ensures var s' := RefreshOne(s, reply);
      VerdictOf(s'.journal, w) == VerdictOf(s.journal, w) && !Serving(s'.running, w)
  {
    hide IsTerminalState, IsActiveState;
  }

  lemma {:induction false} RefreshUnserved(s: Orchestration, replies: seq<Issue>, w: nat)
    requires !Serving(s.running, w)
    ensures var s' := Refresh(s, replies);
      VerdictOf(s'.journal, w) == VerdictOf(s.journal, w) && !Serving(s'.running, w)
  {
    hide RefreshOne, Serving, VerdictOf;
    if replies != [] {
      RefreshUnserved(s, replies[..|replies| - 1], w);
      RefreshOneUnserved(Refresh(s, replies[..|replies| - 1]), replies[|replies| - 1], w);
    }
  }

  lemma {:induction false} PhaseUnjudged(s: Orchestration, issues: seq<Issue>, clock: nat -> Time, n: nat, w: nat)
    requires n <= |issues|
    ensures VerdictOf(DispatchUpTo(s, issues, clock, n).journal, w) == VerdictOf(s.journal, w)
  {
    hide IsEligible, StateFull, Orchestration.GlobalAvailable;
    if n > 0 { PhaseUnjudged(s, issues, clock, n - 1, w); }
  }

  lemma TickUnserved(s: Orchestration, input: Input, w: nat)
    requires !Serving(s.running, w)
    ensures VerdictOf(OnTick(s, input).journal, w) == VerdictOf(s.journal, w)
  {
    hide ReconcileStalls, Refresh, DispatchUpTo, Serving, VerdictOf;
    var stalls, reconciled := ReconcileStalls(s, input.clock(0)), Reconcile(s, input.clock(0), input.states);
    StallsUnserved(s, input.clock(0), w);
    if input.states.Some? { RefreshUnserved(stalls, input.states.value, w); }
    if input.candidates.Some? {
      var sorted := Sorting.SortForDispatch(input.candidates.value);
      PhaseUnjudged(reconciled, sorted, input.clock, |sorted|, w);
    }
  }

  lemma FlagsAreVerdict(s: Orchestration, first: (Config, string), id: string)
    requires LedgerOk(s, first, 0) && id in s.running
    ensures FlagsMatch(s.running[id], VerdictOf(s.journal, s.running[id].worker))
  {
    hide AttemptsOk, EndsOk, TokensOk, ClockOk, ConfigOk, VerdictOf, Terminations, Cleanups, HasEnded, FlagsMatch;
  }

  lemma EndedFlags(cfg: Config, was: Entry, now: Entry, replies: seq<Issue>, k: nat, id: string)
    requires k < |replies| && EndsAt(cfg, was, now, replies, k, id)
    ensures now.terminating && now.releaseOnExit && now.cleanupOnExit == Listed(cfg.terminalStates, replies[k].state)
    ensures now.worker == was.worker
  {
    hide LastMention, Listed;
  }

  lemma UpdatedFlags(was: Entry, now: Entry, replies: seq<Issue>, id: string)
    requires Updated(was, now, replies, id)
    ensures now.terminating == was.terminating && now.releaseOnExit == was.releaseOnExit && now.cleanupOnExit == was.cleanupOnExit
    ensures now.worker == was.worker
  {}

  /** The verdict a tick gives on the worker of a running issue. */
  lemma TickVerdict(s: Orchestration, input: Input, first: (Config, string), id: string)
    requires LedgerOk(s, first, 0) && LedgerOk(OnTick(s, input), first, 0) && id in s.running
    ensures var e := s.running[id];
      var v, v' := VerdictOf(s.journal, e.worker), VerdictOf(OnTick(s, input).journal, e.worker);
      && (e.terminating ==> v' == v)
      && (!e.terminating ==> v == Untouched)
      && (!e.terminating && Overdue(s.cfg, e, input.clock(0)) ==> v' == Stopped)
      && (!e.terminating && !Overdue(s.cfg, e, input.clock(0)) ==>
            && (input.states == None || NoneDeciding(s.cfg, input.states.value, id) ==> v' == v)
            && (input.states.Some? ==> forall k: nat :: FirstDeciding(s.cfg, input.states.value, id, k) ==>
                  v' == Dropped(Listed(s.cfg.terminalStates, input.states.value[k].state))))
  {
    hide LedgerOk, OnTick, VerdictOf, Overdue, NoneDeciding, FirstDeciding, Updated, EndsAt, Listed;
    var e, s' := s.running[id], OnTick(s, input);
    TickJudges(s, input, id);
    var e' := s'.running[id];
    FlagsAreVerdict(s, first, id);
    if !e.terminating && !Overdue(s.cfg, e, input.clock(0)) && input.states.Some? {
      if NoneDeciding(s.cfg, input.states.value, id) {
        UpdatedFlags(e, e', input.states.value, id);
      } else {
        var k := FirstOne(s.cfg, input.states.value, id);
        OnlyFirst(s.cfg, input.states.value, id, k);
        InRange(s.cfg, input.states.value, id, k);
        EndedFlags(s.cfg, e, e', input.states.value, k, id);
      }
      NotBoth(s.cfg, input.states.value, id);
    }
    FlagsAreVerdict(s', first, id);
  }

  lemma InRange(cfg: Config, replies: seq<Issue>, id: string, k: nat)
    requires FirstDeciding(cfg, replies, id, k)
    ensures k < |replies|
  {}

  lemma NotBoth(cfg: Config, replies: seq<Issue>, id: string)
    ensures NoneDeciding(cfg, replies, id) ==> forall k: nat :: !FirstDeciding(cfg, replies, id, k)
  {}

  /** A tick that stops a worker, or drops it, gives its first and only verdict; no other step gives any. */
  lemma StepVerdict(s: Orchestration, step: Step, first: (Config, string), w: nat)
    requires Reached(s, first) && Enabled(s, step)
    ensures var v, v' := VerdictOf(s.journal, w), VerdictOf(Apply(s, step).journal, w);
      && (StopsAt(s, step, w) ==> v == Untouched && v' == Stopped)
      && (forall terminal :: DropsAt(s, step, w, terminal) ==> v == Untouched && v' == Dropped(terminal))
      && (!StopsAt(s, step, w) && !DropsAt(s, step, w, true) && !DropsAt(s, step, w, false) ==> v' == v)
  {
    hide *;
    if IsTick(s, step) {
      TickStep(s, step);
      ReachedOk(s, first, 0);
      StepRecorded(s, step, first, 0);
      DequeueRecorded(s, first, 0);
      OneEach(s, {});
      if Serving(s.running, w) {
        var id := EntryOf(s, w);
        TickVerdict(Dequeue(s), step.input, first, id);
        ServedVerdict(s, step, id, w, VerdictOf(s.journal, w), VerdictOf(Apply(s, step).journal, w));
      } else {
        TickUnserved(Dequeue(s), step.input, w);
        NobodyJudged(s, step, w);
      }
    } else {
      NoTickNoVerdict(s, step, w);
      NobodyJudged(s, step, w);
    }
  }

  lemma TickStep(s: Orchestration, step: Step)
    requires IsTick(s, step)
    ensures step.Deliver? && s.rt.chan != [] && Apply(s, step) == OnTick(Dequeue(s), step.input)
    ensures Dequeue(s).running == s.running && Dequeue(s).cfg == s.cfg && Dequeue(s).journal == s.journal
    ensures !s.rt.chan[0].ev.WorkerExit? && !s.rt.chan[0].ev.AgentUpdate?
  {
    hide OnTick;
  }

  lemma EntryOf(s: Orchestration, w: nat) returns (id: string)
    requires Serving(s.running, w)
    ensures id in s.running && s.running[id].worker == w
  {
    id :| id in s.running && s.running[id].worker == w;
  }

  /** The tick's verdict on the one entry of the worker, put in terms of the worker. */
  lemma ServedVerdict(s: Orchestration, step: Step, id: string, w: nat, v: Verdict, v': Verdict)
    requires IsTick(s, step) && OneEntryEach(s.running) && id in s.running && s.running[id].worker == w
    requires s.running[id].terminating ==> v' == v
    requires !s.running[id].terminating ==> v == Untouched
    requires !s.running[id].terminating && Overdue(s.cfg, s.running[id], step.input.clock(0)) ==> v' == Stopped
    requires !s.running[id].terminating && !Overdue(s.cfg, s.running[id], step.input.clock(0)) ==>
      && (step.input.states == None || NoneDeciding(s.cfg, step.input.states.value, id) ==> v' == v)
      && (step.input.states.Some? ==> forall k: nat :: FirstDeciding(s.cfg, step.input.states.value, id, k) ==>
            v' == Dropped(Listed(s.cfg.terminalStates, step.input.states.value[k].state)))
    ensures StopsAt(s, step, w) ==> v == Untouched && v' == Stopped
    ensures forall terminal :: DropsAt(s, step, w, terminal) ==> v == Untouched && v' == Dropped(terminal)
    ensures !StopsAt(s, step, w) && !DropsAt(s, step, w, true) && !DropsAt(s, step, w, false) ==> v' == v
  {
    hide Overdue, Listed, Decides;
    assert forall i :: i in s.running && s.running[i].worker == w ==> i == id;
    if Open(s, id, w) && !Overdue(s.cfg, s.running[id], step.input.clock(0)) && step.input.states.Some?
       && !NoneDeciding(s.cfg, step.input.states.value, id) {
      var k := FirstOne(s.cfg, step.input.states.value, id);
      Reported(s, step, id, k, w);
    }
  }

  lemma Reported(s: Orchestration, step: Step, id: string, k: nat, w: nat)
    requires IsTick(s, step) && step.input.states.Some? && Open(s, id, w)
    requires !Overdue(s.cfg, s.running[id], step.input.clock(0)) && FirstDeciding(s.cfg, step.input.states.value, id, k)
    ensures DropsAt(s, step, w, Listed(s.cfg.terminalStates, step.input.states.value[k].state))
  {
    hide Overdue, Listed, Decides;
    assert ReportsAt(s, step.input, id, k, w, Listed(s.cfg.terminalStates, step.input.states.value[k].state));
  }

  lemma NobodyJudged(s: Orchestration, step: Step, w: nat)
    requires !IsTick(s, step) || !Serving(s.running, w)
    ensures !StopsAt(s, step, w) && forall terminal :: !DropsAt(s, step, w, terminal)
  {}

  // ---------- runs ----------

  /** What can happen to a worker: a tick stops it, a tick drops it, its exit is handled. */
  datatype Mark = Stop | Drop(terminal: bool) | Leave

  ghost predicate Marks(s: Orchestration, step: Step, w: nat, mark: Mark) {
    match mark
    case Stop => StopsAt(s, step, w)
    case Drop(terminal) => DropsAt(s, step, w, terminal)
    case Leave => step.Deliver? && s.rt.chan != [] && IsExitOf(s.rt.chan[0], w)
  }

  /** It happened at some step of the run. */
  ghost predicate Was(s: Orchestration, steps: seq<Step>, w: nat, mark: Mark) {
    exists k: nat :: k < |steps| && Legal(s, steps[..k]) && Marks(Exec(s, steps[..k]), steps[k], w, mark)
  }

  lemma WasNever(s: Orchestration, w: nat, mark: Mark)
    ensures !Was(s, [], w, mark)
  {}

  lemma WasBefore(s: Orchestration, steps: seq<Step>, w: nat, mark: Mark)
    requires Legal(s, steps) && steps != []
    ensures var most, last := steps[..|steps| - 1], steps[|steps| - 1];
      Legal(s, most) && (Was(s, steps, w, mark) <==> Was(s, most, w, mark) || Marks(Exec(s, most), last, w, mark))
  {
    hide Marks, Legal, Exec;
    LastStep(s, steps);
    var most, n := steps[..|steps| - 1], |steps| - 1;
    if Was(s, steps, w, mark) {
      var k: nat :| k < |steps| && Legal(s, steps[..k]) && Marks(Exec(s, steps[..k]), steps[k], w, mark);
      if k < n { assert most[..k] == steps[..k] && most[k] == steps[k]; }
    }
    if Was(s, most, w, mark) {
      var k: nat :| k < |most| && Legal(s, most[..k]) && Marks(Exec(s, most[..k]), most[k], w, mark);
      assert most[..k] == steps[..k] && most[k] == steps[k];
    }
    if Marks(Exec(s, most), steps[n], w, mark) { assert steps[..n] == most; }
  }

  /** In every run the verdict on a worker is what the clock and the tracker said when it was given:
      stopped exactly if some tick found it overdue, dropped exactly if some tick had the tracker report
      its issue in a state that ends it - for cleanup exactly if that state was a terminal one. */
  lemma {:induction false} VerdictIsReported(first: (Config, string), queued: seq<Event>, steps: seq<Step>, w: nat)
    requires CanStart(queued) && Legal(Startup(first.0, first.1, queued), steps)
    ensures var s0 := Startup(first.0, first.1, queued);
      var v := VerdictOf(Exec(s0, steps).journal, w);
      && (v == Stopped <==> Was(s0, steps, w, Stop))
      && (forall terminal :: v == Dropped(terminal) <==> Was(s0, steps, w, Drop(terminal)))
    decreases |steps|
  {
    hide *;
    var s0 := Startup(first.0, first.1, queued);
    if steps == [] {
      FreshVerdict(first, queued, w);
      forall mark
        ensures !Was(s0, [], w, mark)
      {
        WasNever(s0, w, mark);
      }
    } else {
      var most, last := steps[..|steps| - 1], steps[|steps| - 1];
      LastStep(s0, steps);
      var s := Exec(s0, most);
      VerdictIsReported(first, queued, most, w);
      Reaches(first, queued, most);
      StepVerdict(s, last, first, w);
      MarksMean(s, last, w);
      forall mark
        ensures Was(s0, steps, w, mark) <==> Was(s0, most, w, mark) || Marks(s, last, w, mark)
      {
        WasBefore(s0, steps, w, mark);
      }
      VerdictsJoin(VerdictOf(s.journal, w), VerdictOf(Apply(s, last).journal, w), Was(s0, most, w, Stop), Marks(s, last, w, Stop),
                   (terminal: bool) => Was(s0, most, w, Drop(terminal)), (terminal: bool) => Marks(s, last, w, Drop(terminal)));
    }
  }

  lemma MarksMean(s: Orchestration, step: Step, w: nat)
    ensures Marks(s, step, w, Stop) == StopsAt(s, step, w)
    ensures forall terminal :: Marks(s, step, w, Drop(terminal)) == DropsAt(s, step, w, terminal)
  {
    hide StopsAt, DropsAt;
  }

  lemma FreshVerdict(first: (Config, string), queued: seq<Event>, w: nat)
    ensures Legal(Startup(first.0, first.1, queued), [])
    ensures VerdictOf(Exec(Startup(first.0, first.1, queued), []).journal, w) == Untouched
  {}

  /** A verdict is given once. */
  lemma VerdictsJoin(v: Verdict, v': Verdict, wasStopped: bool, stops: bool, wasDropped: bool -> bool, drops: bool -> bool)
    requires (v == Stopped <==> wasStopped) && forall t :: v == Dropped(t) <==> wasDropped(t)
    requires (stops ==> v == Untouched && v' == Stopped) && forall t :: drops(t) ==> v == Untouched && v' == Dropped(t)
    requires !stops && !drops(true) && !drops(false) ==> v' == v
    ensures (v' == Stopped <==> wasStopped || stops) && forall t :: v' == Dropped(t) <==> wasDropped(t) || drops(t)
  {}

  // ---------- exits and cleanups ----------

  lemma StepEnds(s: Orchestration, step: Step, first: (Config, string), w: nat)
    requires Reached(s, first) && Enabled(s, step)
    ensures HasEnded(Apply(s, step).journal, w) <==> HasEnded(s.journal, w) || Marks(s, step, w, Leave)
  {
    hide *;
    var s' := Apply(s, step);
    ReachedOk(s, first, 0);
    StepKeepsBooks(s, step);
    StepRecorded(s, step, first, 0);
    StepExtends(s, step);
    TerminationsGrow(s.journal, s'.journal, w);
    EndedIffUnserved(s, first, w);
    EndedIffUnserved(s', first, w);
    StepLive(s, step);
    Fairness.StepChannel(s, step);
    if Marks(s, step, w, Leave) {
      LeavesEntry(s, step, w);
    } else {
      StaysServed(s, step, w);
    }
  }

  lemma EndedIffUnserved(s: Orchestration, first: (Config, string), w: nat)
    requires LedgerOk(s, first, 0)
    ensures HasEnded(s.journal, w) <==> w < s.rt.nextWorker && !Serving(s.running, w)
  {
    hide AttemptsOk, TokensOk, ClockOk, ConfigOk, VerdictsOk, HasEnded, Serving;
  }

  /** A handled exit takes the worker's entry. */
  lemma LeavesEntry(s: Orchestration, step: Step, w: nat)
    requires BooksOk(s, {}) && Enabled(s, step) && Marks(s, step, w, Leave)
    ensures !Serving(Apply(s, step).running, w) && w < Apply(s, step).rt.nextWorker
  {
    hide BooksOk, OnWorkerExit;
    Liveness.NoStaleMessage(s);
    OneEach(s, {});
    BooksNumbered(s);
    var d := Dequeue(s);
    var WorkerExit(id, reason, err) := s.rt.chan[0].ev;
    ExitRunning(d, id, reason, err, step.input);
    HandleDescends(d, s.rt.chan[0].ev, step.input);
  }

  lemma ExitRunning(s: Orchestration, id: string, reason: ExitReason, err: Option<string>, input: Input)
    requires id in s.running
    ensures OnWorkerExit(s, id, reason, err, input).running == s.running - {id}
  {
    hide Backoff.RetryDelay, ExitMessage;
  }

  /** Without its exit, a worker that serves an entry goes on serving one, and a new one serves one. */
  lemma StaysServed(s: Orchestration, step: Step, w: nat)
    requires BooksOk(s, {}) && Enabled(s, step) && BooksOk(Apply(s, step), {}) && !Marks(s, step, w, Leave)
    ensures Serving(s.running, w) ==> Serving(Apply(s, step).running, w)
    ensures s.rt.nextWorker <= w < Apply(s, step).rt.nextWorker ==> Serving(Apply(s, step).running, w)
  {
    hide BooksOk, Apply, Serving;
    var s' := Apply(s, step);
    StepLive(s, step);
    PendingStays(s, step, w);
    if Serving(s.running, w) { AliveOrLeaving(s, w); }
    if w in s'.rt.live { LiveServes(s', w); }
    LeavingServes(s', w);
  }

  lemma AliveOrLeaving(s: Orchestration, w: nat)
    requires BooksOk(s, {}) && Serving(s.running, w)
    ensures w in s.rt.live || ExitPending(s.rt.chan, w)
  {
    hide ChannelOk, TimersOk, FlagsOk, ClaimsOk, ExitPending;
    var id :| id in s.running && s.running[id].worker == w;
    assert Owners(s.running)[id] == w;
  }

  lemma LeavingServes(s: Orchestration, w: nat)
    requires BooksOk(s, {})
    ensures ExitPending(s.rt.chan, w) ==> Serving(s.running, w)
  {
    hide WorkersOk, TimersOk, FlagsOk, ClaimsOk;
    if ExitPending(s.rt.chan, w) {
      var i :| 0 <= i < |s.rt.chan| && IsExitOf(s.rt.chan[i], w);
      assert WellSent(s.rt.chan[i], Owners(s.running), Alarms(s.retry));
      assert s.running[s.rt.chan[i].ev.id].worker == w;
    }
  }

  lemma PendingStays(s: Orchestration, step: Step, w: nat)
    requires BooksOk(s, {}) && Enabled(s, step) && !Marks(s, step, w, Leave)
    ensures ExitPending(s.rt.chan, w) || (step.Exit? && step.worker == w) ==> ExitPending(Apply(s, step).rt.chan, w)
  {
    hide BooksOk, Handle, ExitPending;
    var s' := Apply(s, step);
    Fairness.StepChannel(s, step);
    if step.Deliver? {
      TailPending(s.rt.chan, w);
    } else {
      LongerPending(s.rt.chan, s'.rt.chan, w);
      if step.Exit? && step.worker == w {
        SnocPending(s.rt.chan, s'.rt.chan[|s.rt.chan|], w);
      }
    }
  }

  lemma LongerPending(chan: seq<Message>, longer: seq<Message>, w: nat)
    requires chan <= longer
    ensures ExitPending(chan, w) ==> ExitPending(longer, w)
  {
    if ExitPending(chan, w) {
      var i :| 0 <= i < |chan| && IsExitOf(chan[i], w);
      assert IsExitOf(longer[i], w);
    }
  }

  /** A worker's entry has ended exactly if its exit has been handled. */
  lemma {:induction false} EndsWithExit(first: (Config, string), queued: seq<Event>, steps: seq<Step>, w: nat)
    requires CanStart(queued) && Legal(Startup(first.0, first.1, queued), steps)
    ensures var s0 := Startup(first.0, first.1, queued);
      HasEnded(Exec(s0, steps).journal, w) <==> Was(s0, steps, w, Leave)
    decreases |steps|
  {
    hide *;
    var s0 := Startup(first.0, first.1, queued);
    if steps == [] {
      FreshEnd(first, queued, w);
      WasNever(s0, w, Leave);
    } else {
      var most, last := steps[..|steps| - 1], steps[|steps| - 1];
      LastStep(s0, steps);
      EndsWithExit(first, queued, most, w);
      Reaches(first, queued, most);
      StepEnds(Exec(s0, most), last, first, w);
      WasBefore(s0, steps, w, Leave);
    }
  }

  lemma FreshEnd(first: (Config, string), queued: seq<Event>, w: nat)
    ensures Legal(Startup(first.0, first.1, queued), [])
    ensures !HasEnded(Exec(Startup(first.0, first.1, queued), []).journal, w)
  {}

  /** In every run a worker's workspace is cleaned up on exit, once, exactly if its exit has been handled
      and before that some tick had the tracker report its issue in a terminal state. */
  lemma CleanupIsReported(first: (Config, string), queued: seq<Event>, steps: seq<Step>, w: nat)
    requires CanStart(queued) && Legal(Startup(first.0, first.1, queued), steps)
    ensures var s0 := Startup(first.0, first.1, queued);
      Cleanups(Exec(s0, steps).journal, w) == if Was(s0, steps, w, Leave) && Was(s0, steps, w, Drop(true)) then 1 else 0
  {
    hide *;
    var s0 := Startup(first.0, first.1, queued);
    Reaches(first, queued, steps);
    CleanupExactlyOnce(Exec(s0, steps), first, w);
    VerdictIsReported(first, queued, steps, w);
    EndsWithExit(first, queued, steps, w);
  }
}
