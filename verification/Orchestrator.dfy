/** The orchestrator as the source has it: an object whose handlers update its maps, entries and
    counters in place.  Every method is proved against the function of the same name in Handlers, so
    what System, Books, Accounts and Runs prove about those functions holds of this object. */
module OrchestratorLoop {
  import opened Domain
  import opened State
  import opened Eligibility
  import opened Handlers
  import H = Handlers
  import System
  import Sorting
  import Backoff

  /** One in-flight worker. */
  class RunningEntry {
    const identifier: string
    var issue: Issue
    const worker: nat
    const startedAt: Time
    var session: Session
    const retryAttempt: int
    var terminating: bool
    var cleanupOnExit: bool
    var releaseOnExit: bool

    constructor (issue: Issue, worker: nat, startedAt: Time, retryAttempt: int)
      ensures Value() == Entry(issue.identifier, issue, worker, startedAt, NewSession, retryAttempt, false, false, false)
    {
      this.identifier, this.issue := issue.identifier, issue;
      this.worker, this.startedAt, this.retryAttempt := worker, startedAt, retryAttempt;
      session := NewSession;
      terminating, cleanupOnExit, releaseOnExit := false, false, false;
    }

    ghost function Value(): Entry
      reads this
    {
      Entry(identifier, issue, worker, startedAt, session, retryAttempt, terminating, cleanupOnExit, releaseOnExit)
    }

    /** onAgentUpdate, as far as it concerns this entry's session. */
    method Update(m: AgentEvent)
      modifies this`session
      ensures Value() == old(Value()).(session := UpdateSession(old(session), m))
    {
      hide UpdateSession;
      UpdateActivity(m);
      UpdateCounters(m);
      UpdateParts(old(session), m);
    }

    /** What an event says: its time, kind and message. */
    static ghost function Told(e: Session, m: AgentEvent): Session {
      var e1 := e.(lastTimestamp := Some(m.timestamp), lastEvent := Some(m.kind));
      if m.message != "" then
        e1.(lastMessage := Truncate(m.message), activity := AppendActivity(e1.activity, ActivityOf(m)))
      else e1
    }

    /** What an event counts: session, turn, process and tokens. */
    static ghost function Tallied(e: Session, m: AgentEvent): Session {
      var e1 := if m.sessionId != "" && m.sessionId != PENDING then e.(sessionId := m.sessionId, threadId := m.sessionId) else e;
      var turns := if m.turnNumber.Some? && m.turnNumber.value > e1.turnCount then m.turnNumber.value else e1.turnCount;
      var e2 := if m.turnId != "" then e1.(turnId := m.turnId, turnCount := turns) else e1;
      var e3 := if m.pid.Some? then e2.(pid := m.pid) else e2;
      if m.usage.Some? then e3.(tokens := e3.tokens.Plus(m.usage.value), lastReported := m.usage.value) else e3
    }

    static lemma UpdateParts(e: Session, m: AgentEvent)
      ensures UpdateSession(e, m) == Tallied(Told(e, m), m)
    {
      hide Truncate, AppendActivity, ActivityOf, Usage.Plus;
    }

    method UpdateActivity(m: AgentEvent)
      modifies this`session
      ensures session == Told(old(session), m)
    {
      hide Truncate, AppendActivity, ActivityOf;
      session := session.(lastTimestamp := Some(m.timestamp), lastEvent := Some(m.kind));
      if m.message != "" {
        session := session.(lastMessage := Truncate(m.message));
        session := session.(activity := AppendActivity(session.activity, ActivityOf(m)));
      }
    }

    method UpdateCounters(m: AgentEvent)
      modifies this`session
      ensures session == Tallied(old(session), m)
    {
      hide Usage.Plus;
      if m.sessionId != "" && m.sessionId != PENDING {
        session := session.(sessionId := m.sessionId, threadId := m.sessionId);
      }
      if m.turnId != "" {
        session := session.(turnId := m.turnId);
        if m.turnNumber.Some? && m.turnNumber.value > session.turnCount {
          session := session.(turnCount := m.turnNumber.value);
        }
      }
      if m.pid.Some? {
        session := session.(pid := m.pid);
      }
      if m.usage.Some? {
        session := session.(tokens := session.tokens.Plus(m.usage.value), lastReported := m.usage.value);
      }
    }

    /** What stall detection marks. */
    method Stop()
      modifies this`terminating
      ensures Value() == old(Value()).(terminating := true)
    {
      terminating := true;
    }

    /** What a tracker state outside the active ones marks. */
    method Drop(cleanup: bool, release: bool)
      modifies this`terminating, this`cleanupOnExit, this`releaseOnExit
      ensures Value() == old(Value()).(terminating := true, cleanupOnExit := cleanup, releaseOnExit := release)
    {
      terminating := true;
      cleanupOnExit := cleanup;
      releaseOnExit := release;
    }

    /** The refreshed parts of a still active issue. */
    method Relabel(state: string, labels: seq<string>)
      modifies this`issue
      ensures Value() == old(Value()).(issue := old(issue).(state := state, labels := labels))
    {
      issue := issue.(state := state, labels := labels);
    }

    function LastActivity(): (t: Time)
      reads this
      ensures t == Value().LastActivity()
    {
      if session.lastTimestamp.Some? then session.lastTimestamp.value else startedAt
    }
  }

  class Orchestrator {
    var cfg: Config
    var template: string
    var pollIntervalMs: int
    var maxConcurrent: int
    var running: map<string, RunningEntry>
    var claimed: set<string>
    var retry: map<string, Retry>
    var completed: set<string>
    var totals: Usage
    var endedNs: int
    var rateLimits: Option<string>
    var tickTimer: Option<nat>
    var rt: Runtime
    ghost var journal: History

    /** Each running issue has its own entry object. */
    ghost predicate Valid()
      reads this`running
    {
      forall a, b :: a in running && b in running && a != b ==> running[a] != running[b]
    }

    ghost function View(): map<string, Entry>
      reads this`running, running.Values
    {
      map id | id in running :: running[id].Value()
    }

    /** The abstract state. */
    ghost function S(): Orchestration
      reads this, running.Values
    {
      Orchestration(cfg, template, pollIntervalMs, maxConcurrent, View(), claimed, retry, completed, totals, endedNs,
                    rateLimits, tickTimer, rt, journal)
    }

    /** Run, up to its loop; `queued` is what others have posted by then. */
    constructor (cfg: Config, template: string, queued: seq<Event>)
      ensures Valid() && running == map[]
      ensures S() == System.Startup(cfg, template, queued)
    {
      this.cfg, this.template, this.pollIntervalMs, this.maxConcurrent := cfg, template, cfg.pollIntervalMs, cfg.maxConcurrent;
      running, claimed, retry, completed := map[], {}, map[], {};
      totals, endedNs, rateLimits, tickTimer := NoUsage, 0, None, None;
      rt := FreshRuntime.(chan := seq(|queued|, i requires 0 <= i < |queued| => Message(queued[i], External)));
      journal := Start;
      new;
      ScheduleTick(0);
    }

    // ---------- timers ----------

    method ScheduleTick(delay: int)
      requires Valid()
      modifies this`rt, this`tickTimer
      ensures Valid() && S() == H.ScheduleTick(old(S()), delay)
    {
      if tickTimer.Some? {
        rt := rt.Stop(tickTimer.value);
      }
      tickTimer := Some(rt.nextTimer);
      rt := rt.AfterFunc(delay, TickEvent);
    }

    method RemoveRetryTimer(id: string)
      requires Valid()
      modifies this`rt, this`retry
      ensures Valid() && S() == H.RemoveRetryTimer(old(S()), id)
    {
      if id in retry {
        rt := rt.Stop(retry[id].timer);
        retry := retry - {id};
      }
    }

    method ScheduleRetry(id: string, attempt: int, identifier: string, url: Option<string>, error: Option<string>,
                         continuation: bool, now: Time)
      requires Valid()
      modifies this`rt, this`retry, this`claimed
      ensures Valid() && S() == H.ScheduleRetry(old(S()), id, attempt, identifier, url, error, continuation, now)
    {
      hide Valid, View, Backoff.Millis, Backoff.FailureMs, H.RemoveRetryTimer;
      RemoveRetryTimer(id);
      var clamped, delay := attempt, 0;
      if continuation {
        delay := Backoff.Millis(Backoff.CONTINUATION_MS);
      } else {
        if attempt < 1 {
          clamped := 1;
        }
        delay := Backoff.Millis(Backoff.FailureMs(clamped, cfg.maxRetryBackoffMs));
      }
      retry := retry[id := Retry(identifier, clamped, (now + delay) / Backoff.NS_PER_MS, rt.nextTimer, error, url)];
      rt := rt.AfterFunc(delay, RetryTimerFired(id));
      claimed := claimed + {id};
    }

    /** A failed attempt, and the retry it leads to. */
    method Fail(id: string, kind: FailureKind, attempt: int, identifier: string, url: Option<string>, error: string, now: Time)
      requires Valid()
      modifies this`rt, this`retry, this`claimed, this`journal
      ensures Valid()
      ensures S() == H.ScheduleRetry(old(S()).(journal := Then(old(journal), Failed(id, kind))),
                                     id, attempt, identifier, url, Some(error), false, now)
    {
      hide Valid, View, H.ScheduleRetry;
      journal := Then(journal, Failed(id, kind));
      ScheduleRetry(id, attempt, identifier, url, Some(error), false, now);
    }

    // ---------- dispatch ----------

    method AddEntry(issue: Issue, attempt: Option<int>, at: Time)
      requires Valid()
      modifies this`running
      ensures Valid() && View() == old(View())[issue.id := NewEntry(issue, rt.nextWorker, at, attempt)]
      ensures forall e :: e in running.Values ==> e in old(running.Values) || fresh(e)
    {
      var entry := new RunningEntry(issue, rt.nextWorker, at, NormalizeAttempt(attempt));
      running := running[issue.id := entry];
    }

    method DispatchIssue(issue: Issue, attempt: Option<int>, at: Time)
      requires Valid()
      modifies this`rt, this`retry, this`claimed, this`running, this`journal
      ensures Valid() && S() == H.DispatchIssue(old(S()), issue, attempt, at)
      ensures forall e :: e in running.Values ==> e in old(running.Values) || fresh(e)
    {
      hide H.DispatchIssue, H.RemoveRetryTimer, NewEntry, Runtime.Go, Valid, View, RunningEntry.Value;
      ghost var s0, worker := S(), rt.nextWorker;
      AddEntry(issue, attempt, at);
      claimed := claimed + {issue.id};
      RemoveRetryTimer(issue.id);
      rt := rt.Go(issue.id);
      journal := Then(journal, Dispatched(issue.id, worker, attempt.None?, at));
      DispatchParts(s0, issue, attempt, at);
    }

    static lemma DispatchParts(s: Orchestration, issue: Issue, attempt: Option<int>, at: Time)
      ensures var n := s.rt.nextWorker;
        var entered := s.(running := s.running[issue.id := NewEntry(issue, n, at, attempt)], claimed := s.claimed + {issue.id});
        var recorded := H.RemoveRetryTimer(entered, issue.id);
        H.DispatchIssue(s, issue, attempt, at) ==
          recorded.(rt := recorded.rt.Go(issue.id), journal := Then(recorded.journal, Dispatched(issue.id, n, attempt.None?, at)))
    {}

    // ---------- slots ----------

    function GlobalAvailable(): (free: int)
      reads this, running.Values
      ensures free == S().GlobalAvailable()
    {
      assert |View()| == |running| by {
        assert View().Keys == running.Keys;
        assert |View()| == |View().Keys| && |running| == |running.Keys|;
      }
      if maxConcurrent - |running| < 0 then 0 else maxConcurrent - |running|
    }

    lemma Tracked(state: string, id: string)
      requires id in running
      ensures id in IdsInState(View(), state) <==> NormalizeState(running[id].issue.state) == NormalizeState(state)
    {
      hide NormalizeState;
    }

    /** n of the ids in `seen` are in `ids`. */
    static ghost predicate Counted(ids: set<string>, seen: set<string>, n: int) { n == |seen * ids| }

    static lemma CountedNext(ids: set<string>, seen: set<string>, n: int, id: string)
      requires Counted(ids, seen, n) && id !in seen
      ensures Counted(ids, seen + {id}, if id in ids then n + 1 else n)
    {
      if id in ids {
        assert (seen + {id}) * ids == seen * ids + {id};
      } else {
        assert (seen + {id}) * ids == seen * ids;
      }
    }

    lemma AllCounted(state: string, n: int)
      ensures Counted(IdsInState(View(), state), {}, 0)
      ensures Counted(IdsInState(View(), state), running.Keys, n) <==> n == CountByState(View(), state)
    {
      hide NormalizeState;
      var ids := IdsInState(View(), state);
      assert running.Keys * ids == ids && {} * ids == {};
    }

    method RunningCountByState(state: string) returns (n: int)
      ensures n == CountByState(View(), state)
    {
      hide *;
      n := 0;
      var target := NormalizeState(state);
      ghost var ids, seen: set<string> := IdsInState(View(), state), {};
      var left := running.Keys;
      AllCounted(state, n);
      WalkEnds(running.Keys, left, seen);
      while left != {}
        invariant Walk(running.Keys, left, seen) && Counted(ids, seen, n)
        decreases |left|
      {
        var id :| id in left;
        WalkStep(running.Keys, left, seen, id);
        Tracked(state, id);
        CountedNext(ids, seen, n, id);
        if NormalizeState(running[id].issue.state) == target {
          n := n + 1;
        }
        left, seen := left - {id}, seen + {id};
      }
      WalkEnds(running.Keys, left, seen);
      AllCounted(state, n);
    }

    // ---------- agent updates ----------

    /** Changing one entry object changes the abstract map at its id alone. */
    twostate lemma EntryChanged(id: string)
      requires old(Valid()) && id in old(running) && running == old(running)
      requires forall k :: k in running && k != id ==> running[k].Value() == old(running[k].Value())
      ensures View() == old(View())[id := running[id].Value()]
    {}

    method OnAgentUpdate(id: string, m: AgentEvent)
      requires Valid()
      modifies this`totals, this`rateLimits, running.Values
      ensures Valid() && S() == H.OnAgentUpdate(old(S()), id, m)
    {
      hide UpdateSession, Valid, View, Usage.Plus, H.OnAgentUpdate;
      ghost var s0 := S();
      if id !in running {
        UpdateParts(s0, id, m);
        EntryThere(id);
        return;
      }
      var e := running[id];
      EntryThere(id);
      UpdateParts(s0, id, m);
      UpdateEntry(id, m);
      if m.usage.Some? {
        totals := totals.Plus(m.usage.value);
      }
      if m.rateLimits.Some? {
        rateLimits := m.rateLimits;
      }
    }

    method UpdateEntry(id: string, m: AgentEvent)
      requires Valid() && id in running
      modifies running.Values
      ensures Valid()
      ensures var e := old(View())[id]; View() == old(View())[id := e.(session := UpdateSession(e.session, m))]
    {
      hide UpdateSession;
      running[id].Update(m);
      EntryChanged(id);
    }

    lemma EntryThere(id: string)
      ensures id in running <==> id in View()
    {}

    static lemma UpdateParts(s: Orchestration, id: string, m: AgentEvent)
      ensures H.OnAgentUpdate(s, id, m) ==
        if id !in s.running then s
        else
          var e := s.running[id];
          s.(running := s.running[id := e.(session := UpdateSession(e.session, m))],
             totals := if m.usage.Some? then s.totals.Plus(m.usage.value) else s.totals,
             rateLimits := if m.rateLimits.Some? then m.rateLimits else s.rateLimits)
    {
      hide UpdateSession;
    }

    // ---------- worker exit ----------

    /** A normal exit, and the continuation retry it leads to. */
    method Complete(id: string, identifier: string, url: Option<string>, now: Time)
      requires Valid()
      modifies this`rt, this`retry, this`claimed, this`journal, this`completed
      ensures Valid()
      ensures S() == H.ScheduleRetry(old(S()).(completed := old(completed) + {id}, journal := Then(old(journal), Completed(id))),
                                     id, 1, identifier, url, None, true, now)
    {
      hide Valid, View, H.ScheduleRetry;
      completed := completed + {id};
      journal := Then(journal, Completed(id));
      ScheduleRetry(id, 1, identifier, url, None, true, now);
    }

    method RemoveEntry(id: string) returns (entry: RunningEntry)
      requires Valid() && id in running
      modifies this`running
      ensures Valid() && View() == old(View()) - {id}
      ensures entry == old(running[id]) && running.Values <= old(running.Values)
    {
      entry := running[id];
      running := running - {id};
    }

    method EndEntry(id: string, now: Time) returns (entry: RunningEntry)
      requires Valid() && id in running
      modifies this`running, this`journal, this`endedNs
      ensures Valid() && S() == EndWorker(old(S()), id, now)
      ensures entry == old(running[id]) && running.Values <= old(running.Values)
    {
      hide Valid, View, RunningEntry.Value;
      EntryView(id);
      entry := RemoveEntry(id);
      endedNs := endedNs + (now - entry.startedAt);
      journal := Then(journal, Ended(entry.worker, now, entry.session.tokens));
      if entry.cleanupOnExit {
        journal := Then(journal, CleanedUp(entry.worker, entry.identifier));
      }
    }

    method OnWorkerExit(id: string, reason: ExitReason, err: Option<string>, input: Input)
      requires Valid()
      modifies this`rt, this`retry, this`claimed, this`running, this`journal, this`endedNs, this`completed
      ensures Valid() && S() == H.OnWorkerExit(old(S()), id, reason, err, input)
      ensures running.Values <= old(running.Values)
    {
      hide EndWorker, H.ScheduleRetry, H.OnWorkerExit, ExitMessage, Valid, View, RunningEntry.Value;
      ghost var s0 := S();
      if id !in running {
        Absent(id, reason, err, input);
        return;
      }
      EntryView(id);
      ExitParts(s0, id, reason, err, input);
      var entry := EndEntry(id, input.clock(0));
      if entry.releaseOnExit {
        claimed := claimed - {id};
        journal := Then(journal, Released(id));
      } else if reason == ExitNormal {
        Complete(id, entry.identifier, entry.issue.url, input.clock(1));
      } else {
        Fail(id, AbnormalExit, entry.retryAttempt + 1, entry.identifier, entry.issue.url, ExitMessage(err), input.clock(1));
      }
    }

    lemma Absent(id: string, reason: ExitReason, err: Option<string>, input: Input)
      requires id !in running
      ensures H.OnWorkerExit(S(), id, reason, err, input) == S()
    {}

    lemma EntryView(id: string)
      requires id in running
      ensures id in View()
      ensures var e, entry := running[id], View()[id];
        && entry.identifier == e.identifier && entry.issue == e.issue && entry.retryAttempt == e.retryAttempt
        && entry.releaseOnExit == e.releaseOnExit && entry.terminating == e.terminating && entry.worker == e.worker
        && entry.startedAt == e.startedAt && entry.session == e.session && entry.cleanupOnExit == e.cleanupOnExit
    {}

    static lemma ExitParts(s: Orchestration, id: string, reason: ExitReason, err: Option<string>, input: Input)
      requires id in s.running
      ensures var e, ended := s.running[id], EndWorker(s, id, input.clock(0));
        H.OnWorkerExit(s, id, reason, err, input) ==
          if e.releaseOnExit then
            ended.(claimed := ended.claimed - {id}, journal := Then(ended.journal, Released(id)))
          else if reason == ExitNormal then
            H.ScheduleRetry(
              ended.(completed := ended.completed + {id}, journal := Then(ended.journal, Completed(id))),
              id, 1, e.identifier, e.issue.url, None, true, input.clock(1))
          else
            H.ScheduleRetry(
              ended.(journal := Then(ended.journal, Failed(id, AbnormalExit))),
              id, e.retryAttempt + 1, e.identifier, e.issue.url, Some(ExitMessage(err)), false, input.clock(1))
    {
      hide EndWorker, H.ScheduleRetry, ExitMessage;
    }

    // ---------- retry timer ----------

    method OnRetryTimer(id: string, input: Input)
      requires Valid()
      modifies this`rt, this`retry, this`claimed, this`running, this`journal
      ensures Valid() && S() == H.OnRetryTimer(old(S()), id, input)
      ensures forall e :: e in running.Values ==> e in old(running.Values) || fresh(e)
    {
      hide H.ScheduleRetry, H.DispatchIssue, H.OnRetryTimer, IsEligible, FindById, Valid, View, CountByState,
        Orchestration.GlobalAvailable, Config.PerStateLimit;
      RetryParts(S(), id, input);
      if id !in retry {
        return;
      }
      var entry := retry[id];
      retry := retry - {id};
      if input.candidates.None? {
        Fail(id, RetryPollFailed, entry.attempt + 1, entry.identifier, entry.url, "retry poll failed", input.clock(0));
        return;
      }
      var found := Lookup(input.candidates.value, id);
      if found.None? || !IsEligible(cfg, found.value) {
        claimed := claimed - {id};
        journal := Then(journal, Released(id));
        return;
      }
      var full := NoSlotFor(found.value.state);
      if full {
        Fail(id, NoSlots, entry.attempt + 1, found.value.identifier, found.value.url, "no available orchestrator slots", input.clock(0));
        return;
      }
      DispatchIssue(found.value, Some(entry.attempt), input.clock(0));
    }

    method NoSlotFor(state: string) returns (full: bool)
      ensures full == (S().GlobalAvailable() == 0 || CountByState(View(), state) >= cfg.PerStateLimit(state))
    {
      hide CountByState, Config.PerStateLimit, View, Orchestration.GlobalAvailable;
      if GlobalAvailable() == 0 {
        return true;
      }
      var n := RunningCountByState(state);
      return n >= cfg.PerStateLimit(state);
    }

    static lemma RetryParts(s: Orchestration, id: string, input: Input)
      ensures H.OnRetryTimer(s, id, input) ==
        if id !in s.retry then s
        else
          var e, taken, now := s.retry[id], s.(retry := s.retry - {id}), input.clock(0);
          if input.candidates.None? then
            H.ScheduleRetry(taken.(journal := Then(taken.journal, Failed(id, RetryPollFailed))), id, e.attempt + 1,
                            e.identifier, e.url,
                            Some("retry poll failed"), false, now)
          else
            var found := FindById(input.candidates.value, id);
            if found.None? || !IsEligible(s.cfg, found.value) then
              taken.(claimed := taken.claimed - {id}, journal := Then(taken.journal, Released(id)))
            else if taken.GlobalAvailable() == 0
                    || CountByState(s.running, found.value.state) >= s.cfg.PerStateLimit(found.value.state) then
              H.ScheduleRetry(taken.(journal := Then(taken.journal, Failed(id, NoSlots))), id, e.attempt + 1,
                              found.value.identifier,
                              found.value.url, Some("no available orchestrator slots"), false, now)
            else H.DispatchIssue(taken, found.value, Some(e.attempt), now)
    {
      hide H.ScheduleRetry, H.DispatchIssue, IsEligible, FindById, CountByState, Orchestration.GlobalAvailable,
        Config.PerStateLimit;
    }

    /** findByID. */
    static method Lookup(issues: seq<Issue>, id: string) returns (found: Option<Issue>)
      ensures found == FindById(issues, id)
    {
      var i := 0;
      while i < |issues|
        invariant 0 <= i <= |issues|
        invariant FindById(issues, id) == FindById(issues[i..], id)
      {
        if issues[i].id == id {
          return Some(issues[i]);
        }
        i := i + 1;
      }
      return None;
    }

    // ---------- reload ----------

    method OnReload(cfg: Config, template: string, trackerOk: bool)
      requires Valid()
      modifies this`cfg, this`template, this`pollIntervalMs, this`maxConcurrent, this`rt, this`tickTimer, this`journal
      ensures Valid() && S() == H.OnReload(old(S()), cfg, template, trackerOk)
    {
      hide H.ScheduleTick, Valid, View;
      if !trackerOk {
        return;
      }
      Adopt(cfg, template);
      ScheduleTick(Backoff.Millis(pollIntervalMs));
    }

    method Adopt(cfg: Config, template: string)
      requires Valid()
      modifies this`cfg, this`template, this`pollIntervalMs, this`maxConcurrent, this`journal
      ensures Valid()
      ensures S() == old(S()).(cfg := cfg, template := template, pollIntervalMs := cfg.pollIntervalMs,
                               maxConcurrent := cfg.maxConcurrent,
                               journal := Then(old(journal), Reloaded(cfg, template)))
    {
      hide Valid, View;
      this.cfg, this.template := cfg, template;
      pollIntervalMs, maxConcurrent := cfg.pollIntervalMs, cfg.maxConcurrent;
      journal := Then(journal, Reloaded(cfg, template));
    }

    // ---------- reconciliation ----------

    method TerminateRunning(id: string, cleanup: bool, release: bool)
      requires Valid()
      modifies this`rt, this`journal, running.Values
      ensures Valid() && S() == H.TerminateRunning(old(S()), id, cleanup, release)
    {
      hide Valid, View, H.TerminateRunning;
      TerminateParts(S(), id, cleanup, release);
      EntryThere(id);
      if id !in running {
        return;
      }
      EntryView(id);
      if running[id].terminating {
        return;
      }
      DropEntry(id, cleanup, release);
      rt := rt.Cancel(running[id].worker);
      journal := Then(journal, Terminated(running[id].worker, cleanup));
    }

    method DropEntry(id: string, cleanup: bool, release: bool)
      requires Valid() && id in running
      modifies running.Values
      ensures Valid()
      ensures var e := old(View())[id];
        View() == old(View())[id := e.(terminating := true, cleanupOnExit := cleanup, releaseOnExit := release)]
    {
      running[id].Drop(cleanup, release);
      EntryChanged(id);
    }

    static lemma TerminateParts(s: Orchestration, id: string, cleanup: bool, release: bool)
      ensures H.TerminateRunning(s, id, cleanup, release) ==
        if id !in s.running || s.running[id].terminating then s
        else
          var e := s.running[id];
          s.(running := s.running[id := e.(terminating := true, cleanupOnExit := cleanup, releaseOnExit := release)],
             rt := s.rt.Cancel(e.worker), journal := Then(s.journal, Terminated(e.worker, cleanup)))
    {}

    /** Part B of reconcile, one refreshed issue. */
    method RefreshOne(issue: Issue)
      requires Valid()
      modifies this`rt, this`journal, running.Values
      ensures Valid() && S() == H.RefreshOne(old(S()), issue)
    {
      hide H.TerminateRunning, IsTerminalState, IsActiveState, Valid;
      if issue.id !in running || running[issue.id].terminating {
        return;
      }
      if IsTerminalState(cfg, issue.state) {
        TerminateRunning(issue.id, true, true);
      } else if IsActiveState(cfg, issue.state) {
        RefreshEntry(issue);
      } else {
        TerminateRunning(issue.id, false, true);
      }
    }

    method RefreshEntry(issue: Issue)
      requires Valid() && issue.id in running
      modifies running.Values
      ensures Valid()
      ensures var e := old(View())[issue.id];
        View() == old(View())[issue.id := e.(issue := e.issue.(state := issue.state, labels := issue.labels))]
    {
      var e := running[issue.id];
      e.Relabel(issue.state, issue.labels);
      EntryChanged(issue.id);
    }

    /** The running entries once the ids in `done` have been checked for a stall. */
    static ghost function Checked(was: map<string, Entry>, done: set<string>, cfg: Config, now: Time): map<string, Entry> {
      map id | id in was :: if id in done && IsStalled(cfg, was[id], now) then was[id].(terminating := true) else was[id]
    }

    static ghost function StalledIn(was: map<string, Entry>, done: set<string>, cfg: Config, now: Time): set<nat> {
      set id | id in was && id in done && IsStalled(cfg, was[id], now) :: was[id].worker
    }

    /** Entries and runtime once the ids in `done` have been checked, starting from `was` and rt0. */
    static ghost predicate Walked(was: map<string, Entry>, rt0: Runtime, cfg: Config, now: Time, done: set<string>,
                                  view: map<string, Entry>, rt: Runtime)
    {
      view == Checked(was, done, cfg, now) && rt == rt0.(cancelled := rt0.cancelled + StalledIn(was, done, cfg, now))
    }

    static lemma WalkStarts(was: map<string, Entry>, rt0: Runtime, cfg: Config, now: Time)
      ensures Walked(was, rt0, cfg, now, {}, was, rt0)
    {
      hide IsStalled;
    }

    static lemma WalkGoesOn(was: map<string, Entry>, rt0: Runtime, cfg: Config, now: Time, done: set<string>,
                            view: map<string, Entry>, rt: Runtime, id: string)
      requires Walked(was, rt0, cfg, now, done, view, rt) && id in view && id !in done
      ensures var e := view[id];
        var hit := IsStalled(cfg, e, now);
        Walked(was, rt0, cfg, now, done + {id}, view[id := if hit then e.(terminating := true) else e],
               if hit then rt.Cancel(e.worker) else rt)
    {
      hide IsStalled;
      var hit := IsStalled(cfg, was[id], now);
      var before, after := StalledIn(was, done, cfg, now), StalledIn(was, done + {id}, cfg, now);
      forall w | w in after
        ensures w in before + if hit then {was[id].worker} else {}
      {
        var k :| k in was && k in done + {id} && IsStalled(cfg, was[k], now) && was[k].worker == w;
      }
      assert after == before + if hit then {was[id].worker} else {};
      assert rt0.cancelled + before + {was[id].worker} == rt0.cancelled + (before + {was[id].worker});
    }

    /** One round of part A. */
    method CheckStall(id: string, now: Time) returns (hit: bool)
      requires Valid() && id in running
      modifies this`rt, running.Values
      ensures Valid() && running == old(running)
      ensures hit == IsStalled(cfg, old(View())[id], now)
      ensures View() == old(View())[id := if hit then old(View())[id].(terminating := true) else old(View())[id]]
      ensures rt == if hit then old(rt).Cancel(old(View())[id].worker) else old(rt)
    {
      var e := running[id];
      hit := false;
      if !e.terminating {
        if now - e.LastActivity() > Backoff.Millis(cfg.stallTimeoutMs) {
          e.Stop();
          rt := rt.Cancel(e.worker);
          hit := true;
        }
      }
      EntryChanged(id);
    }

    /** Part A of reconcile. */
    method ReconcileStalls(now: Time)
      requires Valid()
      modifies this`rt, this`journal, running.Values
      ensures Valid() && S() == H.ReconcileStalls(old(S()), now)
    {
      hide Valid, View, Checked, StalledIn, H.ReconcileStalls, Walked;
      ghost var s0 := S();
      AllWalked(s0, now);
      if cfg.stallTimeoutMs <= 0 {
        return;
      }
      CheckStalls(now);
      journal := Then(journal, Stalled(StalledIn(s0.running, s0.running.Keys, cfg, now)));
    }

    method CheckStalls(now: Time)
      requires Valid()
      modifies this`rt, running.Values
      ensures Valid() && running == old(running)
      ensures Walked(old(View()), old(rt), cfg, now, old(View()).Keys, View(), rt)
    {
      hide *;
      ghost var was, rt0, done: set<string> := View(), rt, {};
      WalkStarts(was, rt0, cfg, now);
      KeysThere();
      var left := running.Keys;
      WalkEnds(running.Keys, left, done);
      while left != {}
        invariant Valid() && running == old(running) && Walk(running.Keys, left, done)
        invariant Walked(was, rt0, cfg, now, done, View(), rt)
        decreases |left|
      {
        var id :| id in left;
        KeysThere();
        WalkStep(running.Keys, left, done, id);
        WalkGoesOn(was, rt0, cfg, now, done, View(), rt, id);
        var hit := CheckStall(id, now);
        left, done := left - {id}, done + {id};
      }
      WalkEnds(running.Keys, left, done);
    }

    lemma KeysThere()
      ensures View().Keys == running.Keys
    {}

    static lemma AllWalked(s: Orchestration, now: Time)
      ensures s.cfg.stallTimeoutMs <= 0 ==> H.ReconcileStalls(s, now) == s
      ensures forall view, rt :: s.cfg.stallTimeoutMs > 0 && Walked(s.running, s.rt, s.cfg, now, s.running.Keys, view, rt) ==>
        H.ReconcileStalls(s, now) ==
          s.(running := view, rt := rt, journal := Then(s.journal, Stalled(StalledIn(s.running, s.running.Keys, s.cfg, now))))
    {
      hide IsStalled;
      assert StalledIn(s.running, s.running.Keys, s.cfg, now) ==
             set id | id in s.running && IsStalled(s.cfg, s.running[id], now) :: s.running[id].worker;
      assert Checked(s.running, s.running.Keys, s.cfg, now) ==
             map id | id in s.running ::
               if IsStalled(s.cfg, s.running[id], now) then s.running[id].(terminating := true) else s.running[id];
    }

    /** Some running worker is not being terminated. */
    method AnyToRefresh() returns (any: bool)
      ensures any <==> exists id :: id in View() && !View()[id].terminating
    {
      var left := running.Keys;
      while left != {}
        invariant left <= running.Keys
        invariant forall id :: id in running && id !in left ==> running[id].terminating
        decreases |left|
      {
        var id :| id in left;
        if !running[id].terminating {
          assert id in View() && !View()[id].terminating;
          return true;
        }
        left := left - {id};
      }
      return false;
    }

    method Reconcile(now: Time, states: Option<seq<Issue>>)
      requires Valid()
      modifies this`rt, this`journal, running.Values
      ensures Valid() && S() == H.Reconcile(old(S()), now, states)
    {
      hide Valid, View, H.ReconcileStalls, H.RefreshOne;
      ReconcileStalls(now);
      ghost var s1 := S();
      var any := AnyToRefresh();
      if !any || states.None? {
        return;
      }
      var issues, i := states.value, 0;
      assert issues[..|issues|] == issues;
      while i < |issues|
        invariant 0 <= i <= |issues|
        invariant Valid() && running == old(running) && S() == Refresh(s1, issues[..i])
      {
        assert issues[..i + 1][..i] == issues[..i];
        RefreshOne(issues[i]);
        i := i + 1;
      }
    }

    // ---------- tick ----------

    method Visit(issue: Issue, at: Time)
      requires Valid()
      modifies this`rt, this`retry, this`claimed, this`running, this`journal
      ensures Valid() && S() == H.Visit(old(S()), issue, at)
      ensures forall e :: e in running.Values ==> e in old(running.Values) || fresh(e)
    {
      assert View().Keys == running.Keys;
      hide Valid, View, IsEligible, H.DispatchIssue, CountByState, Config.PerStateLimit;
      if issue.id in running || issue.id in claimed || !IsEligible(cfg, issue) {
        return;
      }
      var n := RunningCountByState(issue.state);
      if n >= cfg.PerStateLimit(issue.state) {
        return;
      }
      DispatchIssue(issue, None, at);
    }

    static lemma {:induction false} StandsStill(s: Orchestration, issues: seq<Issue>, clock: nat -> Time, i: nat, n: nat)
      requires i <= n <= |issues| && DispatchUpTo(s, issues, clock, i).GlobalAvailable() <= 0
      ensures DispatchUpTo(s, issues, clock, n) == DispatchUpTo(s, issues, clock, i)
      decreases n
    {
      hide H.Visit, Orchestration.GlobalAvailable;
      if i < n { StandsStill(s, issues, clock, i, n - 1); }
    }

    /** The dispatch loop of onTick, over the sorted candidates. */
    method DispatchAll(issues: seq<Issue>, clock: nat -> Time)
      requires Valid()
      modifies this`rt, this`retry, this`claimed, this`running, this`journal
      ensures Valid() && S() == H.DispatchAll(old(S()), issues, clock)
      ensures forall e :: e in running.Values ==> e in old(running.Values) || fresh(e)
    {
      hide Valid, View, H.Visit, Orchestration.GlobalAvailable;
      ghost var s0 := S();
      var i := 0;
      while i < |issues|
        invariant 0 <= i <= |issues|
        invariant Valid() && S() == DispatchUpTo(s0, issues, clock, i)
        invariant forall e :: e in running.Values ==> e in old(running.Values) || fresh(e)
      {
        if GlobalAvailable() <= 0 {
          StandsStill(s0, issues, clock, i, |issues|);
          return;
        }
        Visit(issues[i], clock(i + 1));
        i := i + 1;
      }
    }

    method OnTick(input: Input)
      requires Valid()
      modifies this, running.Values
      ensures Valid() && S() == H.OnTick(old(S()), input)
      ensures forall e :: e in running.Values ==> e in old(running.Values) || fresh(e)
    {
      hide Valid, View, H.Reconcile, H.DispatchAll, H.ScheduleTick, Sorting.SortForDispatch;
      Reconcile(input.clock(0), input.states);
      if cfg.dispatchValid && input.candidates.Some? {
        var issues := Sorting.SortForDispatch(input.candidates.value);
        DispatchAll(issues, input.clock);
      }
      ScheduleTick(Backoff.Millis(pollIntervalMs));
    }

    // ---------- the loop body ----------

    method Handle(ev: Event, input: Input)
      requires Valid()
      modifies this, running.Values
      ensures Valid() && S() == H.Handle(old(S()), ev, input)
      ensures forall e :: e in running.Values ==> e in old(running.Values) || fresh(e)
    {
      hide Valid, View, H.OnTick, H.OnAgentUpdate, H.OnWorkerExit, H.OnRetryTimer, H.OnReload, H.ScheduleTick;
      match ev
      case TickEvent => OnTick(input);
      case AgentUpdate(id, msg) => OnAgentUpdate(id, msg);
      case WorkerExit(id, reason, err) => OnWorkerExit(id, reason, err, input);
      case RetryTimerFired(id) => OnRetryTimer(id, input);
      case ReloadConfig(cfg, template) => OnReload(cfg, template, input.trackerOk);
      case RefreshRequest => ScheduleTick(0);
      case SnapshotRequest =>
    }

    /** One round of Run's loop: receive the next event and handle it. */
    method Deliver(input: Input)
      requires Valid() && rt.chan != []
      modifies this, running.Values
      ensures Valid() && S() == System.Apply(old(S()), System.Deliver(input))
      ensures forall e :: e in running.Values ==> e in old(running.Values) || fresh(e)
    {
      hide Valid, View, H.Handle;
      var message := rt.chan[0];
      rt := rt.(chan := rt.chan[1..]);
      Handle(message.ev, input);
    }
  }
}
