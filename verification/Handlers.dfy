/** The event handlers of internal/orchestrator (orchestrator.go, reconcile.go) as functions on the
    state.  What the world answers - clock readings, tracker replies, whether the tracker can be
    rebuilt - comes in as an Input. */
module Handlers {
  import opened Domain
  import opened State
  import opened Eligibility
  import Sorting
  import Backoff

  /** clock(k) is the k-th reading of time.Now in this handler; None is a failed fetch. */
  datatype Input = Input(
    clock: nat -> Time, states: Option<seq<Issue>>, candidates: Option<seq<Issue>>, trackerOk: bool)

  // ---------- shared steps ----------

  function RemoveRetryTimer(s: Orchestration, id: string): Orchestration {
    if id in s.retry then s.(retry := s.retry - {id}, rt := s.rt.Stop(s.retry[id].timer)) else s
  }

  function ScheduleTick(s: Orchestration, delay: int): Orchestration {
    var stopped := if s.tickTimer.Some? then s.rt.Stop(s.tickTimer.value) else s.rt;
    s.(rt := stopped.AfterFunc(delay, TickEvent), tickTimer := Some(stopped.nextTimer))
  }

  function ScheduleRetry(s: Orchestration, id: string, attempt: int, identifier: string, url: Option<string>,
                         error: Option<string>, continuation: bool, now: Time): Orchestration
  {
    var cleared := RemoveRetryTimer(s, id);
    var clamped := if !continuation && attempt < 1 then 1 else attempt;
    var delay := Backoff.RetryDelay(clamped, s.cfg.maxRetryBackoffMs, continuation);
    var entry := Retry(identifier, clamped, (now + delay) / Backoff.NS_PER_MS, cleared.rt.nextTimer, error, url);
    cleared.(rt := cleared.rt.AfterFunc(delay, RetryTimerFired(id)),
             retry := cleared.retry[id := entry],
             claimed := cleared.claimed + {id})
  }

  function NormalizeAttempt(attempt: Option<int>): int { if attempt.Some? then attempt.value else 0 }

  function NewEntry(issue: Issue, worker: nat, at: Time, attempt: Option<int>): Entry {
    Entry(issue.identifier, issue, worker, at, NewSession, NormalizeAttempt(attempt), false, false, false)
  }

  function DispatchIssue(s: Orchestration, issue: Issue, attempt: Option<int>, at: Time): Orchestration {
    var entry := NewEntry(issue, s.rt.nextWorker, at, attempt);
    var recorded := RemoveRetryTimer(
      s.(running := s.running[issue.id := entry], claimed := s.claimed + {issue.id}), issue.id);
    recorded.(rt := recorded.rt.Go(issue.id)).Log(Dispatched(issue.id, entry.worker, attempt.None?, at))
  }

  // ---------- agent updates ----------

  const MAX_RECENT_ACTIVITY := 50
  const MAX_MESSAGE := 500
  const PENDING := "pending"

  /** logging.Truncate, with the ellipsis in the three bytes it occupies. */
  function Truncate(s: string): string {
    var t := TrimSpace(s);
    if |t| <= MAX_MESSAGE then t else t[..MAX_MESSAGE] + "\U{e2}\U{80}\U{a6}(truncated)"
  }

  function AppendActivity(hist: seq<Activity>, act: Activity): seq<Activity> {
    var all := hist + [act];
    if |all| > MAX_RECENT_ACTIVITY then all[|all| - MAX_RECENT_ACTIVITY..] else all
  }

  function ActivityOf(m: AgentEvent): Activity {
    var tokens := if m.stepUsage.Some? then m.stepUsage.value else NoUsage;
    Activity(m.timestamp, m.kind, m.turnId, m.message, m.detail, tokens.input, tokens.output)
  }

  function UpdateSession(e: Session, m: AgentEvent): Session {
    var e1 := e.(lastTimestamp := Some(m.timestamp), lastEvent := Some(m.kind));
    var e2 := if m.message != "" then
      e1.(lastMessage := Truncate(m.message), activity := AppendActivity(e1.activity, ActivityOf(m))) else e1;
    var e3 := if m.sessionId != "" && m.sessionId != PENDING then
      e2.(sessionId := m.sessionId, threadId := m.sessionId) else e2;
    var e4 := if m.turnId != "" then
      e3.(turnId := m.turnId,
          turnCount := if m.turnNumber.Some? && m.turnNumber.value > e3.turnCount
                       then m.turnNumber.value else e3.turnCount) else e3;
    var e5 := if m.pid.Some? then e4.(pid := m.pid) else e4;
    if m.usage.Some? then e5.(tokens := e5.tokens.Plus(m.usage.value), lastReported := m.usage.value) else e5
  }

  function OnAgentUpdate(s: Orchestration, id: string, m: AgentEvent): Orchestration {
    if id !in s.running then s
    else
      var entry := s.running[id];
      s.(running := s.running[id := entry.(session := UpdateSession(entry.session, m))],
         totals := if m.usage.Some? then s.totals.Plus(m.usage.value) else s.totals,
         rateLimits := if m.rateLimits.Some? then m.rateLimits else s.rateLimits)
  }

  // ---------- worker exit ----------

  /** The text of a retry error: "worker exited", with the cause if there is one. */
  function ExitMessage(err: Option<string>): string {
    if err.Some? then "worker exited: " + err.value else "worker exited"
  }

  /** The part of onWorkerExit that every exit goes through: the entry goes, its run time is booked,
      the workspace is cleaned up if reconciliation asked for it. */
  function EndWorker(s: Orchestration, id: string, now: Time): Orchestration
    requires id in s.running
  {
    var entry := s.running[id];
    var ended := s.(running := s.running - {id}, endedNs := s.endedNs + (now - entry.startedAt))
      .Log(Ended(entry.worker, now, entry.session.tokens));
    if entry.cleanupOnExit then ended.Log(CleanedUp(entry.worker, entry.identifier)) else ended
  }

  function OnWorkerExit(s: Orchestration, id: string, reason: ExitReason, err: Option<string>, input: Input): Orchestration {
    if id !in s.running then s
    else
      var entry := s.running[id];
      var ended := EndWorker(s, id, input.clock(0));
      if entry.releaseOnExit then
        ended.(claimed := ended.claimed - {id}).Log(Released(id))
      else if reason == ExitNormal then
        ScheduleRetry(ended.(completed := ended.completed + {id}).Log(Completed(id)),
                      id, 1, entry.identifier, entry.issue.url, None, true, input.clock(1))
      else
        ScheduleRetry(ended.Log(Failed(id, AbnormalExit)), id, entry.retryAttempt + 1,
                      entry.identifier, entry.issue.url, Some(ExitMessage(err)), false, input.clock(1))
  }

  // ---------- retry timer ----------

  function FindById(issues: seq<Issue>, id: string): Option<Issue> {
    if issues == [] then None
    else if issues[0].id == id then Some(issues[0])
    else FindById(issues[1..], id)
  }

  /** The per-state limit leaves no room for another worker in `state`. */
  predicate StateFull(s: Orchestration, state: string) {
    CountByState(s.running, state) >= s.cfg.PerStateLimit(state)
  }

  function OnRetryTimer(s: Orchestration, id: string, input: Input): Orchestration {
    if id !in s.retry then s
    else
      var entry := s.retry[id];
      var taken := s.(retry := s.retry - {id});
      if input.candidates.None? then
        ScheduleRetry(taken.Log(Failed(id, RetryPollFailed)), id, entry.attempt + 1, entry.identifier, entry.url,
                      Some("retry poll failed"), false, input.clock(0))
      else
        var found := FindById(input.candidates.value, id);
        if found.None? || !IsEligible(taken.cfg, found.value) then
          taken.(claimed := taken.claimed - {id}).Log(Released(id))
        else if taken.GlobalAvailable() == 0 || StateFull(taken, found.value.state) then
          ScheduleRetry(taken.Log(Failed(id, NoSlots)), id, entry.attempt + 1, found.value.identifier, found.value.url,
                        Some("no available orchestrator slots"), false, input.clock(0))
        else
          DispatchIssue(taken, found.value, Some(entry.attempt), input.clock(0))
  }

  // ---------- reload ----------

  function OnReload(s: Orchestration, cfg: Config, template: string, trackerOk: bool): Orchestration {
    if !trackerOk then s
    else
      ScheduleTick(
        s.(cfg := cfg, template := template, pollIntervalMs := cfg.pollIntervalMs, maxConcurrent := cfg.maxConcurrent)
         .Log(Reloaded(cfg, template)),
        Backoff.Millis(cfg.pollIntervalMs))
  }

  // ---------- reconciliation ----------

  predicate IsStalled(cfg: Config, entry: Entry, now: Time) {
    !entry.terminating && now - entry.LastActivity() > Backoff.Millis(cfg.stallTimeoutMs)
  }

  /** Part A: every stalled worker is cancelled and marked, whatever order the map is walked in. */
  function ReconcileStalls(s: Orchestration, now: Time): Orchestration {
    if s.cfg.stallTimeoutMs <= 0 then s
    else
      var workers := set id | id in s.running && IsStalled(s.cfg, s.running[id], now) :: s.running[id].worker;
      s.(running := map id | id in s.running ::
           if IsStalled(s.cfg, s.running[id], now) then s.running[id].(terminating := true) else s.running[id],
         rt := s.rt.(cancelled := s.rt.cancelled + workers)).Log(Stalled(workers))
  }

  function TerminateRunning(s: Orchestration, id: string, cleanup: bool, release: bool): Orchestration {
    if id !in s.running || s.running[id].terminating then s
    else
      var entry := s.running[id];
      s.(running := s.running[id := entry.(terminating := true, cleanupOnExit := cleanup, releaseOnExit := release)],
         rt := s.rt.Cancel(entry.worker)).Log(Terminated(entry.worker, cleanup))
  }

  /** Part B, one refreshed issue. */
  function RefreshOne(s: Orchestration, issue: Issue): Orchestration {
    if issue.id !in s.running || s.running[issue.id].terminating then s
    else if IsTerminalState(s.cfg, issue.state) then TerminateRunning(s, issue.id, true, true)
    else if IsActiveState(s.cfg, issue.state) then
      var entry := s.running[issue.id];
      s.(running := s.running[issue.id := entry.(issue := entry.issue.(state := issue.state, labels := issue.labels))])
    else TerminateRunning(s, issue.id, false, true)
  }

  function Refresh(s: Orchestration, issues: seq<Issue>): Orchestration {
    if issues == [] then s else RefreshOne(Refresh(s, issues[..|issues| - 1]), issues[|issues| - 1])
  }

  function Reconcile(s: Orchestration, now: Time, states: Option<seq<Issue>>): Orchestration {
    var stalls := ReconcileStalls(s, now);
    if (forall id | id in stalls.running :: stalls.running[id].terminating) || states.None? then stalls
    else Refresh(stalls, states.value)
  }

  // ---------- tick ----------

  /** What the dispatch loop does with one candidate while a global slot is free. */
  function Visit(s: Orchestration, issue: Issue, at: Time): Orchestration {
    if issue.id in s.running || issue.id in s.claimed || !IsEligible(s.cfg, issue) || StateFull(s, issue.state) then s
    else DispatchIssue(s, issue, None, at)
  }

  /** The state after the loop has been through the first n candidates; it stands still from the
      point where no global slot is left. */
  function DispatchUpTo(s: Orchestration, issues: seq<Issue>, clock: nat -> Time, n: nat): Orchestration
    requires n <= |issues|
  {
    if n == 0 then s
    else
      var before := DispatchUpTo(s, issues, clock, n - 1);
      if before.GlobalAvailable() <= 0 then before else Visit(before, issues[n - 1], clock(n))
  }

  function DispatchAll(s: Orchestration, issues: seq<Issue>, clock: nat -> Time): Orchestration {
    DispatchUpTo(s, issues, clock, |issues|)
  }

  /** onTick up to its deferred scheduleTick. */
  function PollAndDispatch(s: Orchestration, input: Input): Orchestration {
    var reconciled := Reconcile(s, input.clock(0), input.states);
    if !reconciled.cfg.dispatchValid || input.candidates.None? then reconciled
    else DispatchAll(reconciled, Sorting.SortForDispatch(input.candidates.value), input.clock)
  }

  function OnTick(s: Orchestration, input: Input): Orchestration {
    var polled := PollAndDispatch(s, input);
    ScheduleTick(polled, Backoff.Millis(polled.pollIntervalMs))
  }

  // ---------- the loop body ----------

  function Handle(s: Orchestration, ev: Event, input: Input): Orchestration {
    match ev
    case TickEvent => OnTick(s, input)
    case AgentUpdate(id, msg) => OnAgentUpdate(s, id, msg)
    case WorkerExit(id, reason, err) => OnWorkerExit(s, id, reason, err, input)
    case RetryTimerFired(id) => OnRetryTimer(s, id, input)
    case ReloadConfig(cfg, template) => OnReload(s, cfg, template, input.trackerOk)
    case RefreshRequest => ScheduleTick(s, 0)
    case SnapshotRequest => s
  }
}
