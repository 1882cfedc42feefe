/** The orchestrator's configuration, state and runtime as values: internal/orchestrator/state.go,
    events.go, the retry and session records of internal/domain, and the part of the Go runtime the
    orchestrator uses (goroutines, contexts, time.AfterFunc, the events channel). */
module State {
  import opened Domain

  // ---------- configuration ----------

  /** `dispatchValid` is the verdict of Config.ValidateDispatch; the keys of `byState` are normalised. */
  datatype Config = Config(
    dispatchValid: bool, pollIntervalMs: int, maxConcurrent: int, byState: map<string, int>,
    maxRetryBackoffMs: int, stallTimeoutMs: int, activeStates: seq<string>,
    terminalStates: seq<string>, assignee: string, requiredLabels: seq<string>)
  {
    function PerStateLimit(state: string): int {
      var key := NormalizeState(state);
      if key in byState then byState[key] else maxConcurrent
    }
  }

  // ---------- events ----------

  datatype ExitReason = ExitNormal | ExitAbnormal

  datatype Event =
    | TickEvent
    | AgentUpdate(id: string, msg: AgentEvent)
    | WorkerExit(id: string, reason: ExitReason, err: Option<string>)
    | RetryTimerFired(id: string)
    | ReloadConfig(cfg: Config, template: string)
    | RefreshRequest
    | SnapshotRequest

  /** Who posted a message.  No handler reads it; the theorems about attribution do. */
  datatype Source = FromWorker(worker: nat) | FromTimer(timer: nat) | External

  datatype Message = Message(ev: Event, src: Source)

  // ---------- runtime ----------

  /** A time.AfterFunc timer: `delay` (ns) from now it posts `ev`. */
  datatype Timer = Timer(ev: Event, delay: int)

  /** live: worker goroutines that have not yet posted their exit, with the issue they serve;
      cancelled: workers whose context was cancelled; armed: timers not yet fired; firing: timers
      that fired but whose post has not reached the channel; chan: the events channel. */
  datatype Runtime = Runtime(
    nextWorker: nat, live: map<nat, string>, cancelled: set<nat>,
    nextTimer: nat, armed: map<nat, Timer>, firing: map<nat, Timer>, chan: seq<Message>)
  {
    function Go(id: string): Runtime { this.(nextWorker := nextWorker + 1, live := live[nextWorker := id]) }

    function Cancel(worker: nat): Runtime { this.(cancelled := cancelled + {worker}) }

    function AfterFunc(delay: int, ev: Event): Runtime {
      this.(nextTimer := nextTimer + 1, armed := armed[nextTimer := Timer(ev, delay)])
    }

    /** Stop prevents a timer from firing; one that has fired keeps posting. */
    function Stop(timer: nat): Runtime { this.(armed := armed - {timer}) }
  }

  const EVENTS_CAPACITY := 256

  const FreshRuntime := Runtime(0, map[], {}, 0, map[], map[], [])

  // ---------- orchestrator state ----------

  datatype Activity = Activity(
    timestamp: Time, event: string, turnId: string, message: string, detail: string,
    inputTokens: int, outputTokens: int)

  datatype Session = Session(
    sessionId: string, threadId: string, turnId: string, pid: Option<string>,
    lastEvent: Option<string>, lastTimestamp: Option<Time>, lastMessage: string,
    tokens: Usage, lastReported: Usage, turnCount: int, activity: seq<Activity>)

  const NewSession := Session("", "", "", None, None, None, "", NoUsage, NoUsage, 0, [])

  /** RunningEntry; `worker` is what its Cancel handle cancels. */
  datatype Entry = Entry(
    identifier: string, issue: Issue, worker: nat, startedAt: Time, session: Session,
    retryAttempt: int, terminating: bool, cleanupOnExit: bool, releaseOnExit: bool)
  {
    function LastActivity(): Time {
      if session.lastTimestamp.Some? then session.lastTimestamp.value else startedAt
    }
  }

  datatype Retry = Retry(
    identifier: string, attempt: int, dueAtMs: int, timer: nat, error: Option<string>, url: Option<string>)

  datatype FailureKind = AbnormalExit | RetryPollFailed | NoSlots

  /** What happened so far, in order.  The orchestrator does not keep this journal; it is the yardstick
      that counters, totals and attempt numbers are measured against. */
  datatype Act =
    | Dispatched(id: string, worker: nat, byTick: bool, at: Time)
    | Emitted(worker: nat, usage: Usage)
    | Stalled(workers: set<nat>)
    | Terminated(worker: nat, cleanup: bool)
    | Ended(worker: nat, at: Time, tokens: Usage)
    | CleanedUp(worker: nat, identifier: string)
    | Completed(id: string)
    | Failed(id: string, kind: FailureKind)
    | Released(id: string)
    | Reloaded(cfg: Config, template: string)

  datatype History = Start | Then(before: History, act: Act)

  datatype Orchestration = Orchestration(
    cfg: Config, template: string, pollIntervalMs: int, maxConcurrent: int,
    running: map<string, Entry>, claimed: set<string>, retry: map<string, Retry>, completed: set<string>,
    totals: Usage, endedNs: int, rateLimits: Option<string>, tickTimer: Option<nat>,
    rt: Runtime, journal: History)
  {
    /** globalAvailable: free global slots, never negative. */
    function GlobalAvailable(): (slots: int)
      ensures slots >= 0
    {
      var free := maxConcurrent - |running|;
      if free < 0 then 0 else free
    }

    function Log(act: Act): Orchestration { this.(journal := Then(journal, act)) }
  }

  /** The ids whose running entry is currently tracked in `state`. */
  function IdsInState(running: map<string, Entry>, state: string): set<string> {
    set id | id in running && NormalizeState(running[id].issue.state) == NormalizeState(state)
  }

  /** runningCountByState. */
  function CountByState(running: map<string, Entry>, state: string): int {
    |IdsInState(running, state)|
  }
}
