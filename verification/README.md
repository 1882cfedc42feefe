# Symphony: a model of the orchestrator, its workers and two scanners

Symphony polls an issue tracker, runs one Claude Code worker per eligible issue and keeps the books
about it. This project models the parts of it where something can go wrong between functions, and
proves what holds over whole runs. `dafny verify dfyconfig.toml` checks everything.

## What is modelled

**The orchestrator** (internal/orchestrator). `OrchestratorLoop` is the event loop's object: maps,
entries, timers and counters updated in place, one method per handler. Every method is proved equal to
the function of the same name in `Handlers`, which works on the same state as a value (`State`). Those
functions are what the rest reasons about. `Sorting`, `Eligibility` and `Backoff` hold the comparator,
the candidate rules and the delays with their 64-bit wrap-around.

**The orchestrator among its goroutines.** `System` adds what runs beside the loop: live workers, which
post any number of agent events and then one exit; armed timers; timers that fired but have not
posted yet; outside senders; one FIFO channel of 256 places. A run is any list of enabled steps, so every
interleaving, every tracker reply and every clock reading is some run. `Wakeups`, `Books`, `Liveness`,
`Polling` and `Progress` prove the invariant that ties claims to wake-ups and what follows from it, `Fairness`
that every wake-up is delivered in a fair endless run; `Dispatching` the quality of one dispatch phase;
`Histories`, `Ledger`, `Accounts` and `Runs` compare the state with a journal of what happened, which the
orchestrator itself does not keep. `Admission`, `Outcomes`, `Delays` and `Judging` say in plain conditions and
numbers who is dispatched, what exits and retries lead to, how long every timer waits, and what reconciliation
decides, without the functions of `Handlers` and `Eligibility`. `Stalls` follows a stalled worker that returns;
`Entries` and `Sessions` trace sessions over runs; `Snapshots` is the projection for observers and its run time.

**The worker** (internal/agent). `Stream` is one turn's automaton over stdout lines, timers and
cancellation, against a definition of the first deciding input. `Runner` is the bounded turn loop with its
resource protocol; it drives the turns of `Stream`. `Reports` restates input by input what a turn emits, ends
with and is billed, and `Resumption` which session each turn asks for. `Workers` runs the orchestrator with
attempts of the runner as its workers and compares the books with what the attempts report, `Billing` with
what the result lines say. `Shell` reads the built command back by the POSIX rules for tokens and quoting.

**The GraphQL operation counter** (internal/tools/lineargql). `Lexical` proves the stripping scanner
against its own lexical rules, `October` those against the lexical rules of the GraphQL specification of October
2021, `Operations` the counting scanner down to tokens, `Grammar` what it finds in the syntax tree of an
executable document, `Counting` the count of every printing of a document and the rule of one operation.

## Where code and documentation part

The model follows the code. The differences it brought to light:

- A stalled worker is said to lead to a retry because it exits abnormally (internal/orchestrator/reconcile.go:24).
  It leads to one also if it returns normally: the continuation retry, with attempt 1 and the issue marked
  completed. `Stalls` has the run.
- The documented delay `min(10000 * 2^(attempt-1), cap)` holds only for caps up to 9223372036854 ms; a larger
  cap wraps around in the multiplication to nanoseconds.
- The operation count is documented as the number of operation definitions, and exactly one is asked for. Object
  values in definition headers can make the count too high, and a lone fragment pass. A comment ended by a lone
  carriage return and an escaped triple quote in a block string can hide operations, so that a document with two
  passes. `Counting` has examples and the conditions under which the count is right.
- A candidate whose priority is the largest int ranks like one without priority.

## Model

| member | source | states |
|---|---|---|
| `OrchestratorLoop.Orchestrator.constructor` | internal/orchestrator/orchestrator.go:78-89 | Run up to its loop: empty state, a tick armed for at once, whatever others queued before still in the channel |
| `OrchestratorLoop.Orchestrator.Deliver` | internal/orchestrator/orchestrator.go:91-99 | one round of the event loop on the object is the Deliver step of the concurrent system |
| `OrchestratorLoop.Orchestrator.Handle` | internal/orchestrator/orchestrator.go:102-124 | each event goes to its handler; the object changes exactly as the handler function of that event says |
| `OrchestratorLoop.Orchestrator.ScheduleTick` | internal/orchestrator/orchestrator.go:135-140 | the previous tick timer is stopped before the new one is armed and remembered |
| `OrchestratorLoop.Orchestrator.OnTick` | internal/orchestrator/orchestrator.go:143-182 | reconcile first, then validate, fetch, sort and dispatch, and always re-arm the tick afterwards, on the error paths too |
| `OrchestratorLoop.Orchestrator.DispatchAll` | internal/orchestrator/orchestrator.go:161-180 | the loop with its break at zero free slots equals the visit of all candidates, with nothing happening after the break |
| `OrchestratorLoop.Orchestrator.Visit` | internal/orchestrator/orchestrator.go:167-179 | a candidate is dispatched exactly if it is not running, not claimed, eligible, and its state has room |
| `OrchestratorLoop.Orchestrator.DispatchIssue` | internal/orchestrator/orchestrator.go:185-218 | entry, claim, removal of a pending retry and a new worker goroutine for the same id |
| `OrchestratorLoop.Orchestrator.OnAgentUpdate` | internal/orchestrator/orchestrator.go:246-302 | only the addressed entry and the totals change; usage is added, the last usage remembered, step usage added nowhere |
| `OrchestratorLoop.RunningEntry.Update` | internal/orchestrator/orchestrator.go:251-298 | field by field, what an agent event does to the session of its entry |
| `OrchestratorLoop.Orchestrator.OnWorkerExit` | internal/orchestrator/orchestrator.go:320-362 | entry removed, run time booked, cleanup if asked for, then release, continuation retry or failure retry |
| `OrchestratorLoop.Orchestrator.EndEntry` | internal/orchestrator/orchestrator.go:325-334 | the part every exit goes through, and that nothing else changes |
| `OrchestratorLoop.Orchestrator.OnRetryTimer` | internal/orchestrator/orchestrator.go:365-396 | the retry entry goes; fetch failure and full slots queue again with attempt + 1, an unlisted or ineligible issue is released, else it is dispatched with its attempt |
| `OrchestratorLoop.Orchestrator.Lookup` | internal/orchestrator/orchestrator.go:487-494 | the loop finds what FindById says |
| `OrchestratorLoop.Orchestrator.OnReload` | internal/orchestrator/orchestrator.go:399-416 | a failed tracker rebuild changes nothing; otherwise configuration, template, interval and global limit are replaced together and the tick is re-armed |
| `OrchestratorLoop.Orchestrator.ScheduleRetry` | internal/orchestrator/orchestrator.go:419-449 | one retry entry with a fresh timer, the clamped attempt, the delay of the backoff formula and the claim |
| `OrchestratorLoop.Orchestrator.RemoveRetryTimer` | internal/orchestrator/orchestrator.go:451-458 | a removed retry entry takes its timer with it |
| `OrchestratorLoop.Orchestrator.Reconcile` | internal/orchestrator/reconcile.go:12-68 | stall check, then refresh of the tracked states; no refresh if no worker is left to refresh or the fetch fails |
| `OrchestratorLoop.Orchestrator.ReconcileStalls` | internal/orchestrator/reconcile.go:14-29 | whatever order the map is walked in, exactly the stalled entries are marked and exactly their workers cancelled |
| `OrchestratorLoop.Orchestrator.RefreshOne` | internal/orchestrator/reconcile.go:50-67 | terminal: terminate with cleanup; active: update state and labels only; neither: terminate without cleanup |
| `OrchestratorLoop.Orchestrator.TerminateRunning` | internal/orchestrator/reconcile.go:72-81 | a no-op on an unknown or already terminating entry; otherwise flags set and worker cancelled |
| `OrchestratorLoop.Orchestrator.AnyToRefresh` | internal/orchestrator/reconcile.go:32-41 | whether any running worker is left to refresh |
| `OrchestratorLoop.Orchestrator.RunningCountByState` | internal/orchestrator/state.go:64-73 | the counting loop returns the number of entries whose current state normalises to the given one |
| `OrchestratorLoop.Orchestrator.GlobalAvailable` | internal/orchestrator/state.go:76-82 | free slots, never negative, counted over the entry map |
| `OrchestratorLoop.RunningEntry.LastActivity` | internal/orchestrator/state.go:30-35 | last event time, or the start time before any event |
| `Domain.StringLessMeaning` | internal/orchestrator/orchestrator.go:509 | the order of identifiers is lexical: where two first differ, or one ends, decides |
| `Domain.NormalForm` | internal/domain/domain.go:112-115 | the normal form of a name is the name without outer blanks, A to Z in lower case |
| `Sorting.RankMeaning` | internal/orchestrator/orchestrator.go:498-525 | the comparator: lower priority first, missing last; then older first, missing last; then identifier; the largest int ranks like a missing value |
| `Sorting.KeyNotLessTransitive` | internal/orchestrator/orchestrator.go:499-510 | the comparator is a strict weak order, as sort.SliceStable needs it |
| `Sorting.SortIsStable` | internal/orchestrator/orchestrator.go:498-511 | the model sorts, keeps every issue, and keeps equal keys in their original order |
| `Sorting.SortForDispatchUnique` | internal/orchestrator/orchestrator.go:498-511 | any list that is a stable sort of the candidates is this one, whatever algorithm produced it |
| `Books.FoundFirst` | internal/orchestrator/orchestrator.go:487-494 | findByID returns the first candidate with the id |
| `Books.FoundNone` | internal/orchestrator/orchestrator.go:487-494 | findByID returns nothing if no candidate has the id |
| `Admission.WantedExactly` | internal/orchestrator/reconcile.go:101-179 | isEligible holds exactly if none of the rules is broken: blank field, state not listed as active, state listed as terminal, for Todo an unknown or non-terminal blocker, another assignee, a blank or a missing required label |
| `Outcomes.RuleExcludes` | internal/orchestrator/reconcile.go:101-179 | breaking any single rule keeps an issue out of both the tick and the retry |
| `Admission.TickTakes` | internal/orchestrator/orchestrator.go:143-199 | whatever a tick dispatches is on the tracker's list, breaks no rule, was unclaimed, had room in its state and overall at that moment, and starts as attempt 0 with a clean record; no tick dispatches without valid settings and a list |
| `Admission.TickMisses` | internal/orchestrator/orchestrator.go:161-180 | a listed, unclaimed issue that breaks no rule is dispatched unless its state or the whole is out of room after the tick |
| `Admission.TickStaysAllowed` | internal/orchestrator/orchestrator.go:161-180 | no tick takes a state past its override, or without one the global number, nor the whole past the global limit, except as far as it already was |
| `Admission.PassedOverForRoom` | internal/orchestrator/orchestrator.go:161-180 | a better-ranked issue is passed over for a worse one only if its state had no room at its turn |
| `Eligibility.EligibilityUpToNormalization` | internal/orchestrator/reconcile.go:101-123 | eligibility and per-state limits see a state name only up to case and outer blanks |
| `Domain.NormalizeStateIdempotent` | internal/domain/domain.go:112-115 | normalising twice is normalising once |
| `Backoff.WrapMeaning` | internal/orchestrator/orchestrator.go:434 | a duration that does not fit is reduced modulo 2^64 into the int64 range |
| `Backoff.DelayFormula` | internal/orchestrator/orchestrator.go:423-435 | for caps an int64 of nanoseconds can hold the delay is min(10 s * 2^(attempt-1), cap), and it does not overflow |
| `Backoff.DelayExactIffCapFits` | internal/orchestrator/orchestrator.go:430-434 | all failure delays are exact if and only if the cap is at most 9223372036854 ms in magnitude; beyond that the duration wraps |
| `Backoff.BackoffDoublesThenStays` | internal/orchestrator/orchestrator.go:430-433 | the delay doubles until the cap cuts it off and then stays there |
| `Backoff.BackoffMonotone` | internal/orchestrator/orchestrator.go:427-433 | a later attempt never waits less |
| `Backoff.BackoffReachesCap` | internal/orchestrator/orchestrator.go:430-433 | every cap is reached after finitely many failures |
| `Books.StepKeepsBooks` | internal/orchestrator/orchestrator.go:185-210 | every step of every interleaving keeps the whole-system invariant: claims, workers, channel order, timers, flags |
| `Books.RunKeepsBooks` | internal/orchestrator/orchestrator.go:77-100 | hence every run does |
| `Books.ClaimsDisjoint` | internal/orchestrator/orchestrator.go:320-458 | the claim set is the disjoint union of the running and the retrying ids |
| `Books.Reconciled` | internal/orchestrator/reconcile.go:12-81 | reconcile changes none of the three key sets |
| `Liveness.ExactlyOneWakeup` | internal/orchestrator/orchestrator.go:185-210 | in every reachable state a running id has one live worker or one undelivered exit, never both, a retrying id has one timer armed, firing or posted, and no other id has any |
| `Liveness.RunningHasOneWorker` | internal/orchestrator/orchestrator.go:201-210 | the worker half of it, for any state the invariant holds in |
| `Liveness.RetryingHasOneTimer` | internal/orchestrator/orchestrator.go:437-448 | the timer half of it |
| `Liveness.NoStaleMessage` | internal/orchestrator/orchestrator.go:246-250 | the next message always concerns an entry that exists and comes from the worker or timer that entry records: the nil-entry guards never fire |
| `Liveness.WorkersBounded` | internal/orchestrator/orchestrator.go:201-210 | there are never more live worker goroutines than running entries |
| `Progress.ClaimEndsByOwnWakeup` | internal/orchestrator/orchestrator.go:320-396 | a claim is only ever given up by the delivery of its own wake-up |
| `Progress.WakeupReachable` | internal/orchestrator/orchestrator.go:320-396 | from every state the invariant holds in, a claimed issue's wake-up can be delivered after finitely many steps, even with the tracker down |
| `Progress.NoClaimStuck` | internal/orchestrator/orchestrator.go:320-396 | hence in no reachable state has a claim become impossible to settle |
| `Fairness.ClaimsAreServed` | internal/orchestrator/orchestrator.go:91-124 | in every endless run in which the loop keeps receiving, workers return and timers fire and post, each claim's wake-up is delivered |
| `Fairness.QueueInOrder` | internal/orchestrator/orchestrator.go:91-99 | whatever else goes on, the message at position k of the channel is what the (k + 1)-th delivery from now handles |
| `Outcomes.ExitSpelled` | internal/orchestrator/orchestrator.go:320-362 | a dropped worker's issue is released; a normal return waits 1 s as attempt 1 without error; an error waits as the next attempt for min(10 s * 2^(attempt-1), cap) under the settings in force, with the error text; run time, totals and entries as they should be |
| `Outcomes.WakeupSpelled` | internal/orchestrator/orchestrator.go:365-396 | tracker down: next attempt; first candidate with the id missing or breaking a rule: released; no room: next attempt; else dispatched as the attempt it waited for |
| `Outcomes.AfterFailureFits` | internal/orchestrator/orchestrator.go:430-434 | for every cap that fits the wait is exactly min(10000 * 2^(attempt-1), cap) ms |
| `Outcomes.StopsWaiting` | internal/orchestrator/orchestrator.go:421-458 | scheduling or dispatching an issue that already waits stops the timer it waits for |
| `Delays.RetryWasSetUp` | internal/orchestrator/orchestrator.go:419-449 | in every reachable state each retry was set up by the delivery of its issue's exit or wake-up, due one delay after that reading of the clock, and its timer, armed or fired, has that delay: 1 s after a normal exit, else the failure delay of its attempt under the cap then in force |
| `Delays.Cadence` | internal/orchestrator/orchestrator.go:143-146 | after a tick the next one is armed with the poll interval in force, after a refresh with 0, after an accepted reload, with all new settings in force, with the new interval; a rejected reload changes nothing |
| `Delays.FirstTick` | internal/orchestrator/orchestrator.go:88-90 | the first tick is armed with 0 |
| `Judging.TickJudges` | internal/orchestrator/reconcile.go:12-81 | a tick leaves a judged entry alone, stops an overdue worker (now minus last event or start above the stall timeout), and otherwise the tracker's first reply in a terminal or not active state drops it - with cleanup exactly if that state is terminal; without one the entry takes state and labels of the last reply |
| `Judging.VerdictIsReported` | internal/orchestrator/reconcile.go:12-81 | over whole runs a worker is stopped exactly if some tick found it overdue, and dropped exactly if some tick had its issue reported in a deciding state - for cleanup exactly if that state was terminal in the configuration then in force |
| `Judging.CleanupIsReported` | internal/orchestrator/orchestrator.go:325-334 | a workspace is cleaned up on exit, once, exactly if the worker's exit was handled and a tick before had its issue reported in a terminal state |
| `Judging.EndsWithExit` | internal/orchestrator/orchestrator.go:320-325 | an entry has ended exactly if its worker's exit has been handled |
| `Dispatching.DispatchIsMaximal` | internal/orchestrator/orchestrator.go:161-180 | after the dispatch phase every candidate is running, claimed, ineligible, blocked by its state limit, or no global slot is left |
| `Dispatching.TickIsMaximal` | internal/orchestrator/orchestrator.go:143-182 | the same for a whole tick, over the list the tracker returned |
| `Dispatching.NoPriorityInversion` | internal/orchestrator/orchestrator.go:161-180 | if a later candidate was dispatched and an earlier unclaimed eligible one was not, the earlier one's state was full when it was visited |
| `Dispatching.TickPrefersRank` | internal/orchestrator/orchestrator.go:161-180 | the same in terms of rank among the fetched candidates |
| `Dispatching.DispatchedIsAdmissible` | internal/orchestrator/orchestrator.go:164-179 | every new entry stems from an eligible, unclaimed candidate at a moment both limits left room, and starts with a clean record |
| `Dispatching.PhaseRespectsLimits` | internal/orchestrator/orchestrator.go:164-179 | a phase takes no state past max(its count before, its limit) and the whole not past max(count before, global limit) |
| `Polling.TickWithinLimits` | internal/orchestrator/orchestrator.go:143-182 | the same for a tick, against the counts reconciliation leaves |
| `Polling.RetryWithinLimits` | internal/orchestrator/orchestrator.go:386-394 | a retry dispatches only into a free slot of a state that is not full |
| `Polling.GrowthCapped` | internal/orchestrator/orchestrator.go:102-124 | whatever step makes the running set grow leaves it within the global limit in force, also after reloads that lowered it |
| `Polling.PollLoopAlive` | internal/orchestrator/orchestrator.go:135-146 | in every reachable state a tick is armed, firing or posted, and at most one tick timer is armed |
| `Polling.StepTicks` | internal/orchestrator/orchestrator.go:114-146 | handling a tick never increases the pending ticks and leaves at least one; a refresh or a reload adds at most one; no other step changes the number |
| `Polling.AtMostOneArmedTick` | internal/orchestrator/orchestrator.go:135-140 | at most one tick timer is armed |
| `Polling.NoWakeupStopped` | internal/orchestrator/orchestrator.go:451-458 | no armed retry wake-up is ever stopped: only firing takes it away |
| `Polling.IssueHandlersArm` | internal/orchestrator/orchestrator.go:246-396 | an update, exit or retry handler stops no timer, arms at most its own issue's wake-up, and leaves all other retries as they are |
| `Runs.TokensConserved` | internal/orchestrator/orchestrator.go:286-298 | in every reachable state: all usage ever emitted = totals + usage in flight, and totals = running sessions + ended sessions, component by component |
| `Runs.TokensCreditedToSender` | internal/orchestrator/orchestrator.go:201-298 | however often an issue is dispatched again, each worker's usage is in its own entry, in what that entry carried when it ended, or in flight |
| `Runs.TotalsBalanced` | internal/agent/claude/parse.go:159-167 | total = input + output in the global totals of every reachable state, if what workers emit is balanced |
| `Workers.TotalsBalanced` | internal/orchestrator/orchestrator.go:202-210 | and without that condition when each worker posts the events of an attempt of the runner and then its result |
| `Workers.AttemptsAreBooked` | internal/orchestrator/orchestrator.go:202-210 | in such runs an ended worker's entry carried into the totals exactly the usage its attempt reported, and a running one's session and messages in flight hold what it has posted of its attempt so far |
| `Workers.PostedIsReported` | internal/orchestrator/orchestrator.go:202-210 | what a worker has posted is a prefix of its attempt's events, and all of them once it has exited |
| `Workers.ExitTellsResult` | internal/orchestrator/orchestrator.go:202-210 | in such runs an undelivered exit is a normal one exactly if the attempt returned without an error |
| `Billing.AttemptIsBilled` | internal/agent/claude/parse.go:95-107 | the usage an attempt reports is the sum, turn by turn, of what the usage maps of its deciding result lines come to, error results included |
| `Billing.BooksAreBills` | internal/orchestrator/orchestrator.go:286-298 | and that is what an ended worker's entry carried into the totals |
| `Workers.ReportBalanced` | internal/agent/runner.go:91-159 | every usage an attempt reports is balanced |
| `Runs.AttemptsAreHistory` | internal/orchestrator/orchestrator.go:344-394 | attempt numbers are the failures since the last fresh dispatch, or 1 + failures since a later normal exit; a retry entry's is at least 1, so the clamp is never used |
| `Runs.SettingsInForce` | internal/orchestrator/orchestrator.go:399-416 | configuration, limits and cadence in force are those of the last accepted reload, and the armed tick is due at once or after that interval |
| `Runs.TerminationIsFinal` | internal/orchestrator/reconcile.go:14-81 | once reconciliation has judged a worker no later step of any run changes the verdict, and while its entry lasts the entry's flags are that verdict and the worker is cancelled |
| `Runs.CleanupExactlyOnce` | internal/orchestrator/orchestrator.go:329-334 | exit cleanup happens once for each ended worker whose verdict was to be dropped with cleanup, for no other, and never while that worker is alive |
| `Runs.ExitOutcome` | internal/orchestrator/orchestrator.go:336-361 | a dropped issue is released on exit; every other one, stalled ones included, ends in the retry queue with its claim kept: with attempt 1 and the issue marked completed on a normal return, with one attempt more and no mark on an error |
| `Stalls.StalledReturnContinues` | internal/orchestrator/reconcile.go:14-29 | a worker found stalled while its normal exit is queued is judged stopped, and its exit still makes the issue completed and its next attempt 1, whatever the tracker answers |
| `Stalls.StalledReturn` | internal/orchestrator/reconcile.go:14-29 | from startup with any configuration that detects stalls and any issue it may take there is such a run |
| `Runs.RunExtends` | internal/orchestrator/orchestrator.go:102-124 | what has been recorded about a run is never rewritten by a later step |
| `Ledger.EndCredits` | internal/orchestrator/orchestrator.go:325-327 | ending an entry moves its tokens from the running to the ended side of the books |
| `Accounts.StepRecorded` | internal/orchestrator/orchestrator.go:102-124 | every step keeps the agreement between state and history: attempts, ends, tokens, clock, verdicts, configuration |
| `Snapshots.BuildSnapshot` | internal/orchestrator/snapshot.go:13-80 | rows are exactly one per running and per retrying id, with that entry's data, sorted by identifier; counts, totals and live run time match the state |
| `Snapshots.SortRows` | internal/orchestrator/snapshot.go:67-73 | the rows come out sorted by identifier and none is lost or doubled |
| `Snapshots.OneRowEach` | internal/orchestrator/snapshot.go:22-65 | an id has a row exactly if it is running (retrying), and never two |
| `Snapshots.RunTimeConserved` | internal/orchestrator/snapshot.go:21-54 | at any time the reported run time is the sum over everything ever dispatched of (exit or now) - start |
| `Snapshots.ExitConservesRunTime` | internal/orchestrator/orchestrator.go:325-327 | processing a worker exit leaves the run time reported for that instant unchanged |
| `Snapshots.StepRunTime` | internal/orchestrator/snapshot.go:21-54 | no step lowers the reported run time, and a step that takes no time does not change it |
| `Snapshots.RunTimeMonotone` | internal/orchestrator/snapshot.go:21-54 | under a clock that does not go back no snapshot of a run reports less run time than an earlier one |
| `Snapshots.RowsShow` | internal/orchestrator/snapshot.go:22-65 | field by field, what a running and a retrying row show |
| `Sessions.SessionIsTold` | internal/orchestrator/orchestrator.go:246-302 | in every reachable state a running session is made by the messages delivered from its own worker, and by none from a worker that served the issue before |
| `Sessions.SessionFields` | internal/orchestrator/orchestrator.go:251-298 | field by field: time and kind of the last message, last text, session id (never blank or pending), turn id, process and usage, highest turn number, sum of all usage, and the newest fifty activities, oldest first |
| `Sessions.UpdatedSession` | internal/orchestrator/orchestrator.go:246-302 | an update changes its own entry's session, the totals by its usage and the rate limits if it carries some, and nothing else |
| `Sessions.ShortText` | internal/logging/logging.go:35-41 | a kept text has no outer blanks and is cut after 500 bytes |
| `Stream.UsageFromMap` | internal/agent/claude/parse.go:159-167 | total = input + output whatever the map holds, cached input tokens counted as input |
| `Reports.CountMeans` | internal/agent/claude/parse.go:276-288 | a count is the number in the map towards zero, and 0 if there is none |
| `Stream.ErrorResultExactly` | internal/agent/claude/parse.go:116-125 | a result is an error exactly if is_error is true or its subtype contains "error"; the two extra tests never decide |
| `Stream.Session.HandleEvent` | internal/agent/claude/parse.go:46-114 | session id, session_started flag, emitted events and verdict of one parsed line |
| `Stream.Session.Consume` | internal/agent/claude/client.go:202-284 | the loop with its counter and flags ends at the first deciding input, with that input's verdict, having emitted what the inputs up to it call for |
| `Stream.Session.RunTurn` | internal/agent/claude/client.go:104-193 | the turn number goes up by one, the command is built from the session id known so far, a failed spawn reads nothing |
| `Stream.SucceedsExactly` | internal/agent/claude/client.go:202-284 | a turn succeeds at an input exactly if that is a non-error result and nothing before it decided: EOF, read error, end of context, first-event timeout, result, tenth malformed line without a parsed line between |
| `Stream.CorruptExactly` | internal/agent/claude/client.go:256-267 | the running counter reaches ten exactly when ten malformed lines follow one another without a parsed line between; blank lines neither count nor reset |
| `Stream.LaterInputIgnored` | internal/agent/claude/client.go:218-283 | input after the deciding one changes neither outcome nor what was consumed |
| `Stream.UsageOnceAndLast` | internal/agent/claude/parse.go:85-107 | at most one event of a turn carries usage, it is the last one and balanced; on success it is turn_completed with the usage the turn returns |
| `Stream.StartedOnce` | internal/agent/claude/parse.go:52-94 | session_started is emitted once if some line named the session and never otherwise |
| `Stream.SessionIsLastNamed` | internal/agent/claude/parse.go:53-88 | the session id is the one named last, and unchanged if none was |
| `Stream.NextTurnResumes` | internal/agent/claude/client.go:85-87 | the turn after one whose stream named the session asks the shell to resume exactly that session |
| `Reports.LineIsReported` | internal/agent/claude/parse.go:46-113 | kind, text, ids, process, usage, step usage and rate limits of the event each parsed line gives rise to, and when session_started comes before it; usage is there exactly if the line has a usage map, and adds up its counts |
| `Reports.SignalReports` | internal/agent/claude/client.go:220-264 | the event of every other input |
| `Reports.TurnEnds` | internal/agent/claude/client.go:220-281 | which error code, or success with which usage, each kind of deciding input gives; the tenth malformed line of a stretch, the first-event timeout and the result with their exact causes |
| `Reports.NothingPassedOver` | internal/agent/claude/client.go:218-281 | a turn is over at the latest with the first input that can end one |
| `Reports.TurnIsBilled` | internal/agent/claude/parse.go:85-107 | the events of a turn add up to what its deciding result line's usage map comes to |
| `Reports.SpawnOrStream` | internal/agent/claude/client.go:104-193 | a turn that cannot be started fails with that cause and reports nothing; a first-event timeout exists exactly if one is configured |
| `Reports.TurnIdReadsBack` | internal/agent/claude/client.go:105 | a turn id is the decimal number of the turn |
| `Resumption.NothingToResume` | internal/agent/claude/client.go:85-87 | turn 1, and every turn before a line has named the session, runs the base command with its flags and resumes nothing |
| `Resumption.ResumesLastNamed` | internal/agent/claude/client.go:85-87 | from then on a turn resumes the session named last, by whichever turn, if resuming is on |
| `Runner.DefaultRunner.constructor` | internal/agent/runner.go:69-88 | at least one turn is allowed, and a state is active exactly if it normalises to a configured one |
| `Runner.DefaultRunner.Run` | internal/agent/runner.go:91-159 | the loop with its early returns is the run function |
| `Runner.RunProtocol` | internal/agent/runner.go:91-159 | create, before_run, launch check, start, then at most maxTurns turn/refresh rounds of which the last may lack its refresh, then stop and after_run on every return; turns after the first use the continuation text and follow a refresh that left the issue in its dispatch state; each result with its exact cause |
| `Runner.FailsBeforeLaunch` | internal/agent/runner.go:92-107 | calls and error of a run that fails before its session starts |
| `Runner.CleanupExactlyOnce` | internal/agent/runner.go:98-158 | after_run runs exactly once, as the last call, if before_run succeeded; the session is stopped exactly once if it was started |
| `Runner.RefreshedIssue` | internal/agent/runner.go:131-140 | after a refresh the labels are the first listed issue's, the state too unless it is blank, and everything else is as it was; an empty answer changes nothing |
| `Runner.MergeKeeps` | internal/agent/runner.go:197-203 | refreshes never change id, identifier or title |
| `Runner.RunUsage` | internal/agent/runner.go:116-154 | a run reports at most one usage-bearing event per turn, each balanced |
| `Lexical.StripGraphQL` | internal/tools/lineargql/parse.go:51-86 | the byte scanner, in bounds and terminating on every text, computes the specification |
| `Lexical.LexIsValid` | internal/tools/lineargql/parse.go:51-86 | every text, unterminated literals included, is the concatenation of a valid list of lexemes |
| `Lexical.LexIsUnique` | internal/tools/lineargql/parse.go:51-86 | and of only one |
| `Lexical.StripRemoves` | internal/tools/lineargql/parse.go:51-86 | no quote and no number sign is left, and the text never gets longer |
| `Lexical.StripIdempotent` | internal/tools/lineargql/parse.go:51-86 | stripping twice is stripping once |
| `Lexical.StripConcat` | internal/tools/lineargql/parse.go:51-86 | stripping distributes over concatenation if the left part is lexically closed and the right part does not start with a quote |
| `Operations.ReadWord` | internal/tools/lineargql/parse.go:92-98 | the longest prefix of word characters |
| `Operations.CountOperations` | internal/tools/lineargql/parse.go:6-47 | the index loop computes the scanner function |
| `Operations.NamesExactly` | internal/tools/lineargql/parse.go:88-98 | the words of the scanner that can be names are the names of the specification |
| `Operations.TextScanned` | internal/tools/lineargql/parse.go:6-47 | on any printing of a token list the byte scanner does what a scanner of the tokens would do |
| `Operations.StripPrinted` | internal/tools/lineargql/parse.go:49-86 | what stripping leaves of printed text, token by token |
| `October.AgreeExactly` | internal/tools/lineargql/parse.go:51-86 | for every text: the scanner reads it as the October 2021 specification does if and only if no comment is ended by a lone carriage return and no block string holds an escaped triple quote |
| `October.SpecLexIsUnique` | internal/tools/lineargql/parse.go:51-86 | a list of lexemes valid by the rules of the specification is the specification's lexing of its text |
| `October.ReadsNeutral` | internal/tools/lineargql/parse.go:51-86 | for every text: the scanner reads it as the specification reads the text that differs from it only in blanks for some carriage returns and backslashes |
| `Operations.PrintedReadAlike` | internal/tools/lineargql/parse.go:51-86 | a printing is read as the specification reads it if and only if it has no comment ended by a carriage return and no escaped triple quote |
| `Operations.CountNeutral` | internal/tools/lineargql/parse.go:6-47 | that other text has the same count |
| `Grammar.FoundExactly` | internal/tools/lineargql/parse.go:11-45 | what the scanner finds in a definition header: its start unless the word fragment comes first, and one more for each object value that word does not shield |
| `Counting.CountExactly` | internal/tools/lineargql/parse.go:6-47 | on readable printings the count is the number of operation definitions plus the unshielded object values in definition headers |
| `Counting.CountRightExactly` | internal/tools/lineargql/parse.go:6-47 | on readable printings the count is never too low, and right if and only if in every header the word fragment comes before any operation keyword after each object value |
| `Counting.CountIsRight` | internal/tools/lineargql/parse.go:3-5 | without object values in headers the count of a readable printing is right, whatever the names, strings, comments and nesting |
| `Counting.AcceptedExactly` | internal/tools/lineargql/tool.go:87-90 | which readable documents pass the single-operation rule: one operation and shielded headers, or no operation and one unshielded object value in fragment headers |
| `Counting.NeverTwoTakenForOne` | internal/tools/lineargql/tool.go:87-90 | a readable document - no comment ended by a lone carriage return, no escaped triple quote in a block string - with two or more operations never passes the single-operation rule |
| `Counting.CountAnyText` | internal/tools/lineargql/parse.go:6-47 | for any text, readable or not: if the text the scanner takes it for prints a document, the count is that document's |
| `Counting.CountRightOnAnyText` | internal/tools/lineargql/parse.go:3-5 | hence a document's count is right if and only if the document it is taken for has as many operations and unshielded object values |
| `Counting.HasPrinting` | internal/tools/lineargql/parse.go:3-5 | every document of well-formed tokens has a printing the theorems speak of |
| `Counting.HeaderObjectCountsTwice` | internal/tools/lineargql/parse.go:15-31 | a single operation with an object as default value is counted as two, however it is readably printed |
| `Counting.FragmentObjectCountsOnce` | internal/tools/lineargql/tool.go:87-90 | a lone fragment with an object value in its header passes the single-operation rule with no operation |
| `Counting.ReturnHidesRest` | internal/tools/lineargql/parse.go:57-60 | if no line feed follows, every operation behind a comment ended by a lone carriage return is missed, and the count is that of the document before the comment |
| `Counting.CarriageReturnHidesOperation` | internal/tools/lineargql/parse.go:57-60 | so a document of one operation is counted as having none |
| `Counting.CarriageReturnPassesTwo` | internal/tools/lineargql/tool.go:87-90 | and a document of two operations passes the single-operation rule |
| `Counting.EscapeHidesRest` | internal/tools/lineargql/parse.go:63-68 | whatever document follows one operation with a block string argument that is an escaped triple quote: if it prints no quote, all its operations are missed |
| `Counting.EscapedTriplePassesTwo` | internal/tools/lineargql/tool.go:87-90 | so a document of two operations passes the single-operation rule |
| `Counting.EscapedTripleCountsTwice` | internal/tools/lineargql/parse.go:63-68 | what follows the escape in the block string is read as document: one operation counts as two |
| `Shell.CommandReadsBack` | internal/agent/claude/client.go:77-89 | for a lexically closed base command the shell reads the base, then the flags: model and effort byte for byte, each one word with every character quoted; nothing more if resuming is off or the id is blank or pending, else the request to resume, with a plain-word id as itself |
| `Shell.ResumeReadsBackExactly` | internal/agent/claude/client.go:85-87 | the session id comes back as itself if and only if it is a plain word: it gets no quoting |
| `Shell.ReadQuoted` | internal/agent/claude/client.go:93-95 | a single-quoted value is read as exactly that value |

## Left out

- Cancellation of the root context and shutdown: from then on `post` may drop messages, so all runs end before it.
- Startup validation, routing summary and startup cleanup: the model starts where Run enters its loop, with a valid configuration.
- The tracker client, workspaces, hooks, prompt rendering, configuration loading and JSON decoding: oracles whose answers are arbitrary.
- Subprocesses, pipes, the stderr tail and real timers: the stream's inputs come in the order select picks them; that a turn ends at all is not claimed.
- Logging, notification callbacks, HTTP and terminal surfaces, the MCP transport: they read the state and do not change it.
- Floating point: the backoff is exact integer arithmetic with saturation at the cap, and run time is in nanoseconds rather than summed float seconds; caps above 2^53 ms would round.
- Token counters are unbounded integers: int64 overflow is not modelled, nor are float64 counts outside the int range in a usage map.
- Strings are bytes; trimming and case folding cover ASCII, not all of Unicode.
- An agent event carries the number its turn id reads as (strconv.Atoi); for the events of `Stream` Reports.TurnIdReadsBack shows that it is the right one, for others it is given.
- WorkspacePath of an entry and the choice of model, effort and prompt per state: they only pass through.
- sort.SliceStable and sort.Slice themselves: an insertion sort stands in, shown to give the only stable result for the former.
- Map iteration order: the loops over maps take their elements in any order and are proved for all of them.
- Counting.CountRightOnAnyText: speaks of unreadable documents whose neutral text is a document again; for the others the count is known only as the byte scan of that text (Operations.CountNeutral).
- Counting.CountIsRight: type system definitions are outside its documents.
- Fairness.ClaimsAreServed: that the loop keeps receiving, that workers return and that timers fire are its assumptions, not its results.
- Progress.NoClaimStuck: that a wake-up can be delivered; that it is delivered is Fairness.ClaimsAreServed, under fairness.
- Shell.CommandReadsBack: expansions are not modelled; operators of the base command are single characters and here-documents are not read.
- The wording of continuation prompts: a prompt is identifier, title and one of two placeholders for the guidance of its mode.
- Runner.RunProtocol: the error text wrapping and the path handed to hooks are not recorded in the trace.
- Snapshots.BuildSnapshot: rows with equal identifiers may come in any order, as in the source.
