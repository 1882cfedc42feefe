/** What the handlers of worker exits and retry timers come to, case by case and in numbers: who is
    released, who is dispatched, and who waits, for how long, as which attempt and with which error. */
module Outcomes {
  import opened Domain
  import opened State
  import opened Eligibility
  import opened Handlers
  import opened Books
  import opened Polling
  import opened Admission
  import Backoff

  // ---------- waiting ----------

  /** How long attempt number `attempt` waits after a failure, in ns: 10 s, doubled with every further
      attempt, at most the cap; the multiplication to ns is a 64-bit one. */
  function AfterFailure(attempt: int, capMs: int): int
    requires attempt >= 1
  {
    var ms := 10_000 * Backoff.Pow2(attempt - 1);
    Backoff.Wrap64((if ms > capMs then capMs else ms) * 1_000_000)
  }

  /** For every cap an int64 of nanoseconds can hold that is the documented delay. */
  lemma AfterFailureFits(attempt: int, capMs: int)
    requires attempt >= 1 && 0 <= capMs <= 9_223_372_036_854
    ensures var ms := 10_000 * Backoff.Pow2(attempt - 1);
      AfterFailure(attempt, capMs) == (if ms < capMs then ms else capMs) * 1_000_000
    ensures Backoff.Pow2(0) == 1 && Backoff.Pow2(attempt) == 2 * Backoff.Pow2(attempt - 1)
  {
    var ms := 10_000 * Backoff.Pow2(attempt - 1);
    Backoff.WrapIdentity((if ms > capMs then capMs else ms) * 1_000_000);
  }

  /** `id` waits from `at` on, for `delay` ns, with a timer of its own; nobody else's retry has changed. */
  ghost predicate Waits(s: Orchestration, s': Orchestration, id: string, attempt: int, delay: int, identifier: string,
                        url: Option<string>, error: Option<string>, at: Time) {
    && id in s'.retry && id in s'.claimed && id !in s'.running
    && s'.retry[id] == Retry(identifier, attempt, (at + delay) / 1_000_000, s'.retry[id].timer, error, url)
    && s'.retry[id].timer == s.rt.nextTimer && s'.rt.firing == s.rt.firing
    && s'.rt.armed == s.rt.armed[s.rt.nextTimer := Timer(RetryTimerFired(id), delay)]
    && s'.retry - {id} == s.retry - {id}
  }

  lemma WaitsForSuccess(s: Orchestration, id: string, identifier: string, url: Option<string>, at: Time)
    requires id !in s.retry && id !in s.running
    ensures Waits(s, ScheduleRetry(s, id, 1, identifier, url, None, true, at), id, 1, 1_000_000_000, identifier, url, None, at)
  {}

  lemma WaitsForFailure(s: Orchestration, id: string, attempt: int, identifier: string, url: Option<string>, error: string, at: Time)
    requires id !in s.retry && id !in s.running && attempt >= 1
    ensures Waits(s, ScheduleRetry(s, id, attempt, identifier, url, Some(error), false, at), id, attempt,
                  AfterFailure(attempt, s.cfg.maxRetryBackoffMs), identifier, url, Some(error), at)
  {}

  lemma OthersWait(s: Orchestration, taken: Orchestration, s': Orchestration, id: string, attempt: int, delay: int,
                   identifier: string, url: Option<string>, error: Option<string>, at: Time)
    requires Waits(taken, s', id, attempt, delay, identifier, url, error, at)
    requires taken.rt == s.rt && taken.retry - {id} == s.retry - {id}
    ensures Waits(s, s', id, attempt, delay, identifier, url, error, at)
  {}

  /** Scheduling or dispatching an issue that waits stops the timer it waits for. */
  lemma StopsWaiting(s: Orchestration, issue: Issue, attempt: int, identifier: string, url: Option<string>,
                     error: Option<string>, again: Option<int>, at: Time)
    requires issue.id in s.retry && s.retry[issue.id].timer < s.rt.nextTimer
    ensures var s' := ScheduleRetry(s, issue.id, attempt, identifier, url, error, false, at);
      s.retry[issue.id].timer !in s'.rt.armed && s'.retry[issue.id].attempt == (if attempt < 1 then 1 else attempt)
    ensures var s' := DispatchIssue(s, issue, again, at);
      s.retry[issue.id].timer !in s'.rt.armed && issue.id !in s'.retry
  {
    hide Backoff.RetryDelay;
  }

  // ---------- worker exits ----------

  /** An exit ends the entry.  A worker that reconciliation had dropped is released; a normal return waits
      a second as attempt 1, without error; an error waits as the next attempt. */
  lemma ExitSpelled(s: Orchestration, id: string, reason: ExitReason, err: Option<string>, input: Input)
    requires id in s.running && id !in s.retry && s.running[id].retryAttempt >= 0
    ensures var e, s' := s.running[id], OnWorkerExit(s, id, reason, err, input);
      && s'.running == s.running - {id} && s'.cfg == s.cfg
      && s'.endedNs == s.endedNs + (input.clock(0) - e.startedAt) && s'.totals == s.totals
      && if e.releaseOnExit then id !in s'.claimed && s'.retry == s.retry && s'.rt == s.rt && s'.completed == s.completed
         else if reason == ExitNormal then
           && s'.completed == s.completed + {id}
           && Waits(s, s', id, 1, 1_000_000_000, e.identifier, e.issue.url, None, input.clock(1))
         else
           && s'.completed == s.completed
           && Waits(s, s', id, e.retryAttempt + 1, AfterFailure(e.retryAttempt + 1, s.cfg.maxRetryBackoffMs), e.identifier,
                    e.issue.url, Some(if err == None then "worker exited" else "worker exited: " + err.value), input.clock(1))
  {
    hide ScheduleRetry, Waits, EndWorker, AfterFailure;
    var e, ended := s.running[id], EndWorker(s, id, input.clock(0));
    Ended(s, id, input.clock(0));
    var done, failed := ended.(completed := ended.completed + {id}).Log(Completed(id)), ended.Log(Failed(id, AbnormalExit));
    WaitsForSuccess(done, id, e.identifier, e.issue.url, input.clock(1));
    WaitsForFailure(failed, id, e.retryAttempt + 1, e.identifier, e.issue.url, ExitMessage(err), input.clock(1));
    RetryTouches(done, id, 1, e.identifier, e.issue.url, None, true, input.clock(1));
    RetryTouches(failed, id, e.retryAttempt + 1, e.identifier, e.issue.url, Some(ExitMessage(err)), false, input.clock(1));
    if !e.releaseOnExit {
      if reason == ExitNormal {
        OthersWait(s, done, OnWorkerExit(s, id, reason, err, input), id, 1, 1_000_000_000, e.identifier, e.issue.url, None, input.clock(1));
      } else {
        OthersWait(s, failed, OnWorkerExit(s, id, reason, err, input), id, e.retryAttempt + 1,
                   AfterFailure(e.retryAttempt + 1, s.cfg.maxRetryBackoffMs), e.identifier, e.issue.url, Some(ExitMessage(err)),
                   input.clock(1));
      }
    }
  }

  lemma Ended(s: Orchestration, id: string, at: Time)
    requires id in s.running
    ensures var e, s' := s.running[id], EndWorker(s, id, at);
      s' == s.(running := s.running - {id}, endedNs := s.endedNs + (at - e.startedAt), journal := s'.journal)
  {}

  lemma RetryTouches(s: Orchestration, id: string, attempt: int, identifier: string, url: Option<string>,
                     error: Option<string>, continuation: bool, now: Time)
    ensures var s' := ScheduleRetry(s, id, attempt, identifier, url, error, continuation, now);
      s' == s.(retry := s'.retry, claimed := s'.claimed, rt := s'.rt)
  {
    hide Backoff.RetryDelay;
  }

  // ---------- retry timers ----------

  /** The first of the candidates with this id is the i-th. */
  predicate FirstAt(issues: seq<Issue>, id: string, i: nat) {
    i < |issues| && issues[i].id == id && forall j :: 0 <= j < i ==> issues[j].id != id
  }

  /** A retry timer takes the retry entry.  If the tracker is down the issue waits as the next attempt.
      Otherwise the first candidate with the id decides: without one, or if it breaks a rule, the issue
      is released; without room for it, it waits as the next attempt; else it is dispatched again, as
      the attempt it waited for. */
  lemma WakeupSpelled(s: Orchestration, id: string, input: Input)
    requires id in s.retry && id !in s.running && s.retry[id].attempt >= 1
    ensures var r, s' := s.retry[id], OnRetryTimer(s, id, input);
      && s'.cfg == s.cfg && s'.totals == s.totals && s'.endedNs == s.endedNs && s'.completed == s.completed
      && (input.candidates == None ==>
            && s'.running == s.running
            && Waits(s, s', id, r.attempt + 1, AfterFailure(r.attempt + 1, s.cfg.maxRetryBackoffMs), r.identifier, r.url,
                     Some("retry poll failed"), input.clock(0)))
    ensures input.candidates.Some? && (forall c :: c in input.candidates.value ==> c.id != id) ==>
      Released(s, OnRetryTimer(s, id, input), id)
    ensures input.candidates.Some? ==> forall i: nat :: FirstAt(input.candidates.value, id, i) ==>
      var c, r, s' := input.candidates.value[i], s.retry[id], OnRetryTimer(s, id, input);
      && (!Wanted(s.cfg, c) ==> Released(s, s', id))
      && (Wanted(s.cfg, c) && !HasRoom(s, c.state) ==>
            && s'.running == s.running
            && Waits(s, s', id, r.attempt + 1, AfterFailure(r.attempt + 1, s.cfg.maxRetryBackoffMs), c.identifier, c.url,
                     Some("no available orchestrator slots"), input.clock(0)))
      && (Wanted(s.cfg, c) && HasRoom(s, c.state) ==> Redispatched(s, s', id, c, r.attempt, input.clock(0)))
  {
    hide *;
    WakeupCases(s, id, input);
    if input.candidates.Some? {
      var issues := input.candidates.value;
      if forall c :: c in issues ==> c.id != id { FoundNone(issues, id); }
      FirstFound(issues, id);
    }
  }

  lemma FirstFound(issues: seq<Issue>, id: string)
    ensures forall i: nat :: FirstAt(issues, id, i) ==> FindById(issues, id) == Some(issues[i])
  {
    forall i: nat | FirstAt(issues, id, i)
      ensures FindById(issues, id) == Some(issues[i])
    {
      FoundFirst(issues, id, i);
    }
  }

  /** The claim is gone, and nothing else has changed. */
  ghost predicate Released(s: Orchestration, s': Orchestration, id: string) {
    s' == s.(retry := s.retry - {id}, claimed := s.claimed - {id}, journal := s'.journal)
  }

  /** A new worker serves the issue, for the given attempt. */
  ghost predicate Redispatched(s: Orchestration, s': Orchestration, id: string, c: Issue, attempt: int, at: Time) {
    && s'.running == s.running[id := Entry(c.identifier, c, s.rt.nextWorker, at, NewSession, attempt, false, false, false)]
    && s'.rt.live == s.rt.live[s.rt.nextWorker := id] && id in s'.claimed && s'.retry == s.retry - {id}
  }

  lemma WakeupCases(s: Orchestration, id: string, input: Input)
    requires id in s.retry && id !in s.running && s.retry[id].attempt >= 1
    ensures var r, s' := s.retry[id], OnRetryTimer(s, id, input);
      && s'.cfg == s.cfg && s'.totals == s.totals && s'.endedNs == s.endedNs && s'.completed == s.completed
      && if input.candidates.None? then
           && s'.running == s.running
           && Waits(s, s', id, r.attempt + 1, AfterFailure(r.attempt + 1, s.cfg.maxRetryBackoffMs), r.identifier, r.url,
                    Some("retry poll failed"), input.clock(0))
         else
           var found := FindById(input.candidates.value, id);
           if found.None? || !Wanted(s.cfg, found.value) then Released(s, s', id)
           else if !HasRoom(s, found.value.state) then
             && s'.running == s.running
             && Waits(s, s', id, r.attempt + 1, AfterFailure(r.attempt + 1, s.cfg.maxRetryBackoffMs), found.value.identifier,
                      found.value.url, Some("no available orchestrator slots"), input.clock(0))
           else Redispatched(s, s', id, found.value, r.attempt, input.clock(0))
  {
    hide ScheduleRetry, DispatchIssue, Waits, Redispatched, AfterFailure, IsEligible, StateFull, FindById, Wanted, HasRoom,
      Orchestration.GlobalAvailable;
    var r, taken, at := s.retry[id], s.(retry := s.retry - {id}), input.clock(0);
    var s' := OnRetryTimer(s, id, input);
    if input.candidates.None? {
      WaitsOn(s, taken, id, RetryPollFailed, r.attempt + 1, r.identifier, r.url, "retry poll failed", at);
    } else {
      var found := FindById(input.candidates.value, id);
      Found(input.candidates.value, id);
      if found.Some? {
        var c := found.value;
        WantedExactly(s.cfg, c);
        SameLimits(s, taken);
        RoomSpelled(s, c.state);
        if Wanted(s.cfg, c) {
          if HasRoom(s, c.state) {
            DispatchSpelled(s, taken, c, r.attempt, at);
          } else {
            WaitsOn(s, taken, id, NoSlots, r.attempt + 1, c.identifier, c.url, "no available orchestrator slots", at);
          }
        }
      }
    }
  }

  lemma RoomSpelled(s: Orchestration, state: string)
    ensures HasRoom(s, state) <==> s.GlobalAvailable() != 0 && !StateFull(s, state)
  {
    RoomExactly(s, state);
    hide StateFull, Orchestration.GlobalAvailable, Tracked, Allowed;
  }

  lemma WaitsOn(s: Orchestration, taken: Orchestration, id: string, kind: FailureKind, attempt: int, identifier: string,
                url: Option<string>, error: string, at: Time)
    requires id in s.retry && id !in s.running && attempt >= 1 && taken == s.(retry := s.retry - {id})
    ensures var s' := ScheduleRetry(taken.Log(Failed(id, kind)), id, attempt, identifier, url, Some(error), false, at);
      && Waits(s, s', id, attempt, AfterFailure(attempt, s.cfg.maxRetryBackoffMs), identifier, url, Some(error), at)
      && s'.running == s.running && s'.cfg == s.cfg && s'.totals == s.totals && s'.endedNs == s.endedNs && s'.completed == s.completed
  {
    hide ScheduleRetry, Waits, AfterFailure;
    var failed := taken.Log(Failed(id, kind));
    WaitsForFailure(failed, id, attempt, identifier, url, error, at);
    RetryTouches(failed, id, attempt, identifier, url, Some(error), false, at);
    OthersWait(s, failed, ScheduleRetry(failed, id, attempt, identifier, url, Some(error), false, at), id, attempt,
               AfterFailure(attempt, s.cfg.maxRetryBackoffMs), identifier, url, Some(error), at);
  }

  lemma DispatchSpelled(s: Orchestration, taken: Orchestration, c: Issue, attempt: int, at: Time)
    requires taken == s.(retry := s.retry - {c.id})
    ensures var s' := DispatchIssue(taken, c, Some(attempt), at);
      && Redispatched(s, s', c.id, c, attempt, at)
      && s'.cfg == s.cfg && s'.totals == s.totals && s'.endedNs == s.endedNs && s'.completed == s.completed
  {}

  // ---------- broken rules ----------

  /** An issue that breaks some rule, whichever it is, is dispatched neither by a tick nor by its retry. */
  lemma RuleExcludes(s: Orchestration, input: Input, id: string, rule: Issue -> Rule)
    requires BooksOk(s, {}) && id !in s.running && (id in s.retry ==> s.retry[id].attempt >= 1)
    requires input.candidates.Some? ==> forall c :: c in input.candidates.value && c.id == id ==> Breaks(s.cfg, c, rule(c))
    ensures id !in OnTick(s, input).running && id !in OnRetryTimer(s, id, input).running
  {
    hide *;
    if id in OnTick(s, input).running {
      var i, moment := TickTakes(s, input, id);
      NotWanted(s.cfg, input.candidates.value[i], rule(input.candidates.value[i]));
    }
    if id !in s.retry {
      NoRetry(s, id, input);
    } else {
      WakeupCases(s, id, input);
      if input.candidates.Some? {
        var found := FindById(input.candidates.value, id);
        if found.Some? {
          FoundThere(input.candidates.value, id);
          NotWanted(s.cfg, found.value, rule(found.value));
        }
      }
    }
    ReleasedOut(s, OnRetryTimer(s, id, input), id);
  }

  lemma NoRetry(s: Orchestration, id: string, input: Input)
    requires id !in s.retry
    ensures OnRetryTimer(s, id, input) == s
  {}

  lemma ReleasedOut(s: Orchestration, s': Orchestration, id: string)
    ensures Released(s, s', id) ==> s'.running == s.running
  {}

  lemma NotWanted(cfg: Config, issue: Issue, rule: Rule)
    requires Breaks(cfg, issue, rule)
    ensures !Wanted(cfg, issue)
  {
    hide Breaks;
  }

  lemma {:induction false} FoundThere(issues: seq<Issue>, id: string)
    ensures var found := FindById(issues, id);
      found.Some? ==> found.value in issues && found.value.id == id
  {
    if issues != [] { FoundThere(issues[1..], id); }
  }
}
