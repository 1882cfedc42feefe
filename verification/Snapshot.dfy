/** The snapshot handed to observers (internal/orchestrator/snapshot.go), and the run time it reports:
    conserved across worker exits, never decreasing under a monotone clock. */
module Snapshots {
  import opened Domain
  import opened State
  import opened Handlers
  import opened System
  import opened Eligibility
  import opened Wakeups
  import opened Books
  import opened Histories
  import opened Ledger
  import opened Accounts
  import opened Runs
  import opened OrchestratorLoop
  import Sorting

  // ---------- the projection ----------

  datatype RunningRow = RunningRow(
    id: string, identifier: string, url: Option<string>, state: string, sessionId: string, turnCount: int,
    startedAt: Time, lastEvent: string, lastMessage: string, lastEventAt: Option<Time>, tokens: Usage,
    activity: seq<Activity>, retryAttempt: int)

  datatype RetryRow = RetryRow(
    id: string, identifier: string, url: Option<string>, attempt: int, dueAtMs: int, error: Option<string>)

  datatype Snapshot = Snapshot(
    generatedAt: Time, runningCount: int, retryingCount: int, running: seq<RunningRow>, retrying: seq<RetryRow>,
    totals: Usage, runningNs: int, rateLimits: Option<string>)

  function RowOf(id: string, e: Entry): RunningRow {
    RunningRow(id, e.identifier, e.issue.url, e.issue.state, e.session.sessionId, e.session.turnCount, e.startedAt,
               if e.session.lastEvent.Some? then e.session.lastEvent.value else "", e.session.lastMessage,
               e.session.lastTimestamp, e.session.tokens, e.session.activity, e.retryAttempt)
  }

  function RetryRowOf(id: string, r: Retry): RetryRow {
    RetryRow(id, r.identifier, r.url, r.attempt, r.dueAtMs, r.error)
  }

  /** One row for each id in `ids`. */
  function RunningRows(m: map<string, Entry>, ids: set<string>): set<RunningRow>
    requires ids <= m.Keys
  {
    set id | id in ids :: RowOf(id, m[id])
  }

  function RetryRows(m: map<string, Retry>, ids: set<string>): set<RetryRow>
    requires ids <= m.Keys
  {
    set id | id in ids :: RetryRowOf(id, m[id])
  }

  ghost predicate Ordered<T(!new)>(rows: seq<T>, name: T -> string) {
    forall i, j :: 0 <= i < j < |rows| ==> !StringLess(name(rows[j]), name(rows[i]))
  }

  /** What buildSnapshot promises of a snapshot of s taken at `now`. */
  ghost predicate Projects(snap: Snapshot, s: Orchestration, now: Time) {
    && snap.generatedAt == now && snap.totals == s.totals && snap.rateLimits == s.rateLimits
    && snap.runningNs == RunNs(s, now)
    && multiset(snap.running) == multiset(RunningRows(s.running, s.running.Keys))
    && multiset(snap.retrying) == multiset(RetryRows(s.retry, s.retry.Keys))
    && Ordered(snap.running, (r: RunningRow) => r.identifier) && Ordered(snap.retrying, (r: RetryRow) => r.identifier)
    && snap.runningCount == |s.running| && snap.retryingCount == |s.retry|
  }

  /** The run time of everything dispatched so far, as a snapshot at t reports it. */
  ghost function RunNs(s: Orchestration, t: Time): int { s.endedNs + LiveNs(s.running, t) }

  // ---------- building it ----------

  method SortRows<T(!new)>(rows: seq<T>, name: T -> string) returns (sorted: seq<T>)
    ensures multiset(sorted) == multiset(rows) && Ordered(sorted, name)
  {
    sorted := [];
    for i := 0 to |rows|
      invariant multiset(sorted) == multiset(rows[..i]) && Ordered(sorted, name)
    {
      sorted := Insert(rows[i], sorted, name);
      assert rows[..i + 1] == rows[..i] + [rows[i]];
    }
    assert rows[..|rows|] == rows;
  }

  method Insert<T(!new)>(row: T, rows: seq<T>, name: T -> string) returns (out: seq<T>)
    requires Ordered(rows, name)
    ensures multiset(out) == multiset(rows) + multiset{row} && Ordered(out, name)
  {
    hide Ordered, StringLess;
    var k := |rows|;
    while k > 0 && StringLess(name(row), name(rows[k - 1]))
      invariant 0 <= k <= |rows|
      invariant forall j :: k <= j < |rows| ==> StringLess(name(row), name(rows[j]))
    {
      k := k - 1;
    }
    out := rows[..k] + [row] + rows[k..];
    InsertedMembers(row, rows, k);
    InsertedOrdered(row, rows, k, name);
  }

  lemma InsertedMembers<T(!new)>(row: T, rows: seq<T>, k: nat)
    requires k <= |rows|
    ensures multiset(rows[..k] + [row] + rows[k..]) == multiset(rows) + multiset{row}
  {
    assert rows == rows[..k] + rows[k..];
  }

  lemma InsertedOrdered<T(!new)>(row: T, rows: seq<T>, k: nat, name: T -> string)
    requires k <= |rows| && Ordered(rows, name) && (k == 0 || !StringLess(name(row), name(rows[k - 1])))
    requires forall j :: k <= j < |rows| ==> StringLess(name(row), name(rows[j]))
    ensures Ordered(rows[..k] + [row] + rows[k..], name)
  {
    hide StringLess;
    var out := rows[..k] + [row] + rows[k..];
    forall i, j | 0 <= i < j < |out|
      ensures !StringLess(name(out[j]), name(out[i]))
    {
      if i == k {
        StringLessTrichotomy(name(row), name(rows[j - 1]));
      } else if j == k {
        NotBelow(name(rows[k - 1]), name(row), name(rows[i]), i == k - 1);
      }
    }
  }

  lemma NotBelow(last: string, row: string, x: string, same: bool)
    requires !StringLess(row, last) && (if same then x == last else !StringLess(last, x))
    ensures !StringLess(row, x)
  {
    StringLessTrichotomy(row, x);
    StringLessTrichotomy(last, x);
    if StringLess(row, x) && x != last {
      StringLessTransitive(row, x, last);
    }
  }

  method BuildSnapshot(o: Orchestrator, now: Time) returns (snap: Snapshot)
    requires o.Valid()
    ensures Projects(snap, o.S(), now)
  {
    hide Orchestrator.View, Ordered, RunningRows, RetryRows, LiveNs;
    EntriesOf(o);
    KeyCount(o.running);
    KeyCount(o.View());
    var rows, live := RunningPart(o, now);
    var waiting := RetryPart(o);
    var running := SortRows(rows, (r: RunningRow) => r.identifier);
    var retrying := SortRows(waiting, (r: RetryRow) => r.identifier);
    SameSize(rows, running);
    SameSize(waiting, retrying);
    snap := Snapshot(now, |running|, |retrying|, running, retrying, o.totals, live, o.rateLimits);
  }

  lemma SameSize<T>(a: seq<T>, b: seq<T>)
    requires multiset(a) == multiset(b)
    ensures |a| == |b|
  {
    assert |multiset(a)| == |a| && |multiset(b)| == |b|;
  }

  method RunningPart(o: Orchestrator, now: Time) returns (rows: seq<RunningRow>, live: int)
    requires o.Valid()
    ensures RowsFor(rows, RunningRows(o.View(), o.running.Keys), |o.running|)
    ensures live == o.endedNs + LiveNs(o.View(), now)
  {
    hide *;
    rows, live := [], o.endedNs;
    var left := o.running.Keys;
    ghost var was, done: set<string> := o.View(), {};
    EntriesOf(o);
    NoRows(was, now);
    WalkEnds(was.Keys, left, done);
    while left != {}
      invariant Walk(was.Keys, left, done) && done <= was.Keys
      invariant RowsFor(rows, RunningRows(was, done), |done|)
      invariant live == o.endedNs + LiveOf(was, done, now)
      decreases |left|
    {
      var id :| id in left;
      WalkStep(was.Keys, left, done, id);
      var row, lived := RowFor(o, id, now);
      live := live + lived;
      RowAdded(was, done, id, now, rows);
      rows := rows + [row];
      left, done := left - {id}, done + {id};
    }
    WalkEnds(was.Keys, left, done);
    AllLive(was, now);
    KeyCount(o.running);
  }

  lemma KeyCount<K, V>(m: map<K, V>)
    ensures |m| == |m.Keys|
  {}

  /** The run time of the running entries in `ids`. */
  ghost function LiveOf(m: map<string, Entry>, ids: set<string>, t: Time): int { LiveNs(m - (m.Keys - ids), t) }

  lemma NoRows(m: map<string, Entry>, t: Time)
    ensures LiveOf(m, {}, t) == 0 && RowsFor([], RunningRows(m, {}), 0)
  {
    assert m - (m.Keys - {}) == map[];
  }

  lemma AllLive(m: map<string, Entry>, t: Time)
    ensures LiveOf(m, m.Keys, t) == LiveNs(m, t)
  {
    assert m - (m.Keys - m.Keys) == m;
  }

  lemma EntriesOf(o: Orchestrator)
    ensures o.View().Keys == o.running.Keys
  {}

  /** The rows are the given ones, each once. */
  ghost predicate RowsFor<T(!new)>(rows: seq<T>, all: set<T>, n: nat) { multiset(rows) == multiset(all) && |rows| == n }

  lemma RowsOneMore<T(!new)>(rows: seq<T>, all: set<T>, n: nat, row: T)
    requires RowsFor(rows, all, n) && row !in all
    ensures RowsFor(rows + [row], all + {row}, n + 1)
  {}

  lemma OneMoreId(ids: set<string>, id: string)
    requires id !in ids
    ensures |ids + {id}| == |ids| + 1
  {}

  lemma RowAdded(m: map<string, Entry>, ids: set<string>, id: string, t: Time, rows: seq<RunningRow>)
    requires ids <= m.Keys && id in m && id !in ids && RowsFor(rows, RunningRows(m, ids), |ids|)
    ensures RowsFor(rows + [RowOf(id, m[id])], RunningRows(m, ids + {id}), |ids + {id}|)
    ensures LiveOf(m, ids + {id}, t) == LiveOf(m, ids, t) + (t - m[id].startedAt)
  {
    hide LiveNs, RowsFor;
    assert RunningRows(m, ids + {id}) == RunningRows(m, ids) + {RowOf(id, m[id])};
    assert RowOf(id, m[id]) !in RunningRows(m, ids);
    OneMoreId(ids, id);
    RowsOneMore(rows, RunningRows(m, ids), |ids|, RowOf(id, m[id]));
    var before := m - (m.Keys - ids);
    assert m - (m.Keys - (ids + {id})) == before[id := m[id]];
    TotalSet(before, id, m[id], t);
  }

  method RowFor(o: Orchestrator, id: string, now: Time) returns (row: RunningRow, lived: int)
    requires id in o.running
    ensures id in o.View() && row == RowOf(id, o.View()[id]) && lived == now - o.View()[id].startedAt
  {
    var e := o.running[id];
    lived := now - e.startedAt;
    row := RunningRow(id, e.identifier, e.issue.url, e.issue.state, e.session.sessionId, e.session.turnCount, e.startedAt, "",
                      e.session.lastMessage, None, e.session.tokens, [], e.retryAttempt);
    if e.session.lastEvent.Some? {
      row := row.(lastEvent := e.session.lastEvent.value);
    }
    if e.session.lastTimestamp.Some? {
      row := row.(lastEventAt := e.session.lastTimestamp);
    }
    if |e.session.activity| > 0 {
      row := row.(activity := e.session.activity);
    }
  }

  method RetryPart(o: Orchestrator) returns (rows: seq<RetryRow>)
    ensures RowsFor(rows, RetryRows(o.retry, o.retry.Keys), |o.retry|)
  {
    hide *;
    rows := [];
    var left := o.retry.Keys;
    ghost var done: set<string> := {};
    NoRetryRows(o.retry);
    WalkEnds(o.retry.Keys, left, done);
    while left != {}
      invariant Walk(o.retry.Keys, left, done) && done <= o.retry.Keys
      invariant RowsFor(rows, RetryRows(o.retry, done), |done|)
      decreases |left|
    {
      var id :| id in left;
      WalkStep(o.retry.Keys, left, done, id);
      RetryRowAdded(o.retry, done, id, rows);
      rows := rows + [RetryRowOf(id, o.retry[id])];
      left, done := left - {id}, done + {id};
    }
    WalkEnds(o.retry.Keys, left, done);
    KeyCount(o.retry);
  }

  lemma NoRetryRows(m: map<string, Retry>)
    ensures RowsFor([], RetryRows(m, {}), 0)
  {}

  lemma RetryRowAdded(m: map<string, Retry>, ids: set<string>, id: string, rows: seq<RetryRow>)
    requires ids <= m.Keys && id in m && id !in ids && RowsFor(rows, RetryRows(m, ids), |ids|)
    ensures RowsFor(rows + [RetryRowOf(id, m[id])], RetryRows(m, ids + {id}), |ids + {id}|)
  {
    hide RowsFor;
    assert RetryRows(m, ids + {id}) == RetryRows(m, ids) + {RetryRowOf(id, m[id])};
    assert RetryRowOf(id, m[id]) !in RetryRows(m, ids);
    OneMoreId(ids, id);
    RowsOneMore(rows, RetryRows(m, ids), |ids|, RetryRowOf(id, m[id]));
  }

  /** What the rows show. */
  lemma RowsShow(snap: Snapshot, s: Orchestration, now: Time)
    requires Projects(snap, s, now)
    ensures forall i :: 0 <= i < |snap.running| ==>
      var row := snap.running[i];
      row.id in s.running
      && var e := s.running[row.id];
         row == RunningRow(row.id, e.identifier, e.issue.url, e.issue.state, e.session.sessionId, e.session.turnCount, e.startedAt,
                           if e.session.lastEvent == None then "" else e.session.lastEvent.value, e.session.lastMessage,
                           e.session.lastTimestamp, e.session.tokens, e.session.activity, e.retryAttempt)
    ensures forall i :: 0 <= i < |snap.retrying| ==>
      var row := snap.retrying[i];
      row.id in s.retry
      && var r := s.retry[row.id];
         row == RetryRow(row.id, r.identifier, r.url, r.attempt, r.dueAtMs, r.error)
  {
    hide Ordered, RunNs;
    var running, retrying := RunningRows(s.running, s.running.Keys), RetryRows(s.retry, s.retry.Keys);
    forall i | 0 <= i < |snap.running|
      ensures snap.running[i] in running
    {
      assert snap.running[i] in multiset(snap.running);
    }
    forall i | 0 <= i < |snap.retrying|
      ensures snap.retrying[i] in retrying
    {
      assert snap.retrying[i] in multiset(snap.retrying);
    }
  }

  /** Every running id and every retrying id has exactly one row, and nobody else has one. */
  lemma OneRowEach(snap: Snapshot, s: Orchestration, now: Time, id: string)
    requires Projects(snap, s, now)
    ensures id in s.running <==> exists i :: 0 <= i < |snap.running| && snap.running[i].id == id
    ensures id in s.retry <==> exists i :: 0 <= i < |snap.retrying| && snap.retrying[i].id == id
    ensures forall i, j :: 0 <= i < j < |snap.running| ==> snap.running[i].id != snap.running[j].id
    ensures forall i, j :: 0 <= i < j < |snap.retrying| ==> snap.retrying[i].id != snap.retrying[j].id
  {
    hide Ordered, RunNs;
    var running, retrying := RunningRows(s.running, s.running.Keys), RetryRows(s.retry, s.retry.Keys);
    if id in s.running { Appears(snap.running, running, RowOf(id, s.running[id])); }
    if id in s.retry { Appears(snap.retrying, retrying, RetryRowOf(id, s.retry[id])); }
    forall i | 0 <= i < |snap.running|
      ensures snap.running[i].id in s.running && snap.running[i] == RowOf(snap.running[i].id, s.running[snap.running[i].id])
    {
      assert snap.running[i] in multiset(snap.running);
      assert snap.running[i] in running;
    }
    forall i | 0 <= i < |snap.retrying|
      ensures snap.retrying[i].id in s.retry
      ensures snap.retrying[i] == RetryRowOf(snap.retrying[i].id, s.retry[snap.retrying[i].id])
    {
      assert snap.retrying[i] in multiset(snap.retrying);
      assert snap.retrying[i] in retrying;
    }
    Distinct(snap.running, running);
    Distinct(snap.retrying, retrying);
  }

  lemma Appears<T>(rows: seq<T>, all: set<T>, row: T)
    requires multiset(rows) == multiset(all) && row in all
    ensures exists i :: 0 <= i < |rows| && rows[i] == row
  {
    assert row in multiset(all);
    assert row in rows;
  }

  lemma Distinct<T>(rows: seq<T>, all: set<T>)
    requires multiset(rows) == multiset(all)
    ensures forall i, j :: 0 <= i < j < |rows| ==> rows[i] != rows[j]
  {
    forall i, j | 0 <= i < j < |rows|
      ensures rows[i] != rows[j]
    {
      var x := rows[i];
      assert multiset(all)[x] <= 1;
      assert rows == rows[..i] + [x] + rows[i + 1..j] + [rows[j]] + rows[j + 1..];
      assert multiset(rows) == multiset(rows[..i]) + multiset{x} + multiset(rows[i + 1..j]) + multiset{rows[j]} + multiset(rows[j + 1..]);
    }
  }

  // ---------- reported run time over runs ----------

  /** At any time t the reported run time is, over everything ever dispatched, (exit or t) - start. */
  lemma RunTimeConserved(s: Orchestration, first: (Config, string), t: Time)
    requires Reached(s, first)
    ensures RunNs(s, t) == RunTime(s.journal, s.rt.nextWorker, t)
  {
    ReachedOk(s, first, t);
    hide BooksOk, AttemptsOk, EndsOk, TokensOk, VerdictsOk, ConfigOk, LiveNs;
  }

  lemma {:induction false} LiveGrows(m: map<string, Entry>, t: Time, u: Time)
    ensures LiveNs(m, u) == LiveNs(m, t) + (u - t) * |m|
    decreases |m|
  {
    hide LiveNs;
    if m == map[] {
      NoneLive(t);
      NoneLive(u);
    } else {
      var k :| k in m;
      TotalRemoved(m, k, t);
      TotalRemoved(m, k, u);
      OneFewer(m, k);
      LiveGrows(m - {k}, t, u);
      assert (u - t) * |m| == (u - t) * (|m| - 1) + (u - t);
    }
  }

  lemma NoneLive(t: Time)
    ensures LiveNs(map[], t) == 0
  {}

  lemma OneFewer<V>(m: map<string, V>, k: string)
    requires k in m
    ensures |m - {k}| == |m| - 1
  {
    KeyCount(m);
    KeyCount(m - {k});
    assert (m - {k}).Keys == m.Keys - {k};
  }

  lemma DispatchRunTime(s: Orchestration, issue: Issue, attempt: Option<int>, at: Time, u: Time)
    requires issue.id !in s.running
    ensures RunNs(DispatchIssue(s, issue, attempt, at), u) == RunNs(s, u) + (u - at)
  {
    hide LiveNs;
    TotalSet(s.running, issue.id, NewEntry(issue, s.rt.nextWorker, at, attempt), u);
  }

  /** The entry leaves with the time from its start to the exit reading. */
  lemma EndRunTime(s: Orchestration, id: string, at: Time, u: Time)
    requires id in s.running
    ensures RunNs(EndWorker(s, id, at), u) == RunNs(s, u) - (u - at)
  {
    hide LiveNs;
    TotalRemoved(s.running, id, u);
  }

  lemma RetryRunTime(s: Orchestration, id: string, attempt: int, identifier: string, url: Option<string>,
                     error: Option<string>, continuation: bool, now: Time, u: Time)
    ensures RunNs(ScheduleRetry(s, id, attempt, identifier, url, error, continuation, now), u) == RunNs(s, u)
  {
    hide LiveNs;
  }

  lemma ExitRunTime(s: Orchestration, id: string, reason: ExitReason, err: Option<string>, input: Input, u: Time)
    requires id in s.running
    ensures RunNs(OnWorkerExit(s, id, reason, err, input), u) == RunNs(s, u) - (u - input.clock(0))
  {
    hide EndWorker, LiveNs, ScheduleRetry;
    var e, ended := s.running[id], EndWorker(s, id, input.clock(0));
    EndRunTime(s, id, input.clock(0), u);
    RetryRunTime(ended.(completed := ended.completed + {id}).Log(Completed(id)), id, 1, e.identifier, e.issue.url, None, true,
                 input.clock(1), u);
    RetryRunTime(ended.Log(Failed(id, AbnormalExit)), id, e.retryAttempt + 1, e.identifier, e.issue.url, Some(ExitMessage(err)),
                 false, input.clock(1), u);
  }

  /** Processing a worker exit leaves the reported run time of that instant as it was. */
  lemma ExitConservesRunTime(s: Orchestration, id: string, reason: ExitReason, err: Option<string>, input: Input)
    ensures RunNs(OnWorkerExit(s, id, reason, err, input), input.clock(0)) == RunNs(s, input.clock(0))
  {
    hide LiveNs;
    if id in s.running { ExitRunTime(s, id, reason, err, input, input.clock(0)); }
  }

  lemma SameStarts(s: Orchestration, s': Orchestration, u: Time)
    requires s.running.Keys == s'.running.Keys && s.endedNs == s'.endedNs
    requires forall id :: id in s.running ==> s.running[id].startedAt == s'.running[id].startedAt
    ensures RunNs(s', u) == RunNs(s, u)
  {
    SumCongruent(s.running, s'.running, RunningFor(u));
  }

  lemma {:induction false} RefreshRunTime(s: Orchestration, issues: seq<Issue>, u: Time)
    ensures RunNs(Refresh(s, issues), u) == RunNs(s, u)
  {
    hide RefreshOne, RunNs;
    if issues != [] {
      var n := |issues| - 1;
      RefreshRunTime(s, issues[..n], u);
      RefreshOneRunTime(Refresh(s, issues[..n]), issues[n], u);
    }
  }

  lemma RefreshOneRunTime(s: Orchestration, issue: Issue, u: Time)
    ensures RunNs(RefreshOne(s, issue), u) == RunNs(s, u)
  {
    hide IsTerminalState, IsActiveState, RunNs;
    SameStarts(s, RefreshOne(s, issue), u);
  }

  lemma ReconcileRunTime(s: Orchestration, now: Time, states: Option<seq<Issue>>, u: Time)
    ensures RunNs(Reconcile(s, now, states), u) == RunNs(s, u)
  {
    hide RunNs, Refresh, IsStalled;
    SameStarts(s, ReconcileStalls(s, now), u);
    if states.Some? { RefreshRunTime(ReconcileStalls(s, now), states.value, u); }
  }

  ghost predicate NotAfter(clock: nat -> Time, u: Time) { forall k :: clock(k) <= u }

  ghost predicate At(clock: nat -> Time, u: Time) { forall k :: clock(k) == u }

  lemma {:induction false} PhaseRunTime(s: Orchestration, issues: seq<Issue>, clock: nat -> Time, n: nat, u: Time)
    requires n <= |issues| && NotAfter(clock, u)
    ensures RunNs(DispatchUpTo(s, issues, clock, n), u) >= RunNs(s, u)
    ensures At(clock, u) ==> RunNs(DispatchUpTo(s, issues, clock, n), u) == RunNs(s, u)
  {
    hide Visit, Orchestration.GlobalAvailable, RunNs;
    if n > 0 {
      PhaseRunTime(s, issues, clock, n - 1, u);
      var before := DispatchUpTo(s, issues, clock, n - 1);
      VisitRunTime(before, issues[n - 1], clock(n), u);
      assert clock(n) <= u;
      assert At(clock, u) ==> clock(n) == u;
    }
  }

  lemma VisitRunTime(s: Orchestration, issue: Issue, at: Time, u: Time)
    requires at <= u
    ensures RunNs(Visit(s, issue, at), u) >= RunNs(s, u)
    ensures at == u ==> RunNs(Visit(s, issue, at), u) == RunNs(s, u)
  {
    hide IsEligible, StateFull, DispatchIssue, RunNs;
    if issue.id !in s.running { DispatchRunTime(s, issue, None, at, u); }
  }

  lemma TickRunTime(s: Orchestration, input: Input, u: Time)
    requires NotAfter(input.clock, u)
    ensures RunNs(OnTick(s, input), u) >= RunNs(s, u)
    ensures At(input.clock, u) ==> RunNs(OnTick(s, input), u) == RunNs(s, u)
  {
    hide Reconcile, DispatchUpTo, LiveNs;
    var reconciled := Reconcile(s, input.clock(0), input.states);
    ReconcileRunTime(s, input.clock(0), input.states, u);
    if input.candidates.Some? {
      var sorted := Sorting.SortForDispatch(input.candidates.value);
      PhaseRunTime(reconciled, sorted, input.clock, |sorted|, u);
    }
  }

  lemma WakeupRunTime(s: Orchestration, id: string, input: Input, u: Time)
    requires id in s.retry ==> id !in s.running
    requires NotAfter(input.clock, u)
    ensures RunNs(OnRetryTimer(s, id, input), u) >= RunNs(s, u)
    ensures At(input.clock, u) ==> RunNs(OnRetryTimer(s, id, input), u) == RunNs(s, u)
  {
    hide LiveNs, IsEligible, StateFull, DispatchIssue, ScheduleRetry, FindById, Orchestration.GlobalAvailable;
    if id in s.retry {
      var entry, taken, now := s.retry[id], s.(retry := s.retry - {id}), input.clock(0);
      assert now <= u;
      RetryRunTime(taken.Log(Failed(id, RetryPollFailed)), id, entry.attempt + 1, entry.identifier, entry.url,
                   Some("retry poll failed"), false, now, u);
      if input.candidates.Some? {
        var found := FindById(input.candidates.value, id);
        Found(input.candidates.value, id);
        if found.Some? {
          DispatchRunTime(taken, found.value, Some(entry.attempt), now, u);
          RetryRunTime(taken.Log(Failed(id, NoSlots)), id, entry.attempt + 1, found.value.identifier, found.value.url,
                       Some("no available orchestrator slots"), false, now, u);
        }
      }
    }
  }

  /** Every reading of the step's clock lies in [t, u]. */
  ghost predicate Timed(step: Step, t: Time, u: Time) {
    t <= u && (step.Deliver? ==> forall k :: t <= step.input.clock(k) <= u)
  }

  /** Between t and u the reported run time does not fall, and it moves only with the clock. */
  lemma StepRunTime(s: Orchestration, step: Step, t: Time, u: Time)
    requires BooksOk(s, {}) && Enabled(s, step) && Timed(step, t, u)
    ensures RunNs(Apply(s, step), u) >= RunNs(s, t)
    ensures t == u ==> RunNs(Apply(s, step), u) == RunNs(s, t)
  {
    hide LiveNs, BooksOk, Handle;
    LiveGrows(s.running, t, u);
    Scaled(|s.running|, t, u);
    if step.Deliver? { DeliveryRunTime(s, step.input, t, u); }
  }

  lemma {:induction false} Scaled(n: nat, t: Time, u: Time)
    requires t <= u
    ensures (u - t) * n >= 0 && (n > 0 ==> (u - t) * n >= u - t)
  {
    if n > 0 {
      Scaled(n - 1, t, u);
      assert (u - t) * n == (u - t) * (n - 1) + (u - t);
    }
  }

  lemma DeliveryRunTime(s: Orchestration, input: Input, t: Time, u: Time)
    requires BooksOk(s, {}) && s.rt.chan != [] && Timed(Deliver(input), t, u)
    ensures RunNs(Apply(s, Deliver(input)), u) >= RunNs(s, t)
    ensures t == u ==> RunNs(Apply(s, Deliver(input)), u) == RunNs(s, t)
  {
    hide OnTick, OnAgentUpdate, OnWorkerExit, OnRetryTimer, LiveNs, FlagsOk, ChannelOk, WorkersOk, TimersOk;
    var taken := Dequeue(s);
    LiveGrows(s.running, t, u);
    Scaled(|s.running|, t, u);
    assert NotAfter(input.clock, u) && (t == u ==> At(input.clock, u)) && t <= input.clock(0);
    match s.rt.chan[0].ev
    case TickEvent => TickRunTime(taken, input, u);
    case AgentUpdate(id, msg) => UpdateRunTime(taken, id, msg, u);
    case WorkerExit(id, reason, err) =>
      if id in s.running {
        ExitRunTime(taken, id, reason, err, input, u);
      } else {
        ExitAbsent(taken, id, reason, err, input);
      }
    case RetryTimerFired(id) => WakeupRunTime(taken, id, input, u);
    case _ =>
  }

  lemma ExitAbsent(s: Orchestration, id: string, reason: ExitReason, err: Option<string>, input: Input)
    requires id !in s.running
    ensures OnWorkerExit(s, id, reason, err, input) == s
  {}

  lemma UpdateRunTime(s: Orchestration, id: string, m: AgentEvent, u: Time)
    ensures RunNs(OnAgentUpdate(s, id, m), u) == RunNs(s, u)
  {
    hide RunNs, UpdateSession;
    SameStarts(s, OnAgentUpdate(s, id, m), u);
  }

  /** The steps are taken between times[0] and times[|steps|], under a clock that does not go back. */
  ghost predicate TimedRun(steps: seq<Step>, times: seq<Time>)
    decreases |steps|
  {
    |times| == |steps| + 1 && (steps == [] || (Timed(steps[0], times[0], times[1]) && TimedRun(steps[1..], times[1..])))
  }

  /** Under a monotone clock no snapshot reports less run time than an earlier one. */
  lemma {:induction false} RunTimeMonotone(s: Orchestration, first: (Config, string), steps: seq<Step>, times: seq<Time>)
    requires Reached(s, first) && Legal(s, steps) && TimedRun(steps, times)
    ensures RunNs(Exec(s, steps), times[|steps|]) >= RunNs(s, times[0])
    decreases |steps|
  {
    hide Timed, Enabled, Apply, RunNs, BooksOk, LedgerOk, Reached;
    if steps != [] {
      ReachedOk(s, first, 0);
      StepRunTime(s, steps[0], times[0], times[1]);
      ReachedNext(s, first, steps[0]);
      RunTimeMonotone(Apply(s, steps[0]), first, steps[1..], times[1..]);
    }
  }

  lemma ReachedNext(s: Orchestration, first: (Config, string), step: Step)
    requires Reached(s, first) && Enabled(s, step)
    ensures Reached(Apply(s, step), first)
  {
    hide Reached, Enabled, Apply;
    assert Legal(Apply(s, step), []);
    assert [step][1..] == [];
    assert Legal(s, [step]) && Exec(s, [step]) == Apply(s, step);
    ReachedMore(s, first, [step]);
  }
}
