/** What one dispatch phase of onTick achieves: it leaves nobody out it could have taken, it prefers
    the better-ranked candidate, and it respects both limits. */
module Dispatching {
  import opened Domain
  import opened State
  import opened Eligibility
  import opened Handlers
  import Sorting

  // ---------- the phase only adds ----------

  ghost predicate Grew(a: Orchestration, b: Orchestration) {
    && a.running.Keys <= b.running.Keys && (forall id :: id in a.running ==> a.running[id] == b.running[id])
    && a.claimed <= b.claimed && b.claimed <= a.claimed + b.running.Keys
    && b.cfg == a.cfg && b.maxConcurrent == a.maxConcurrent
  }

  lemma SubsetCard<T>(a: set<T>, b: set<T>)
    requires a <= b
    ensures |a| <= |b|
  {
    assert b == a + (b - a);
  }

  lemma KeysCard<K, V>(m: map<K, V>)
    ensures |m| == |m.Keys|
  {}

  lemma GrewCounts(a: Orchestration, b: Orchestration, state: string)
    requires Grew(a, b)
    ensures CountByState(a.running, state) <= CountByState(b.running, state)
    ensures b.GlobalAvailable() <= a.GlobalAvailable()
  {
    SubsetCard(IdsInState(a.running, state), IdsInState(b.running, state));
    KeysCard(a.running);
    KeysCard(b.running);
    SubsetCard(a.running.Keys, b.running.Keys);
  }

  lemma GrewFull(a: Orchestration, b: Orchestration, state: string)
    requires Grew(a, b) && StateFull(a, state)
    ensures StateFull(b, state)
  {
    GrewCounts(a, b, state);
  }

  lemma {:induction false} PhaseGrew(s: Orchestration, issues: seq<Issue>, clock: nat -> Time, m: nat, n: nat)
    requires m <= n <= |issues|
    ensures Grew(DispatchUpTo(s, issues, clock, m), DispatchUpTo(s, issues, clock, n))
    decreases n - m
  {
    hide Grew, Visit, Orchestration.GlobalAvailable;
    var after := DispatchUpTo(s, issues, clock, n);
    if m < n {
      var before := DispatchUpTo(s, issues, clock, n - 1);
      PhaseGrew(s, issues, clock, m, n - 1);
      GrewNot(before);
      VisitGrew(before, issues[n - 1], clock(n));
      GrewTransitive(DispatchUpTo(s, issues, clock, m), before, after);
    } else {
      GrewNot(after);
    }
  }

  lemma GrewNot(s: Orchestration)
    ensures Grew(s, s)
  {}

  lemma VisitGrew(s: Orchestration, issue: Issue, at: Time)
    ensures Grew(s, Visit(s, issue, at))
  {
    hide IsEligible, StateFull;
  }

  lemma GrewTransitive(a: Orchestration, b: Orchestration, c: Orchestration)
    requires Grew(a, b) && Grew(b, c)
    ensures Grew(a, c)
  {}

  lemma PhaseKeeps(s: Orchestration, issues: seq<Issue>, clock: nat -> Time, m: nat, n: nat, id: string)
    requires m <= n <= |issues|
    ensures var a, b := DispatchUpTo(s, issues, clock, m), DispatchUpTo(s, issues, clock, n);
      && (id in a.running ==> id in b.running) && (id in a.claimed ==> id in b.claimed)
      && (id in b.claimed ==> id in a.claimed || id in b.running)
      && b.cfg == a.cfg && b.maxConcurrent == a.maxConcurrent
      && b.GlobalAvailable() <= a.GlobalAvailable()
  {
    PhaseGrew(s, issues, clock, m, n);
    GrewCounts(DispatchUpTo(s, issues, clock, m), DispatchUpTo(s, issues, clock, n), "");
  }

  lemma PhaseFills(s: Orchestration, issues: seq<Issue>, clock: nat -> Time, m: nat, n: nat, state: string)
    requires m <= n <= |issues| && StateFull(DispatchUpTo(s, issues, clock, m), state)
    ensures StateFull(DispatchUpTo(s, issues, clock, n), state)
  {
    var a, b := DispatchUpTo(s, issues, clock, m), DispatchUpTo(s, issues, clock, n);
    PhaseGrew(s, issues, clock, m, n);
    GrewFull(a, b, state);
    assert b == DispatchUpTo(s, issues, clock, n);
  }

  // ---------- maximality ----------

  /** Why the phase could not take this candidate, or that it did. */
  ghost predicate Settled(s: Orchestration, final: Orchestration, issue: Issue) {
    || issue.id in final.running
    || issue.id in s.claimed
    || !IsEligible(s.cfg, issue)
    || StateFull(final, issue.state)
    || final.GlobalAvailable() == 0
  }

  /** One visit takes the candidate unless something stands in the way at that moment. */
  lemma VisitTakes(s: Orchestration, issue: Issue, at: Time)
    requires issue.id !in s.running && issue.id !in s.claimed && IsEligible(s.cfg, issue) && !StateFull(s, issue.state)
    ensures issue.id in Visit(s, issue, at).running
  {
    hide IsEligible, StateFull;
  }

  lemma CandidateSettled(s: Orchestration, issues: seq<Issue>, clock: nat -> Time, i: nat)
    requires i < |issues|
    ensures Settled(s, DispatchAll(s, issues, clock), issues[i])
  {
    hide IsEligible, StateFull, Visit, Orchestration.GlobalAvailable;
    var issue, n := issues[i], |issues|;
    var before := DispatchUpTo(s, issues, clock, i);
    PhaseKeeps(s, issues, clock, 0, i, issue.id);
    PhaseKeeps(s, issues, clock, i, n, issue.id);
    PhaseKeeps(s, issues, clock, i + 1, n, issue.id);
    if StateFull(before, issue.state) {
      PhaseFills(s, issues, clock, i, n, issue.state);
    } else if issue.id !in before.running && issue.id !in before.claimed && IsEligible(before.cfg, issue)
              && before.GlobalAvailable() > 0 {
      VisitTakes(before, issue, clock(i + 1));
      assert issue.id in DispatchUpTo(s, issues, clock, i + 1).running;
    }
    assert DispatchUpTo(s, issues, clock, 0) == s && DispatchUpTo(s, issues, clock, n) == DispatchAll(s, issues, clock);
  }

  lemma DispatchIsMaximal(s: Orchestration, issues: seq<Issue>, clock: nat -> Time)
    ensures forall i :: 0 <= i < |issues| ==> Settled(s, DispatchAll(s, issues, clock), issues[i])
  {
    forall i | 0 <= i < |issues| ensures Settled(s, DispatchAll(s, issues, clock), issues[i]) {
      CandidateSettled(s, issues, clock, i);
    }
  }

  // ---------- rank ----------

  /** Candidate j is dispatched on its own visit. */
  ghost predicate TakenAt(s: Orchestration, issues: seq<Issue>, clock: nat -> Time, j: nat)
    requires j < |issues|
  {
    issues[j].id !in DispatchUpTo(s, issues, clock, j).running && issues[j].id in DispatchUpTo(s, issues, clock, j + 1).running
  }

  /** If a later candidate was dispatched while an earlier one, unclaimed and eligible, was passed
      over for good, then the earlier one's state was already full when its turn came. */
  lemma NoPriorityInversion(s: Orchestration, issues: seq<Issue>, clock: nat -> Time, i: nat, j: nat)
    requires i < j < |issues| && TakenAt(s, issues, clock, j)
    requires issues[i].id !in DispatchAll(s, issues, clock).running
    requires issues[i].id !in s.claimed && IsEligible(s.cfg, issues[i])
    ensures StateFull(DispatchUpTo(s, issues, clock, i), issues[i].state)
  {
    hide IsEligible, StateFull, Visit, Orchestration.GlobalAvailable;
    var issue, n := issues[i], |issues|;
    var before := DispatchUpTo(s, issues, clock, i);
    PhaseKeeps(s, issues, clock, 0, i, issue.id);
    PhaseKeeps(s, issues, clock, i, j, issue.id);
    PhaseKeeps(s, issues, clock, i, n, issue.id);
    PhaseKeeps(s, issues, clock, i + 1, n, issue.id);
    assert DispatchUpTo(s, issues, clock, 0) == s;
    assert DispatchUpTo(s, issues, clock, j).GlobalAvailable() > 0;
    if !StateFull(before, issue.state) { VisitTakes(before, issue, clock(i + 1)); }
    assert before.GlobalAvailable() > 0;
  }

  /** Every entry the phase added is one of the candidates, taken on a visit at which it was eligible,
      unclaimed, and both limits left room; it starts with a clean record. */
  lemma {:induction false} DispatchedIsAdmissible(s: Orchestration, issues: seq<Issue>, clock: nat -> Time, n: nat, id: string)
    returns (i: nat)
    requires n <= |issues| && id in DispatchUpTo(s, issues, clock, n).running && id !in s.running
    ensures i < n && issues[i].id == id && TakenAt(s, issues, clock, i)
    ensures var before := DispatchUpTo(s, issues, clock, i);
      && IsEligible(s.cfg, issues[i]) && id !in s.claimed
      && |before.running| < s.maxConcurrent && !StateFull(before, issues[i].state)
      && DispatchUpTo(s, issues, clock, n).running[id] == NewEntry(issues[i], before.rt.nextWorker, clock(i + 1), None)
  {
    hide Visit, Orchestration.GlobalAvailable, IsEligible, StateFull, NewEntry;
    PhaseStart(s, issues, clock);
    var before := DispatchUpTo(s, issues, clock, n - 1);
    if id in before.running {
      i := DispatchedIsAdmissible(s, issues, clock, n - 1, id);
      VisitKeeps(before, issues[n - 1], clock(n), id);
    } else {
      i := n - 1;
      PhaseKeeps(s, issues, clock, 0, n - 1, id);
      VisitAdds(before, issues[i], clock(n), id);
    }
  }

  lemma VisitKeeps(s: Orchestration, issue: Issue, at: Time, id: string)
    requires id in s.running
    ensures var s' := Visit(s, issue, at); id in s'.running && s'.running[id] == s.running[id]
  {
    hide Visit;
    VisitGrew(s, issue, at);
  }

  lemma PhaseStart(s: Orchestration, issues: seq<Issue>, clock: nat -> Time)
    ensures DispatchUpTo(s, issues, clock, 0) == s
  {}

  /** What a visit that adds an entry must have seen. */
  lemma VisitAdds(s: Orchestration, issue: Issue, at: Time, id: string)
    requires id !in s.running && s.GlobalAvailable() > 0
    ensures id in Visit(s, issue, at).running ==>
      && issue.id == id && id !in s.claimed && IsEligible(s.cfg, issue) && !StateFull(s, issue.state)
      && |s.running| < s.maxConcurrent && Visit(s, issue, at).running[id] == NewEntry(issue, s.rt.nextWorker, at, None)
  {
    hide IsEligible, StateFull;
  }

  // ---------- limits ----------

  lemma InsertedCount(running: map<string, Entry>, id: string, e: Entry, state: string)
    requires id !in running
    ensures CountByState(running[id := e], state) ==
      CountByState(running, state) + (if NormalizeState(e.issue.state) == NormalizeState(state) then 1 else 0)
    ensures |running[id := e]| == |running| + 1
  {
    var more := IdsInState(running[id := e], state);
    var ids := IdsInState(running, state);
    if NormalizeState(e.issue.state) == NormalizeState(state) {
      assert more == ids + {id};
    } else {
      assert more == ids;
    }
  }

  function Max(a: int, b: int): int { if a < b then b else a }

  /** What the limits still allow, seen from the start of the phase. */
  ghost predicate WithinLimits(s: Orchestration, final: Orchestration, state: string) {
    && CountByState(final.running, state) <= Max(CountByState(s.running, state), s.cfg.PerStateLimit(state))
    && |final.running| <= Max(|s.running|, s.maxConcurrent)
  }

  lemma DispatchAdds(s: Orchestration, issue: Issue, attempt: Option<int>, at: Time)
    ensures DispatchIssue(s, issue, attempt, at).running == s.running[issue.id := NewEntry(issue, s.rt.nextWorker, at, attempt)]
  {}

  lemma SameCount(running: map<string, Entry>, a: string, b: string)
    requires NormalizeState(a) == NormalizeState(b)
    ensures CountByState(running, a) == CountByState(running, b)
  {
    assert IdsInState(running, a) == IdsInState(running, b);
  }

  lemma VisitRespectsLimits(s: Orchestration, issue: Issue, at: Time, state: string)
    requires s.GlobalAvailable() > 0
    ensures WithinLimits(s, Visit(s, issue, at), state)
  {
    hide IsEligible, CountByState, NormalizeState, DispatchIssue;
    if issue.id !in s.running {
      DispatchAdds(s, issue, None, at);
      InsertedCount(s.running, issue.id, NewEntry(issue, s.rt.nextWorker, at, None), state);
      if NormalizeState(issue.state) == NormalizeState(state) { SameCount(s.running, issue.state, state); }
    }
  }

  lemma LimitsChain(s: Orchestration, before: Orchestration, after: Orchestration, state: string)
    requires WithinLimits(s, before, state) && WithinLimits(before, after, state)
    requires before.cfg == s.cfg && before.maxConcurrent == s.maxConcurrent
    ensures WithinLimits(s, after, state)
  {}

  /** A phase never takes a state past its limit, nor the whole past the global limit; a count that
      is already past its limit (after a reload lowered it) does not grow. */
  lemma {:induction false} PhaseRespectsLimits(s: Orchestration, issues: seq<Issue>, clock: nat -> Time, n: nat, state: string)
    requires n <= |issues|
    ensures WithinLimits(s, DispatchUpTo(s, issues, clock, n), state)
  {
    hide WithinLimits, Visit, Orchestration.GlobalAvailable;
    NoGrowth(s, state);
    if n > 0 {
      var before, after := DispatchUpTo(s, issues, clock, n - 1), DispatchUpTo(s, issues, clock, n);
      PhaseRespectsLimits(s, issues, clock, n - 1, state);
      PhaseStart(s, issues, clock);
      PhaseKeeps(s, issues, clock, 0, n - 1, "");
      NoGrowth(before, state);
      if before.GlobalAvailable() > 0 { VisitRespectsLimits(before, issues[n - 1], clock(n), state); }
      LimitsChain(s, before, after, state);
    }
  }

  lemma NoGrowth(s: Orchestration, state: string)
    ensures WithinLimits(s, s, state)
  {}

  // ---------- the tick's own list ----------

  /** The tick walks a stable sorted permutation of what the tracker returned, so maximality speaks of
      every candidate returned. */
  lemma TickIsMaximal(s: Orchestration, input: Input)
    requires s.cfg.dispatchValid && input.candidates.Some?
    ensures var before := Reconcile(s, input.clock(0), input.states);
      forall issue :: issue in input.candidates.value ==> Settled(before, PollAndDispatch(s, input), issue)
  {
    var before := Reconcile(s, input.clock(0), input.states);
    ReconcileKeepsConfig(s, input.clock(0), input.states);
    var sorted := Sorting.SortForDispatch(input.candidates.value);
    Sorting.SortIsStable(input.candidates.value);
    DispatchIsMaximal(before, sorted, input.clock);
    forall issue | issue in input.candidates.value ensures Settled(before, PollAndDispatch(s, input), issue) {
      assert issue in multiset(sorted);
      var i :| 0 <= i < |sorted| && sorted[i] == issue;
    }
  }

  /** The same for rank: if the tick dispatched candidate b (its j-th in rank order) and passed over a
      strictly better-ranked, unclaimed, eligible candidate a, then a's state was full at a's turn. */
  lemma TickPrefersRank(s: Orchestration, input: Input, a: Issue, j: nat) returns (i: nat)
    requires s.cfg.dispatchValid && input.candidates.Some? && a in input.candidates.value
    requires j < |Sorting.SortForDispatch(input.candidates.value)|
    requires var before := Reconcile(s, input.clock(0), input.states);
      var sorted := Sorting.SortForDispatch(input.candidates.value);
      && TakenAt(before, sorted, input.clock, j)
      && Sorting.KeyLess(Sorting.KeyOf(a), Sorting.KeyOf(sorted[j]))
      && a.id !in PollAndDispatch(s, input).running && a.id !in before.claimed && IsEligible(s.cfg, a)
    ensures var sorted := Sorting.SortForDispatch(input.candidates.value);
      && i < j && sorted[i] == a
      && StateFull(DispatchUpTo(Reconcile(s, input.clock(0), input.states), sorted, input.clock, i), a.state)
  {
    var sorted := Sorting.SortForDispatch(input.candidates.value);
    Sorting.SortIsStable(input.candidates.value);
    ReconcileKeepsConfig(s, input.clock(0), input.states);
    assert a in multiset(sorted);
    i :| 0 <= i < |sorted| && sorted[i] == a;
    Sorting.KeyLessTotal(Sorting.KeyOf(a), Sorting.KeyOf(sorted[j]));
    assert i != j && !(j < i);
    NoPriorityInversion(Reconcile(s, input.clock(0), input.states), sorted, input.clock, i, j);
  }

  lemma {:induction false} RefreshKeepsConfig(s: Orchestration, issues: seq<Issue>)
    ensures Refresh(s, issues).cfg == s.cfg && Refresh(s, issues).maxConcurrent == s.maxConcurrent
    ensures Refresh(s, issues).pollIntervalMs == s.pollIntervalMs && Refresh(s, issues).template == s.template
  {
    if issues != [] { RefreshKeepsConfig(s, issues[..|issues| - 1]); }
  }

  lemma ReconcileKeepsConfig(s: Orchestration, now: Time, states: Option<seq<Issue>>)
    ensures Reconcile(s, now, states).cfg == s.cfg && Reconcile(s, now, states).maxConcurrent == s.maxConcurrent
    ensures Reconcile(s, now, states).pollIntervalMs == s.pollIntervalMs && Reconcile(s, now, states).template == s.template
  {
    if states.Some? { RefreshKeepsConfig(ReconcileStalls(s, now), states.value); }
  }
}
