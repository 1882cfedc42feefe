/** What a journal says: the yardsticks for attempt numbers, token totals, run time, termination and
    configuration.  Each is read off the journal alone, by a function that goes back through it act by act;
    the sums over running entries, which the yardsticks are compared with, are here too. */
module Histories {
  import opened Domain
  import opened State

  // ---------- attempts ----------

  /** Failures since the last fresh dispatch, or 1 plus the failures since the last normal exit if that
      came later. */
  function AttemptOf(h: History, id: string): int {
    match h
    case Start => 0
    case Then(before, act) =>
      match act
      case Dispatched(i, _, byTick, _) => if i == id && byTick then 0 else AttemptOf(before, id)
      case Completed(i) => if i == id then 1 else AttemptOf(before, id)
      case Failed(i, _) => AttemptOf(before, id) + (if i == id then 1 else 0)
      case _ => AttemptOf(before, id)
  }

  // ---------- tokens ----------

  /** All usage worker w has emitted. */
  function EmittedBy(h: History, w: nat): Usage {
    match h
    case Start => NoUsage
    case Then(before, act) =>
      if act.Emitted? && act.worker == w then EmittedBy(before, w).Plus(act.usage) else EmittedBy(before, w)
  }

  function EmittedTotal(h: History): Usage {
    match h
    case Start => NoUsage
    case Then(before, act) => if act.Emitted? then EmittedTotal(before).Plus(act.usage) else EmittedTotal(before)
  }

  /** The session total worker w's entry carried when it ended. */
  function EndedTokens(h: History, w: nat): Usage {
    match h
    case Start => NoUsage
    case Then(before, act) => if act.Ended? && act.worker == w then act.tokens else EndedTokens(before, w)
  }

  function EndedTotal(h: History): Usage {
    match h
    case Start => NoUsage
    case Then(before, act) => if act.Ended? then EndedTotal(before).Plus(act.tokens) else EndedTotal(before)
  }

  function UsageIn(m: Message): Usage {
    if m.ev.AgentUpdate? && m.ev.msg.usage.Some? then m.ev.msg.usage.value else NoUsage
  }

  function ShareOf(m: Message, w: nat): Usage { if m.src == FromWorker(w) then UsageIn(m) else NoUsage }

  /** Undelivered usage of worker w. */
  function InFlight(chan: seq<Message>, w: nat): Usage {
    if chan == [] then NoUsage else ShareOf(chan[0], w).Plus(InFlight(chan[1..], w))
  }

  function InFlightTotal(chan: seq<Message>): Usage {
    if chan == [] then NoUsage else UsageIn(chan[0]).Plus(InFlightTotal(chan[1..]))
  }

  lemma {:induction false} InFlightSnoc(chan: seq<Message>, m: Message, w: nat)
    ensures InFlight(chan + [m], w) == InFlight(chan, w).Plus(ShareOf(m, w))
  {
    hide ShareOf;
    if chan != [] {
      assert (chan + [m])[1..] == chan[1..] + [m];
      InFlightSnoc(chan[1..], m, w);
    }
  }

  lemma {:induction false} InFlightTotalSnoc(chan: seq<Message>, m: Message)
    ensures InFlightTotal(chan + [m]) == InFlightTotal(chan).Plus(UsageIn(m))
  {
    hide UsageIn;
    if chan != [] {
      assert (chan + [m])[1..] == chan[1..] + [m];
      InFlightTotalSnoc(chan[1..], m);
    }
  }

  lemma {:induction false} NothingInFlight(chan: seq<Message>, w: nat)
    requires forall i :: 0 <= i < |chan| ==> chan[i].src != FromWorker(w)
    ensures InFlight(chan, w) == NoUsage
  {
    hide UsageIn;
    if chan != [] {
      assert chan[0].src != FromWorker(w);
      assert ShareOf(chan[0], w) == NoUsage;
      NothingInFlight(chan[1..], w);
    }
  }

  // ---------- run time ----------

  predicate HasEnded(h: History, w: nat) {
    match h
    case Start => false
    case Then(before, act) => (act.Ended? && act.worker == w) || HasEnded(before, w)
  }

  /** When worker w's entry ended, or t if it has not. */
  function EndOr(h: History, w: nat, t: Time): Time {
    match h
    case Start => t
    case Then(before, act) => if act.Ended? && act.worker == w then act.at else EndOr(before, w, t)
  }

  function StartOf(h: History, w: nat): Time {
    match h
    case Start => 0
    case Then(before, act) => if act.Dispatched? && act.worker == w then act.at else StartOf(before, w)
  }

  /** The time the first n workers have run for by time t. */
  function RunTime(h: History, n: nat, t: Time): int {
    if n == 0 then 0 else RunTime(h, n - 1, t) + (EndOr(h, n - 1, t) - StartOf(h, n - 1))
  }

  lemma {:induction false} RunTimeSame(h: History, act: Act, n: nat, t: Time)
    requires act.Dispatched? || act.Ended? ==> act.worker >= n
    ensures RunTime(Then(h, act), n, t) == RunTime(h, n, t)
  {
    if n > 0 { RunTimeSame(h, act, n - 1, t); }
  }

  lemma {:induction false} EndOrOpen(h: History, w: nat, t: Time)
    requires !HasEnded(h, w)
    ensures EndOr(h, w, t) == t
  {
    if h.Then? { EndOrOpen(h.before, w, t); }
  }

  lemma {:induction false} RunTimeEnded(h: History, w: nat, at: Time, tokens: Usage, n: nat, t: Time)
    requires w < n && !HasEnded(h, w)
    ensures RunTime(Then(h, Ended(w, at, tokens)), n, t) == RunTime(h, n, t) + (at - t)
  {
    if n - 1 == w {
      RunTimeSame(h, Ended(w, at, tokens), n - 1, t);
      EndOrOpen(h, w, t);
    } else {
      RunTimeEnded(h, w, at, tokens, n - 1, t);
    }
  }

  // ---------- termination ----------

  /** What reconciliation decided about a worker. */
  datatype Verdict = Untouched | Stopped | Dropped(cleanup: bool)

  function VerdictOf(h: History, w: nat): Verdict {
    match h
    case Start => Untouched
    case Then(before, act) =>
      match act
      case Stalled(workers) => if w in workers then Stopped else VerdictOf(before, w)
      case Terminated(v, cleanup) => if v == w then Dropped(cleanup) else VerdictOf(before, w)
      case _ => VerdictOf(before, w)
  }

  /** How often reconciliation terminated a worker. */
  function Terminations(h: History, w: nat): nat {
    match h
    case Start => 0
    case Then(before, act) =>
      Terminations(before, w)
      + (if (act.Stalled? && w in act.workers) || (act.Terminated? && act.worker == w) then 1 else 0)
  }

  /** How often the workspace was cleaned up on a worker's behalf. */
  function Cleanups(h: History, w: nat): nat {
    match h
    case Start => 0
    case Then(before, act) => Cleanups(before, w) + (if act.CleanedUp? && act.worker == w then 1 else 0)
  }

  // ---------- completion and configuration ----------

  function CompletedIds(h: History): set<string> {
    match h
    case Start => {}
    case Then(before, act) => CompletedIds(before) + (if act.Completed? then {act.id} else {})
  }

  /** The last configuration and template reloaded, or the first ones. */
  function ConfigOf(h: History, first: (Config, string)): (Config, string) {
    match h
    case Start => first
    case Then(before, act) => if act.Reloaded? then (act.cfg, act.template) else ConfigOf(before, first)
  }

  // ---------- sums over running entries ----------

  const INPUT: Entry -> int := (e: Entry) => e.session.tokens.input
  const OUTPUT: Entry -> int := (e: Entry) => e.session.tokens.output
  const TOTAL: Entry -> int := (e: Entry) => e.session.tokens.total

  function RunningFor(t: Time): Entry -> int { (e: Entry) => t - e.startedAt }

  ghost function Sum(m: map<string, Entry>, f: Entry -> int): int {
    if m == map[] then 0
    else
      var k :| k in m;
      f(m[k]) + Sum(m - {k}, f)
  }

  lemma {:induction false} SumWithout(m: map<string, Entry>, f: Entry -> int, k: string)
    requires k in m
    ensures Sum(m, f) == f(m[k]) + Sum(m - {k}, f)
  {
    var j :| j in m && Sum(m, f) == f(m[j]) + Sum(m - {j}, f);
    if j != k {
      SumWithout(m - {j}, f, k);
      SumWithout(m - {k}, f, j);
      assert m - {j} - {k} == m - {k} - {j};
    }
  }

  lemma SumSet(m: map<string, Entry>, f: Entry -> int, k: string, e: Entry)
    ensures Sum(m[k := e], f) == f(e) + Sum(m - {k}, f)
  {
    SumWithout(m[k := e], f, k);
    assert m[k := e] - {k} == m - {k};
  }

  lemma SumSetFresh(m: map<string, Entry>, f: Entry -> int, k: string, e: Entry)
    requires k !in m
    ensures Sum(m[k := e], f) == f(e) + Sum(m, f)
  {
    SumSet(m, f, k, e);
    assert m - {k} == m;
  }

  lemma {:induction false} SumCongruent(a: map<string, Entry>, b: map<string, Entry>, f: Entry -> int)
    requires a.Keys == b.Keys && forall k :: k in a ==> f(a[k]) == f(b[k])
    ensures Sum(a, f) == Sum(b, f)
    decreases |a.Keys|
  {
    if a != map[] {
      var k :| k in a;
      SumWithout(a, f, k);
      SumWithout(b, f, k);
      assert (a - {k}).Keys == a.Keys - {k} && (b - {k}).Keys == b.Keys - {k};
      SumCongruent(a - {k}, b - {k}, f);
    }
  }

  /** The token totals of all running sessions. */
  ghost function SessionTotal(m: map<string, Entry>): Usage { Usage(Sum(m, INPUT), Sum(m, OUTPUT), Sum(m, TOTAL)) }

  /** The time all running entries have run for by time t. */
  ghost function LiveNs(m: map<string, Entry>, t: Time): int { Sum(m, RunningFor(t)) }

  lemma TotalSet(m: map<string, Entry>, k: string, e: Entry, t: Time)
    requires k !in m
    ensures SessionTotal(m[k := e]) == SessionTotal(m).Plus(e.session.tokens)
    ensures LiveNs(m[k := e], t) == LiveNs(m, t) + (t - e.startedAt)
  {
    SumSetFresh(m, INPUT, k, e);
    SumSetFresh(m, OUTPUT, k, e);
    SumSetFresh(m, TOTAL, k, e);
    SumSetFresh(m, RunningFor(t), k, e);
  }

  lemma TotalRemoved(m: map<string, Entry>, k: string, t: Time)
    requires k in m
    ensures SessionTotal(m) == SessionTotal(m - {k}).Plus(m[k].session.tokens)
    ensures LiveNs(m, t) == LiveNs(m - {k}, t) + (t - m[k].startedAt)
  {
    SumWithout(m, INPUT, k);
    SumWithout(m, OUTPUT, k);
    SumWithout(m, TOTAL, k);
    SumWithout(m, RunningFor(t), k);
  }

  lemma TotalSame(a: map<string, Entry>, b: map<string, Entry>, t: Time)
    requires a.Keys == b.Keys
    requires forall id :: id in a ==> a[id].startedAt == b[id].startedAt && a[id].session.tokens == b[id].session.tokens
    ensures SessionTotal(a) == SessionTotal(b)
    ensures LiveNs(a, t) == LiveNs(b, t)
  {
    SumCongruent(a, b, INPUT);
    SumCongruent(a, b, OUTPUT);
    SumCongruent(a, b, TOTAL);
    SumCongruent(a, b, RunningFor(t));
  }
}
