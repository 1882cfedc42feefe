/** The books agree with the journal: attempt numbers, token totals, run time, termination flags and
    cleanups are functions of what happened.  One predicate for each subject, one lemma for each way
    the books change.  The predicates take the maps and the journal they speak of rather than the whole
    state, so that a lemma about one subject need not mention the others: an entry is added, rewritten,
    credited or ended, a message is sent or delivered, an act is written down.  `Accounts` puts the
    subjects together and follows the handlers. */
module Ledger {
  import opened Domain
  import opened State
  import opened Histories

  // ---------- the subjects ----------

  ghost predicate AttemptsOk(running: map<string, Entry>, retry: map<string, Retry>, h: History) {
    && (forall id :: id in running ==> running[id].retryAttempt == AttemptOf(h, id) >= 0)
    && (forall id :: id in retry ==> retry[id].attempt == AttemptOf(h, id) >= 1)
  }

  ghost predicate Serving(running: map<string, Entry>, w: nat) {
    exists id :: id in running && running[id].worker == w
  }

  /** Worker numbers below n have been dispatched once; those that serve no entry have ended. */
  ghost predicate EndsOk(running: map<string, Entry>, n: nat, h: History) {
    && (forall w: nat :: HasEnded(h, w) <==> w < n && !Serving(running, w))
    && (forall id :: id in running ==> running[id].worker < n && running[id].startedAt == StartOf(h, running[id].worker))
  }

  /** Worker by worker, what was emitted is what was credited plus what is in flight. */
  ghost predicate CreditsOk(running: map<string, Entry>, chan: seq<Message>, h: History) {
    && (forall id :: id in running ==>
          EmittedBy(h, running[id].worker) == running[id].session.tokens.Plus(InFlight(chan, running[id].worker)))
    && (forall w: nat :: !Serving(running, w) ==> EmittedBy(h, w) == EndedTokens(h, w))
  }

  /** In total, too; and the totals are the running sessions' plus the ended ones'. */
  ghost predicate TotalsOk(running: map<string, Entry>, chan: seq<Message>, totals: Usage, h: History) {
    && EmittedTotal(h) == totals.Plus(InFlightTotal(chan))
    && totals == SessionTotal(running).Plus(EndedTotal(h))
  }

  ghost predicate TokensOk(running: map<string, Entry>, chan: seq<Message>, totals: Usage, h: History) {
    CreditsOk(running, chan, h) && TotalsOk(running, chan, totals, h)
  }

  ghost predicate ClockOk(running: map<string, Entry>, endedNs: int, n: nat, h: History, t: Time) {
    endedNs + LiveNs(running, t) == RunTime(h, n, t)
  }

  predicate FlagsMatch(e: Entry, v: Verdict) {
    match v
    case Untouched => !e.terminating && !e.releaseOnExit && !e.cleanupOnExit
    case Stopped => e.terminating && !e.releaseOnExit && !e.cleanupOnExit
    case Dropped(cleanup) => e.terminating && e.releaseOnExit && e.cleanupOnExit == cleanup
  }

  /** Termination is one-shot, and a cleanup runs once for each ended worker dropped for a terminal
      state and for no other. */
  ghost predicate VerdictsOk(running: map<string, Entry>, n: nat, h: History) {
    && (forall id :: id in running ==> FlagsMatch(running[id], VerdictOf(h, running[id].worker)))
    && (forall w: nat :: w >= n ==> VerdictOf(h, w) == Untouched)
    && (forall w: nat :: Terminations(h, w) == if VerdictOf(h, w) == Untouched then 0 else 1)
    && (forall w: nat :: Cleanups(h, w) == if HasEnded(h, w) && VerdictOf(h, w) == Dropped(true) then 1 else 0)
  }

  // ---------- no worker serves two entries ----------

  ghost predicate OneEntryEach(running: map<string, Entry>) {
    forall a, b :: a in running && b in running && running[a].worker == running[b].worker ==> a == b
  }

  lemma ServingAdded(running: map<string, Entry>, id: string, e: Entry)
    requires id !in running
    ensures forall w: nat :: Serving(running[id := e], w) <==> Serving(running, w) || w == e.worker
  {
    forall w: nat ensures Serving(running[id := e], w) <==> Serving(running, w) || w == e.worker {
      if Serving(running, w) {
        var k :| k in running && running[k].worker == w;
        assert running[id := e][k].worker == w;
      }
      assert running[id := e][id].worker == e.worker;
    }
  }

  lemma ServingRemoved(running: map<string, Entry>, id: string)
    requires id in running && OneEntryEach(running)
    ensures forall w: nat :: Serving(running - {id}, w) <==> Serving(running, w) && w != running[id].worker
  {
    forall w: nat ensures Serving(running - {id}, w) <==> Serving(running, w) && w != running[id].worker {
      if Serving(running, w) && w != running[id].worker {
        var k :| k in running && running[k].worker == w;
        assert k in running - {id} && (running - {id})[k].worker == w;
      }
    }
  }

  lemma ServingSame(a: map<string, Entry>, b: map<string, Entry>)
    requires a.Keys == b.Keys && forall id :: id in a ==> a[id].worker == b[id].worker
    ensures forall w: nat :: Serving(a, w) <==> Serving(b, w)
  {
    forall w: nat ensures Serving(a, w) <==> Serving(b, w) {
      if Serving(a, w) { var k :| k in a && a[k].worker == w; assert k in b && b[k].worker == w; }
      if Serving(b, w) { var k :| k in b && b[k].worker == w; assert k in a && a[k].worker == w; }
    }
  }

  // ---------- dispatch ----------

  lemma DispatchAttempts(running: map<string, Entry>, retry: map<string, Retry>, h: History, id: string, e: Entry, byTick: bool)
    requires AttemptsOk(running, retry, h) && id !in retry
    requires e.retryAttempt == if byTick then 0 else AttemptOf(h, id)
    requires e.retryAttempt >= 0
    ensures AttemptsOk(running[id := e], retry, Then(h, Dispatched(id, e.worker, byTick, e.startedAt)))
  {
    var h', running' := Then(h, Dispatched(id, e.worker, byTick, e.startedAt)), running[id := e];
    forall k ensures AttemptOf(h', k) == if k == id && byTick then 0 else AttemptOf(h, k) {}
    forall k | k in running' ensures running'[k].retryAttempt == AttemptOf(h', k) && AttemptOf(h', k) >= 0 {
      if k != id { assert k in running; }
    }
    assert AttemptsOk(running', retry, h');
  }

  lemma DispatchEnds(running: map<string, Entry>, n: nat, h: History, id: string, e: Entry, byTick: bool)
    requires EndsOk(running, n, h) && id !in running && e.worker == n
    ensures EndsOk(running[id := e], n + 1, Then(h, Dispatched(id, n, byTick, e.startedAt)))
  {
    var h', running' := Then(h, Dispatched(id, n, byTick, e.startedAt)), running[id := e];
    ServingAdded(running, id, e);
    assert !HasEnded(h, n);
    hide Serving;
    forall w: nat ensures HasEnded(h', w) == HasEnded(h, w)
      && StartOf(h', w) == if w == n then e.startedAt else StartOf(h, w) {}
    assert forall k :: k in running' && k != id ==> k in running;
    assert EndsOk(running', n + 1, h');
  }

  lemma {:induction false} NotEndedNoTokens(h: History, w: nat)
    requires !HasEnded(h, w)
    ensures EndedTokens(h, w) == NoUsage
  {
    if h.Then? { NotEndedNoTokens(h.before, w); }
  }

  /** Acts that neither emit nor end leave the token histories alone. */
  lemma QuietAct(h: History, act: Act)
    requires !act.Emitted? && !act.Ended?
    ensures forall w: nat :: EmittedBy(Then(h, act), w) == EmittedBy(h, w) && EndedTokens(Then(h, act), w) == EndedTokens(h, w)
    ensures EmittedTotal(Then(h, act)) == EmittedTotal(h) && EndedTotal(Then(h, act)) == EndedTotal(h)
  {}

  lemma CreditsCongruent(running: map<string, Entry>, chan: seq<Message>, h: History, h': History)
    requires CreditsOk(running, chan, h)
    requires forall w: nat :: EmittedBy(h', w) == EmittedBy(h, w) && EndedTokens(h', w) == EndedTokens(h, w)
    ensures CreditsOk(running, chan, h')
  {
    hide Serving, EmittedBy, EndedTokens, InFlight, Usage.Plus;
  }

  lemma RemarkTokens(running: map<string, Entry>, chan: seq<Message>, totals: Usage, h: History, act: Act)
    requires TokensOk(running, chan, totals, h) && !act.Emitted? && !act.Ended?
    ensures TokensOk(running, chan, totals, Then(h, act))
  {
    QuietAct(h, act);
    CreditsCongruent(running, chan, h, Then(h, act));
    hide CreditsOk, SessionTotal, InFlightTotal, EmittedTotal, EndedTotal, Usage.Plus;
  }

  lemma NewcomerTokens(running: map<string, Entry>, n: nat, chan: seq<Message>, h: History)
    requires CreditsOk(running, chan, h) && EndsOk(running, n, h)
    ensures EmittedBy(h, n) == NoUsage && !Serving(running, n)
  {
    assert !Serving(running, n) && !HasEnded(h, n) by { hide Serving; ServingBelow(running, n, h); }
    NotEndedNoTokens(h, n);
    hide Serving, HasEnded, EndedTokens;
  }

  lemma ServingBelow(running: map<string, Entry>, n: nat, h: History)
    requires EndsOk(running, n, h)
    ensures !Serving(running, n) && !HasEnded(h, n)
  {}

  lemma DispatchCredits(running: map<string, Entry>, n: nat, chan: seq<Message>, h: History, id: string, e: Entry)
    requires CreditsOk(running, chan, h) && EndsOk(running, n, h) && id !in running && e.worker == n
    requires e.session.tokens == NoUsage && InFlight(chan, n) == NoUsage
    ensures CreditsOk(running[id := e], chan, h)
  {
    hide *;
    NewcomerTokens(running, n, chan, h);
    ServingAdded(running, id, e);
    PlusLaws(NoUsage, NoUsage, NoUsage);
    AddedCredits(running, chan, h, id, e);
  }

  lemma AddedCredits(running: map<string, Entry>, chan: seq<Message>, h: History, id: string, e: Entry)
    requires CreditsOk(running, chan, h) && id !in running
    requires EmittedBy(h, e.worker) == e.session.tokens.Plus(InFlight(chan, e.worker))
    requires forall w: nat :: Serving(running[id := e], w) <==> Serving(running, w) || w == e.worker
    ensures CreditsOk(running[id := e], chan, h)
  {
    hide Serving, EmittedBy, EndedTokens, InFlight, Usage.Plus;
  }

  lemma DispatchTokens(running: map<string, Entry>, n: nat, chan: seq<Message>, totals: Usage, h: History,
                       id: string, e: Entry, byTick: bool)
    requires TokensOk(running, chan, totals, h) && EndsOk(running, n, h) && id !in running && e.worker == n
    requires e.session.tokens == NoUsage && InFlight(chan, n) == NoUsage
    ensures TokensOk(running[id := e], chan, totals, Then(h, Dispatched(id, n, byTick, e.startedAt)))
  {
    hide *;
    TokensParts(running, chan, totals, h);
    DispatchCredits(running, n, chan, h, id, e);
    DispatchTotals(running, chan, totals, h, id, e);
    TokensParts(running[id := e], chan, totals, h);
    RemarkTokens(running[id := e], chan, totals, h, Act.Dispatched(id, n, byTick, e.startedAt));
  }

  lemma TokensParts(running: map<string, Entry>, chan: seq<Message>, totals: Usage, h: History)
    ensures TokensOk(running, chan, totals, h) <==> CreditsOk(running, chan, h) && TotalsOk(running, chan, totals, h)
  {
    hide CreditsOk, TotalsOk;
  }

  lemma DispatchTotals(running: map<string, Entry>, chan: seq<Message>, totals: Usage, h: History, id: string, e: Entry)
    requires TotalsOk(running, chan, totals, h) && id !in running && e.session.tokens == NoUsage
    ensures TotalsOk(running[id := e], chan, totals, h)
  {
    hide SessionTotal, InFlightTotal, EmittedTotal, EndedTotal;
    TotalSet(running, id, e, 0);
    PlusLaws(SessionTotal(running), NoUsage, NoUsage);
  }

  lemma DispatchClock(running: map<string, Entry>, endedNs: int, n: nat, h: History, t: Time, id: string, e: Entry,
                      byTick: bool)
    requires ClockOk(running, endedNs, n, h, t) && EndsOk(running, n, h) && id !in running
    ensures ClockOk(running[id := e], endedNs, n + 1, Then(h, Dispatched(id, n, byTick, e.startedAt)), t)
  {
    TotalSet(running, id, e, t);
    RunTimeSame(h, Dispatched(id, n, byTick, e.startedAt), n, t);
    assert !HasEnded(h, n);
    EndOrOpen(h, n, t);
  }

  lemma DispatchVerdicts(running: map<string, Entry>, n: nat, h: History, id: string, e: Entry, byTick: bool)
    requires VerdictsOk(running, n, h) && e.worker == n && FlagsMatch(e, Untouched)
    ensures VerdictsOk(running[id := e], n + 1, Then(h, Dispatched(id, n, byTick, e.startedAt)))
  {
    var h' := Then(h, Dispatched(id, n, byTick, e.startedAt));
    forall w: nat ensures VerdictOf(h', w) == VerdictOf(h, w) && Terminations(h', w) == Terminations(h, w)
      && HasEnded(h', w) == HasEnded(h, w) && Cleanups(h', w) == Cleanups(h, w) {}
    assert VerdictsOk(running[id := e], n + 1, h');
  }

  // ---------- the end of a worker ----------

  /** What EndWorker writes into the journal. */
  function EndedHistory(h: History, e: Entry, at: Time): History {
    var ended := Then(h, Ended(e.worker, at, e.session.tokens));
    if e.cleanupOnExit then Then(ended, CleanedUp(e.worker, e.identifier)) else ended
  }

  lemma EndAttempts(running: map<string, Entry>, retry: map<string, Retry>, h: History, id: string, at: Time)
    requires AttemptsOk(running, retry, h) && id in running
    ensures AttemptsOk(running - {id}, retry, EndedHistory(h, running[id], at))
    ensures AttemptOf(EndedHistory(h, running[id], at), id) == running[id].retryAttempt >= 0
  {
    var e := running[id];
    var ended := Then(h, Ended(e.worker, at, e.session.tokens));
    var h' := EndedHistory(h, e, at);
    forall k ensures AttemptOf(h', k) == AttemptOf(h, k) { assert AttemptOf(ended, k) == AttemptOf(h, k); }
    assert AttemptsOk(running - {id}, retry, h');
  }

  lemma EndEnds(running: map<string, Entry>, n: nat, h: History, id: string, at: Time)
    requires EndsOk(running, n, h) && id in running && OneEntryEach(running)
    ensures EndsOk(running - {id}, n, EndedHistory(h, running[id], at))
  {
    var e := running[id];
    var ended := Then(h, Ended(e.worker, at, e.session.tokens));
    ServingRemoved(running, id);
    forall w: nat ensures HasEnded(EndedHistory(h, e, at), w) <==> HasEnded(h, w) || w == e.worker {
      assert HasEnded(ended, w) <==> HasEnded(h, w) || w == e.worker;
    }
    forall w: nat ensures StartOf(EndedHistory(h, e, at), w) == StartOf(h, w) {
      assert StartOf(ended, w) == StartOf(h, w);
    }
    assert Serving(running, e.worker);
  }

  lemma EndCredits(running: map<string, Entry>, chan: seq<Message>, h: History, id: string, at: Time)
    requires CreditsOk(running, chan, h) && id in running && OneEntryEach(running)
    requires InFlight(chan, running[id].worker) == NoUsage
    ensures CreditsOk(running - {id}, chan, Then(h, Ended(running[id].worker, at, running[id].session.tokens)))
  {
    hide *;
    var e := running[id];
    var h' := Then(h, Ended(e.worker, at, e.session.tokens));
    OwnTokens(running, chan, h, id);
    ServingRemoved(running, id);
    EndedAct(h, e, at);
    RemovedCredits(running, chan, h, h', id);
  }

  lemma OwnTokens(running: map<string, Entry>, chan: seq<Message>, h: History, id: string)
    requires CreditsOk(running, chan, h) && id in running && InFlight(chan, running[id].worker) == NoUsage
    ensures EmittedBy(h, running[id].worker) == running[id].session.tokens
  {
    hide Serving, EmittedBy, EndedTokens, InFlight;
  }

  lemma EndedAct(h: History, e: Entry, at: Time)
    ensures var h' := Then(h, Ended(e.worker, at, e.session.tokens));
      && (forall w: nat :: EmittedBy(h', w) == EmittedBy(h, w))
      && (forall w: nat :: EndedTokens(h', w) == if w == e.worker then e.session.tokens else EndedTokens(h, w))
  {}

  lemma RemovedCredits(running: map<string, Entry>, chan: seq<Message>, h: History, h': History, id: string)
    requires CreditsOk(running, chan, h) && id in running
    requires EmittedBy(h, running[id].worker) == running[id].session.tokens
    requires forall w: nat :: Serving(running - {id}, w) <==> Serving(running, w) && w != running[id].worker
    requires forall w: nat :: EmittedBy(h', w) == EmittedBy(h, w)
    requires forall w: nat :: EndedTokens(h', w) == if w == running[id].worker then running[id].session.tokens else EndedTokens(h, w)
    ensures CreditsOk(running - {id}, chan, h')
  {
    hide Serving, EmittedBy, EndedTokens, InFlight, Usage.Plus;
  }

  lemma EndTotals(running: map<string, Entry>, chan: seq<Message>, totals: Usage, h: History, id: string, at: Time)
    requires TotalsOk(running, chan, totals, h) && id in running
    ensures TotalsOk(running - {id}, chan, totals, Then(h, Ended(running[id].worker, at, running[id].session.tokens)))
  {
    var e := running[id];
    TotalRemoved(running, id, 0);
    PlusRegroup(SessionTotal(running - {id}), e.session.tokens, EndedTotal(h), NoUsage);
    hide SessionTotal, Usage.Plus;
    assert EndedTotal(Then(h, Ended(e.worker, at, e.session.tokens))) == EndedTotal(h).Plus(e.session.tokens);
  }

  lemma EndTokens(running: map<string, Entry>, chan: seq<Message>, totals: Usage, h: History, id: string, at: Time)
    requires TokensOk(running, chan, totals, h) && id in running && OneEntryEach(running)
    requires InFlight(chan, running[id].worker) == NoUsage
    ensures TokensOk(running - {id}, chan, totals, EndedHistory(h, running[id], at))
  {
    hide *;
    var e := running[id];
    var ended := Then(h, Ended(e.worker, at, e.session.tokens));
    TokensParts(running, chan, totals, h);
    EndCredits(running, chan, h, id, at);
    EndTotals(running, chan, totals, h, id, at);
    TokensParts(running - {id}, chan, totals, ended);
    RemarkTokens(running - {id}, chan, totals, ended, CleanedUp(e.worker, e.identifier));
    EndedHistoryIs(h, e, at);
  }

  lemma EndedHistoryIs(h: History, e: Entry, at: Time)
    ensures var ended := Then(h, Ended(e.worker, at, e.session.tokens));
      EndedHistory(h, e, at) == if e.cleanupOnExit then Then(ended, CleanedUp(e.worker, e.identifier)) else ended
  {}

  lemma EndClock(running: map<string, Entry>, endedNs: int, n: nat, h: History, t: Time, id: string, at: Time)
    requires ClockOk(running, endedNs, n, h, t) && EndsOk(running, n, h) && id in running
    ensures ClockOk(running - {id}, endedNs + (at - running[id].startedAt), n, EndedHistory(h, running[id], at), t)
  {
    var e := running[id];
    var ended := Then(h, Ended(e.worker, at, e.session.tokens));
    TotalRemoved(running, id, t);
    assert Serving(running, e.worker) && !HasEnded(h, e.worker);
    RunTimeEnded(h, e.worker, at, e.session.tokens, n, t);
    RunTimeSame(ended, CleanedUp(e.worker, e.identifier), n, t);
  }

  lemma EndVerdicts(running: map<string, Entry>, n: nat, h: History, id: string, at: Time)
    requires VerdictsOk(running, n, h) && EndsOk(running, n, h) && id in running
    ensures VerdictsOk(running - {id}, n, EndedHistory(h, running[id], at))
  {
    var e := running[id];
    var ended := Then(h, Ended(e.worker, at, e.session.tokens));
    var h' := EndedHistory(h, e, at);
    assert Serving(running, e.worker) && !HasEnded(h, e.worker);
    assert e.cleanupOnExit <==> VerdictOf(h, e.worker) == Dropped(true);
    forall w: nat ensures VerdictOf(h', w) == VerdictOf(h, w) && Terminations(h', w) == Terminations(h, w)
      && (HasEnded(h', w) <==> HasEnded(h, w) || w == e.worker)
      && Cleanups(h', w) == Cleanups(h, w) + if w == e.worker && e.cleanupOnExit then 1 else 0
    {
      assert VerdictOf(ended, w) == VerdictOf(h, w) && Terminations(ended, w) == Terminations(h, w)
          && Cleanups(ended, w) == Cleanups(h, w) && (HasEnded(ended, w) <==> HasEnded(h, w) || w == e.worker);
    }
  }

  // ---------- remarks: completed, failed, released, reloaded ----------

  predicate IsRemark(act: Act) { act.Completed? || act.Failed? || act.Released? || act.Reloaded? }

  lemma RemarkAttempts(running: map<string, Entry>, retry: map<string, Retry>, h: History, act: Act)
    requires AttemptsOk(running, retry, h) && IsRemark(act)
    requires act.Completed? || act.Failed? ==> act.id !in running && act.id !in retry
    ensures AttemptsOk(running, retry, Then(h, act))
  {}

  lemma RemarkEnds(running: map<string, Entry>, n: nat, h: History, act: Act)
    requires EndsOk(running, n, h) && (IsRemark(act) || act.Stalled? || act.Terminated? || act.Emitted?)
    ensures EndsOk(running, n, Then(h, act))
  {
    hide Serving;
    forall w: nat ensures HasEnded(Then(h, act), w) == HasEnded(h, w) && StartOf(Then(h, act), w) == StartOf(h, w) {}
  }

  lemma RemarkVerdicts(running: map<string, Entry>, n: nat, h: History, act: Act)
    requires VerdictsOk(running, n, h) && (IsRemark(act) || act.Emitted?)
    ensures VerdictsOk(running, n, Then(h, act))
  {
    var h' := Then(h, act);
    forall w: nat ensures VerdictOf(h', w) == VerdictOf(h, w) && Terminations(h', w) == Terminations(h, w)
      && HasEnded(h', w) == HasEnded(h, w) && Cleanups(h', w) == Cleanups(h, w) {}
  }

  // ---------- emission and credit ----------

  lemma EmissionOne(chan: seq<Message>, h: History, m: Message, u: Usage, v: nat, tokens: Usage)
    requires m.src.FromWorker? && UsageIn(m) == u && EmittedBy(h, v) == tokens.Plus(InFlight(chan, v))
    ensures EmittedBy(Then(h, Emitted(m.src.worker, u)), v) == tokens.Plus(InFlight(chan + [m], v))
  {
    InFlightSnoc(chan, m, v);
    PlusLaws(tokens, InFlight(chan, v), u);
    PlusLaws(InFlight(chan, v), NoUsage, NoUsage);
    hide UsageIn, Usage.Plus;
    assert ShareOf(m, v) == if v == m.src.worker then u else NoUsage;
  }

  lemma EmissionCredits(running: map<string, Entry>, chan: seq<Message>, h: History, m: Message, u: Usage)
    requires CreditsOk(running, chan, h) && m.src.FromWorker? && Serving(running, m.src.worker) && UsageIn(m) == u
    ensures CreditsOk(running, chan + [m], Then(h, Emitted(m.src.worker, u)))
  {
    var h' := Then(h, Emitted(m.src.worker, u));
    hide Serving, UsageIn, Usage.Plus;
    forall id | id in running
      ensures EmittedBy(h', running[id].worker) == running[id].session.tokens.Plus(InFlight(chan + [m], running[id].worker))
    {
      EmissionOne(chan, h, m, u, running[id].worker, running[id].session.tokens);
    }
    assert CreditsOk(running, chan + [m], h');
  }

  lemma EmissionTotals(running: map<string, Entry>, chan: seq<Message>, totals: Usage, h: History, m: Message, w: nat, u: Usage)
    requires TotalsOk(running, chan, totals, h) && UsageIn(m) == u
    ensures TotalsOk(running, chan + [m], totals, Then(h, Emitted(w, u)))
  {
    InFlightTotalSnoc(chan, m);
    hide UsageIn, Usage.Plus, SessionTotal;
    PlusLaws(totals, InFlightTotal(chan), u);
  }

  lemma EmissionTokens(running: map<string, Entry>, chan: seq<Message>, totals: Usage, h: History, m: Message)
    requires TokensOk(running, chan, totals, h) && m.ev.AgentUpdate? && m.ev.msg.usage.Some?
    requires m.src.FromWorker? && Serving(running, m.src.worker)
    ensures TokensOk(running, chan + [m], totals, Then(h, Emitted(m.src.worker, m.ev.msg.usage.value)))
  {
    hide CreditsOk, TotalsOk, Serving;
    EmissionCredits(running, chan, h, m, m.ev.msg.usage.value);
    EmissionTotals(running, chan, totals, h, m, m.src.worker, m.ev.msg.usage.value);
  }

  lemma SilentTokens(running: map<string, Entry>, chan: seq<Message>, totals: Usage, h: History, m: Message)
    requires TokensOk(running, chan, totals, h) && UsageIn(m) == NoUsage
    ensures TokensOk(running, chan + [m], totals, h)
  {
    hide Serving, SessionTotal, UsageIn, Usage.Plus;
    InFlightTotalSnoc(chan, m);
    PlusLaws(InFlightTotal(chan), NoUsage, NoUsage);
    forall w: nat ensures InFlight(chan + [m], w) == InFlight(chan, w) {
      InFlightSnoc(chan, m, w);
      PlusLaws(InFlight(chan, w), NoUsage, NoUsage);
    }
    assert CreditsOk(running, chan + [m], h);
  }

  /** Taking a message that carries no usage. */
  lemma TakenTokens(running: map<string, Entry>, chan: seq<Message>, totals: Usage, h: History)
    requires TokensOk(running, chan, totals, h) && chan != [] && UsageIn(chan[0]) == NoUsage
    ensures TokensOk(running, chan[1..], totals, h)
  {
    hide Serving, SessionTotal, UsageIn, Usage.Plus;
    PlusLaws(InFlightTotal(chan[1..]), NoUsage, NoUsage);
    forall w: nat ensures InFlight(chan[1..], w) == InFlight(chan, w) {
      PlusLaws(InFlight(chan[1..], w), NoUsage, NoUsage);
      assert ShareOf(chan[0], w) == NoUsage;
    }
    assert CreditsOk(running, chan[1..], h);
  }

  lemma CreditTotals(running: map<string, Entry>, chan: seq<Message>, totals: Usage, h: History, id: string, e: Entry)
    requires TotalsOk(running, chan, totals, h) && chan != [] && id in running
    requires e.session.tokens == running[id].session.tokens.Plus(UsageIn(chan[0]))
    ensures TotalsOk(running[id := e], chan[1..], totals.Plus(UsageIn(chan[0])), h)
  {
    var u, others, own := UsageIn(chan[0]), SessionTotal(running - {id}), running[id].session.tokens;
    TotalRemoved(running, id, 0);
    TotalSet(running - {id}, id, e, 0);
    assert (running - {id})[id := e] == running[id := e];
    hide SessionTotal, UsageIn, Usage.Plus;
    assert InFlightTotal(chan) == u.Plus(InFlightTotal(chan[1..]));
    PlusLaws(totals, u, InFlightTotal(chan[1..]));
    PlusRegroup(others, own, EndedTotal(h), u);
  }

  lemma CreditOne(chan: seq<Message>, w: nat, v: nat, tokens: Usage, emitted: Usage)
    requires chan != [] && chan[0].src == FromWorker(w) && emitted == tokens.Plus(InFlight(chan, v))
    ensures emitted == (if v == w then tokens.Plus(UsageIn(chan[0])) else tokens).Plus(InFlight(chan[1..], v))
  {
    var tail := InFlight(chan[1..], v);
    PlusLaws(tail, NoUsage, NoUsage);
    PlusLaws(tokens, UsageIn(chan[0]), tail);
    hide UsageIn, Usage.Plus;
    assert ShareOf(chan[0], v) == if v == w then UsageIn(chan[0]) else NoUsage;
    assert InFlight(chan, v) == ShareOf(chan[0], v).Plus(tail);
  }

  lemma CreditCredits(running: map<string, Entry>, chan: seq<Message>, h: History, id: string, e: Entry)
    requires CreditsOk(running, chan, h) && OneEntryEach(running) && chan != [] && id in running
    requires chan[0].src == FromWorker(running[id].worker) && e.worker == running[id].worker
    requires e.session.tokens == running[id].session.tokens.Plus(UsageIn(chan[0]))
    ensures CreditsOk(running[id := e], chan[1..], h)
  {
    var running', w := running[id := e], e.worker;
    ServingSame(running, running');
    hide Serving, UsageIn, Usage.Plus, InFlight;
    forall k | k in running'
      ensures EmittedBy(h, running'[k].worker) == running'[k].session.tokens.Plus(InFlight(chan[1..], running'[k].worker))
    {
      CreditOne(chan, w, running[k].worker, running[k].session.tokens, EmittedBy(h, running[k].worker));
    }
    assert CreditsOk(running', chan[1..], h);
  }

  /** Taking an update and crediting its usage to its sender's session and to the totals. */
  lemma CreditTokens(running: map<string, Entry>, chan: seq<Message>, totals: Usage, h: History, id: string, e: Entry)
    requires TokensOk(running, chan, totals, h) && OneEntryEach(running) && chan != [] && id in running
    requires chan[0].src == FromWorker(running[id].worker) && e.worker == running[id].worker
    requires e.session.tokens == running[id].session.tokens.Plus(UsageIn(chan[0]))
    ensures TokensOk(running[id := e], chan[1..], totals.Plus(UsageIn(chan[0])), h)
  {
    CreditTotals(running, chan, totals, h, id, e);
    CreditCredits(running, chan, h, id, e);
    hide CreditsOk, TotalsOk;
  }

  // ---------- entries rewritten in place ----------

  /** Same issues, workers, starts and attempt numbers. */
  ghost predicate SameIdentities(a: map<string, Entry>, b: map<string, Entry>) {
    && a.Keys == b.Keys
    && forall id :: id in a ==>
         a[id].worker == b[id].worker && a[id].startedAt == b[id].startedAt && a[id].retryAttempt == b[id].retryAttempt
  }

  lemma RewrittenEnds(a: map<string, Entry>, b: map<string, Entry>, retry: map<string, Retry>, n: nat, h: History)
    requires SameIdentities(a, b) && EndsOk(a, n, h) && AttemptsOk(a, retry, h)
    ensures EndsOk(b, n, h) && AttemptsOk(b, retry, h)
  {
    ServingSame(a, b);
  }

  lemma RewrittenClock(a: map<string, Entry>, b: map<string, Entry>, endedNs: int, n: nat, h: History, t: Time)
    requires SameIdentities(a, b) && ClockOk(a, endedNs, n, h, t)
    ensures ClockOk(b, endedNs, n, h, t)
  {
    SumCongruent(a, b, RunningFor(t));
  }

  lemma RewrittenTokens(a: map<string, Entry>, b: map<string, Entry>, chan: seq<Message>, totals: Usage, h: History)
    requires SameIdentities(a, b) && TokensOk(a, chan, totals, h)
    requires forall id :: id in a ==> a[id].session.tokens == b[id].session.tokens
    ensures TokensOk(b, chan, totals, h)
  {
    ServingSame(a, b);
    TotalSame(a, b, 0);
  }

  // ---------- verdicts ----------

  /** A stall or a termination of entries that carry no verdict yet. */
  lemma JudgedVerdicts(a: map<string, Entry>, b: map<string, Entry>, n: nat, h: History, act: Act)
    requires VerdictsOk(a, n, h) && EndsOk(a, n, h) && SameIdentities(a, b)
    requires act.Stalled? || act.Terminated?
    requires forall w: nat :: Judges(act, w) ==> exists id :: id in a && a[id].worker == w && !a[id].terminating
    requires forall id :: id in a ==>
      FlagsMatch(b[id], VerdictOf(Then(h, act), b[id].worker))
    ensures VerdictsOk(b, n, Then(h, act))
  {
    forall w: nat | Judges(act, w) ensures VerdictOf(h, w) == Untouched && w < n && !HasEnded(h, w) {
      var id :| id in a && a[id].worker == w && !a[id].terminating;
      assert FlagsMatch(a[id], VerdictOf(h, w)) && Serving(a, w);
    }
    var h' := Then(h, act);
    forall w: nat ensures HasEnded(h', w) == HasEnded(h, w) && Cleanups(h', w) == Cleanups(h, w)
      && (if Judges(act, w) then VerdictOf(h', w) != Untouched && Terminations(h', w) == Terminations(h, w) + 1
          else VerdictOf(h', w) == VerdictOf(h, w) && Terminations(h', w) == Terminations(h, w)) {}
  }

  predicate Judges(act: Act, w: nat) { (act.Stalled? && w in act.workers) || (act.Terminated? && act.worker == w) }

  lemma JudgedAttempts(running: map<string, Entry>, retry: map<string, Retry>, h: History, act: Act)
    requires AttemptsOk(running, retry, h) && (act.Stalled? || act.Terminated? || act.Emitted?)
    ensures AttemptsOk(running, retry, Then(h, act))
  {
    forall k ensures AttemptOf(Then(h, act), k) == AttemptOf(h, k) {}
  }
}
