/** The counting theorems: exactly one wake-up for every claimed issue, none for any other; and a cap on
    workers. */
module Liveness {
  import opened Domain
  import opened State
  import opened System
  import opened Wakeups
  import opened Books
  import opened Dispatching

  // ---------- what is counted ----------

  /** Live workers serving issue `id`. */
  ghost function WorkersFor(rt: Runtime, id: string): set<nat> { set w | w in rt.live && rt.live[w] == id }

  /** Timers, armed or fired but unposted, that will post `ev`. */
  ghost function TimersFor(timers: map<nat, Timer>, ev: Event): set<nat> { set t | t in timers && timers[t].ev == ev }

  predicate ExitFor(ev: Event, id: string) { ev.WorkerExit? && ev.id == id }

  /** Undelivered exits for issue `id`. */
  function Exits(chan: seq<Message>, id: string): nat {
    if chan == [] then 0 else (if ExitFor(chan[0].ev, id) then 1 else 0) + Exits(chan[1..], id)
  }

  /** Undelivered copies of `ev`. */
  function Copies(chan: seq<Message>, ev: Event): nat {
    if chan == [] then 0 else (if chan[0].ev == ev then 1 else 0) + Copies(chan[1..], ev)
  }

  // ---------- counting in a channel ----------

  lemma {:induction false} NoExits(chan: seq<Message>, id: string)
    requires forall i :: 0 <= i < |chan| ==> !ExitFor(chan[i].ev, id)
    ensures Exits(chan, id) == 0
  {
    if chan != [] { NoExits(chan[1..], id); }
  }

  lemma {:induction false} OneExit(chan: seq<Message>, id: string, k: nat)
    requires k < |chan| && ExitFor(chan[k].ev, id)
    requires forall i :: 0 <= i < |chan| && i != k ==> !ExitFor(chan[i].ev, id)
    ensures Exits(chan, id) == 1
  {
    if k == 0 { NoExits(chan[1..], id); } else { OneExit(chan[1..], id, k - 1); }
  }

  lemma {:induction false} NoCopies(chan: seq<Message>, ev: Event)
    requires forall i :: 0 <= i < |chan| ==> chan[i].ev != ev
    ensures Copies(chan, ev) == 0
  {
    if chan != [] { NoCopies(chan[1..], ev); }
  }

  lemma {:induction false} OneCopy(chan: seq<Message>, ev: Event, k: nat)
    requires k < |chan| && chan[k].ev == ev
    requires forall i :: 0 <= i < |chan| && i != k ==> chan[i].ev != ev
    ensures Copies(chan, ev) == 1
  {
    if k == 0 { NoCopies(chan[1..], ev); } else { OneCopy(chan[1..], ev, k - 1); }
  }

  lemma {:induction false} CopiesSnoc(chan: seq<Message>, m: Message, ev: Event)
    ensures Copies(chan + [m], ev) == Copies(chan, ev) + (if m.ev == ev then 1 else 0)
  {
    if chan != [] {
      assert (chan + [m])[1..] == chan[1..] + [m];
      CopiesSnoc(chan[1..], m, ev);
    }
  }

  // ---------- one wake-up for each claim ----------

  /** A running issue has one live worker or one undelivered exit, never both; any other issue has
      neither. */
  lemma RunningHasOneWorker(s: Orchestration, id: string)
    requires BooksOk(s, {})
    ensures |WorkersFor(s.rt, id)| + Exits(s.rt.chan, id) == if id in s.running then 1 else 0
  {
    hide ChannelOk, WorkersOk, TimersOk, FlagsOk;
    OneWorker(Owners(s.running), Alarms(s.retry), s.rt, id);
  }

  lemma OneWorker(owners: map<string, nat>, alarms: map<string, nat>, rt: Runtime, id: string)
    requires ChannelOk(rt.chan, owners, alarms) && WorkersOk(owners, rt.live, rt.nextWorker, rt.chan)
    ensures |WorkersFor(rt, id)| + Exits(rt.chan, id) == if id in owners then 1 else 0
  {
    hide Exits;
    var chan := rt.chan;
    forall i | 0 <= i < |chan| && ExitFor(chan[i].ev, id) ensures id in owners && IsExitOf(chan[i], owners[id]) {
      assert WellSent(chan[i], owners, alarms);
    }
    if id !in owners {
      NoExits(chan, id);
      assert WorkersFor(rt, id) == {};
    } else {
      var w := owners[id];
      assert (w in rt.live) != ExitPending(chan, w);
      if w in rt.live {
        NoExits(chan, id);
        assert WorkersFor(rt, id) == {w};
      } else {
        assert WorkersFor(rt, id) == {};
        var k: int :| 0 <= k < |chan| && IsExitOf(chan[k], w);
        assert WellSent(chan[k], owners, alarms);
        OneExit(chan, id, k);
      }
    }
  }

  /** A retrying issue has exactly one timer armed, firing or posted; any other issue has none. */
  lemma RetryingHasOneTimer(s: Orchestration, id: string)
    requires BooksOk(s, {})
    ensures var ev := RetryTimerFired(id);
      |TimersFor(s.rt.armed, ev)| + |TimersFor(s.rt.firing, ev)| + Copies(s.rt.chan, ev) == if id in s.retry then 1 else 0
  {
    hide ChannelOk, WorkersOk, TimersOk;
    OneTimer(Owners(s.running), Alarms(s.retry), s.rt.armed, s.rt.firing, s.rt.nextTimer, s.tickTimer, s.rt.chan, id);
  }

  lemma OneTimer(owners: map<string, nat>, alarms: map<string, nat>, armed: map<nat, Timer>, firing: map<nat, Timer>,
                 nextTimer: nat, tickTimer: Option<nat>, chan: seq<Message>, id: string)
    requires ChannelOk(chan, owners, alarms) && TimersOk(alarms, armed, firing, nextTimer, tickTimer, chan)
    ensures var ev := RetryTimerFired(id);
      |TimersFor(armed, ev)| + |TimersFor(firing, ev)| + Copies(chan, ev) == if id in alarms then 1 else 0
  {
    hide Copies;
    var ev := RetryTimerFired(id);
    var atArmed, atFiring := TimersFor(armed, ev), TimersFor(firing, ev);
    forall i | 0 <= i < |chan| && chan[i].ev == ev ensures id in alarms && chan[i].src == FromTimer(alarms[id]) {
      assert WellSent(chan[i], owners, alarms);
    }
    forall t | t in atArmed ensures id in alarms && t == alarms[id] { assert WellArmed(armed[t].ev, t, alarms); }
    forall t | t in atFiring ensures id in alarms && t == alarms[id] { assert WellArmed(firing[t].ev, t, alarms); }
    if id !in alarms {
      NoCopies(chan, ev);
      assert atArmed == {} && atFiring == {};
    } else {
      var t := alarms[id];
      assert Awaited(id, t, armed, firing, chan);
      if t in armed {
        NoCopies(chan, ev);
        assert atArmed == {t} && atFiring == {};
      } else if t in firing {
        NoCopies(chan, ev);
        assert atArmed == {} && atFiring == {t};
      } else {
        assert atArmed == {} && atFiring == {};
        var k: int :| 0 <= k < |chan| && chan[k] == Message(ev, FromTimer(t));
        OneCopy(chan, ev, k);
      }
    }
  }

  /** In every state of every run: running, retrying and claimed ids are matched one to one with live
      workers, undelivered exits and pending timers.  No issue has two workers, no claim is stuck
      without a wake-up, no wake-up is stale. */
  lemma ExactlyOneWakeup(cfg: Config, template: string, queued: seq<Event>, steps: seq<Step>, id: string)
    requires CanStart(queued) && Legal(Startup(cfg, template, queued), steps)
    ensures var s := Exec(Startup(cfg, template, queued), steps);
      var ev := RetryTimerFired(id);
      && |WorkersFor(s.rt, id)| + Exits(s.rt.chan, id) == (if id in s.running then 1 else 0)
      && |TimersFor(s.rt.armed, ev)| + |TimersFor(s.rt.firing, ev)| + Copies(s.rt.chan, ev) == (if id in s.retry then 1 else 0)
      && (id in s.claimed <==> id in s.running || id in s.retry)
      && !(id in s.running && id in s.retry)
  {
    StartupBooks(cfg, template, queued);
    RunKeepsBooks(Startup(cfg, template, queued), steps);
    var s := Exec(Startup(cfg, template, queued), steps);
    RunningHasOneWorker(s, id);
    RetryingHasOneTimer(s, id);
  }

  /** The nil-entry guards of onAgentUpdate, onWorkerExit and onRetryTimer are never taken in a run,
      and a message always comes from the worker or timer the entry records. */
  lemma NoStaleMessage(s: Orchestration)
    requires BooksOk(s, {}) && s.rt.chan != []
    ensures var m := s.rt.chan[0];
      && (m.ev.AgentUpdate? || m.ev.WorkerExit? ==> m.ev.id in s.running && m.src == FromWorker(s.running[m.ev.id].worker))
      && (m.ev.RetryTimerFired? ==> m.ev.id in s.retry && m.src == FromTimer(s.retry[m.ev.id].timer))
  {
    assert WellSent(s.rt.chan[0], Owners(s.running), Alarms(s.retry));
  }

  // ---------- a cap on workers ----------

  lemma InjectionCard(live: map<nat, string>, owners: map<string, nat>)
    requires forall w :: w in live ==> live[w] in owners && owners[live[w]] == w
    ensures |live| <= |owners|
    decreases |live|
  {
    if w :| w in live {
      var rest := live - {w};
      var others := owners - {live[w]};
      assert rest.Keys == live.Keys - {w} && others.Keys == owners.Keys - {live[w]};
      InjectionCard(rest, others);
      KeysCard(live); KeysCard(rest); KeysCard(owners); KeysCard(others);
    }
  }

  /** There are never more worker goroutines than running entries. */
  lemma WorkersBounded(s: Orchestration)
    requires BooksOk(s, {})
    ensures |s.rt.live| <= |s.running|
  {
    var owners := Owners(s.running);
    InjectionCard(s.rt.live, owners);
    KeysCard(owners);
    KeysCard(s.running);
    assert owners.Keys == s.running.Keys;
  }
}
