/** The link between the orchestrator's books and what is out there: which worker or timer stands
    behind each running or retrying issue.  One lemma for each elementary change: a worker is spawned, posts
    or exits; a message is taken; a timer is armed, fires or posts; something else is posted. */
module Wakeups {
  import opened Domain
  import opened State

  function Owners(running: map<string, Entry>): map<string, nat> { map id | id in running :: running[id].worker }

  function Alarms(retry: map<string, Retry>): map<string, nat> { map id | id in retry :: retry[id].timer }

  predicate IsExitOf(m: Message, w: nat) { m.ev.WorkerExit? && m.src == FromWorker(w) }

  ghost predicate ExitPending(chan: seq<Message>, w: nat) {
    exists i :: 0 <= i < |chan| && IsExitOf(chan[i], w)
  }

  /** Every message names the kind of sender that sends it, and a worker's message names the issue
      whose running entry records that worker. */
  ghost predicate WellSent(m: Message, owners: map<string, nat>, alarms: map<string, nat>) {
    match m.src
    case FromWorker(w) => (m.ev.AgentUpdate? || m.ev.WorkerExit?) && m.ev.id in owners && owners[m.ev.id] == w
    case FromTimer(t) => WellArmed(m.ev, t, alarms)
    case External => m.ev.ReloadConfig? || m.ev.RefreshRequest? || m.ev.SnapshotRequest?
  }

  /** A timer posts ticks, or the wake-up of the retry entry that holds its handle. */
  ghost predicate WellArmed(ev: Event, t: nat, alarms: map<string, nat>) {
    ev.TickEvent? || (ev.RetryTimerFired? && ev.id in alarms && alarms[ev.id] == t)
  }

  ghost predicate ChannelOk(chan: seq<Message>, owners: map<string, nat>, alarms: map<string, nat>) {
    && (forall i :: 0 <= i < |chan| ==> WellSent(chan[i], owners, alarms))
    // a worker's exit is its last message
    && (forall i, j :: 0 <= i < j < |chan| && chan[i].ev.WorkerExit? ==> chan[j].src != chan[i].src)
    // a timer posts once
    && (forall i, j :: 0 <= i < j < |chan| && chan[i].src.FromTimer? ==> chan[j].src != chan[i].src)
  }

  ghost predicate WorkersOk(owners: map<string, nat>, live: map<nat, string>, nextWorker: nat, chan: seq<Message>) {
    && (forall w :: w in live ==> w < nextWorker && live[w] in owners && owners[live[w]] == w)
    && (forall id :: id in owners ==> owners[id] < nextWorker)
    && (forall a, b :: a in owners && b in owners && owners[a] == owners[b] ==> a == b)
    // a running entry's worker is alive or has its exit on the way, never both
    && (forall id :: id in owners ==> (owners[id] in live) != ExitPending(chan, owners[id]))
  }

  ghost predicate TimersOk(alarms: map<string, nat>, armed: map<nat, Timer>, firing: map<nat, Timer>, nextTimer: nat,
                           tickTimer: Option<nat>, chan: seq<Message>) {
    && (forall t :: t in armed ==> t < nextTimer && WellArmed(armed[t].ev, t, alarms))
    && (forall t :: t in firing ==> t < nextTimer && WellArmed(firing[t].ev, t, alarms))
    && (forall i :: 0 <= i < |chan| && chan[i].src.FromTimer? ==>
          chan[i].src.timer < nextTimer && chan[i].src.timer !in armed && chan[i].src.timer !in firing)
    && armed.Keys !! firing.Keys
    && (forall a, b :: a in alarms && b in alarms && alarms[a] == alarms[b] ==> a == b)
    // a retry entry's timer is armed, firing or posted, as that entry's wake-up
    && (forall id :: id in alarms ==> Awaited(id, alarms[id], armed, firing, chan) && alarms[id] < nextTimer)
    // the tick timer is a tick timer, and the only armed one
    && (tickTimer.Some? ==> tickTimer.value < nextTimer && (tickTimer.value in armed ==> armed[tickTimer.value].ev.TickEvent?))
    && (forall t :: t in armed && armed[t].ev.TickEvent? ==> tickTimer == Some(t))
  }

  ghost predicate Awaited(id: string, t: nat, armed: map<nat, Timer>, firing: map<nat, Timer>, chan: seq<Message>) {
    || (t in armed && armed[t].ev == RetryTimerFired(id))
    || (t in firing && firing[t].ev == RetryTimerFired(id))
    || WakeupPosted(chan, id, t)
  }

  ghost predicate WakeupPosted(chan: seq<Message>, id: string, t: nat) {
    exists i :: 0 <= i < |chan| && chan[i] == Message(RetryTimerFired(id), FromTimer(t))
  }

  // ---------- the channel ----------

  lemma TailPending(chan: seq<Message>, w: nat)
    requires chan != []
    ensures ExitPending(chan, w) <==> IsExitOf(chan[0], w) || ExitPending(chan[1..], w)
  {
    if ExitPending(chan, w) && !IsExitOf(chan[0], w) {
      var i :| 0 <= i < |chan| && IsExitOf(chan[i], w);
      assert IsExitOf(chan[1..][i - 1], w);
    }
    if ExitPending(chan[1..], w) {
      var i :| 0 <= i < |chan[1..]| && IsExitOf(chan[1..][i], w);
      assert IsExitOf(chan[i + 1], w);
    }
  }

  lemma TailWakeup(chan: seq<Message>, id: string, t: nat)
    requires chan != []
    ensures WakeupPosted(chan, id, t) <==>
      chan[0] == Message(RetryTimerFired(id), FromTimer(t)) || WakeupPosted(chan[1..], id, t)
  {
    if WakeupPosted(chan, id, t) && chan[0] != Message(RetryTimerFired(id), FromTimer(t)) {
      var i :| 0 <= i < |chan| && chan[i] == Message(RetryTimerFired(id), FromTimer(t));
      assert chan[1..][i - 1] == Message(RetryTimerFired(id), FromTimer(t));
    }
    if WakeupPosted(chan[1..], id, t) {
      var i :| 0 <= i < |chan[1..]| && chan[1..][i] == Message(RetryTimerFired(id), FromTimer(t));
      assert chan[i + 1] == Message(RetryTimerFired(id), FromTimer(t));
    }
  }

  lemma SnocPending(chan: seq<Message>, m: Message, w: nat)
    ensures ExitPending(chan + [m], w) <==> ExitPending(chan, w) || IsExitOf(m, w)
  {
    if ExitPending(chan, w) {
      var i :| 0 <= i < |chan| && IsExitOf(chan[i], w);
      assert IsExitOf((chan + [m])[i], w);
    }
    assert (chan + [m])[|chan|] == m;
  }

  lemma SnocWakeup(chan: seq<Message>, m: Message, id: string, t: nat)
    ensures WakeupPosted(chan + [m], id, t) <==> WakeupPosted(chan, id, t) || m == Message(RetryTimerFired(id), FromTimer(t))
  {
    if WakeupPosted(chan, id, t) {
      var i :| 0 <= i < |chan| && chan[i] == Message(RetryTimerFired(id), FromTimer(t));
      assert (chan + [m])[i] == Message(RetryTimerFired(id), FromTimer(t));
    }
    assert (chan + [m])[|chan|] == m;
  }

  // ---------- workers ----------

  lemma WorkerSpawned(owners: map<string, nat>, live: map<nat, string>, n: nat, chan: seq<Message>,
                      alarms: map<string, nat>, id: string)
    requires WorkersOk(owners, live, n, chan) && ChannelOk(chan, owners, alarms) && id !in owners
    ensures WorkersOk(owners[id := n], live[n := id], n + 1, chan) && ChannelOk(chan, owners[id := n], alarms)
  {
    hide ChannelOk, WorkersOk;
    NewcomerQuiet(owners, live, n, chan, alarms);
    SpawnedWorker(owners, live, n, chan, id);
    SpawnedChannel(owners, n, chan, alarms, id);
  }

  lemma NewcomerQuiet(owners: map<string, nat>, live: map<nat, string>, n: nat, chan: seq<Message>, alarms: map<string, nat>)
    requires WorkersOk(owners, live, n, chan) && ChannelOk(chan, owners, alarms)
    ensures !ExitPending(chan, n)
  {
    forall i | 0 <= i < |chan| ensures !IsExitOf(chan[i], n) { assert WellSent(chan[i], owners, alarms); }
  }

  lemma SpawnedWorker(owners: map<string, nat>, live: map<nat, string>, n: nat, chan: seq<Message>, id: string)
    requires WorkersOk(owners, live, n, chan) && !ExitPending(chan, n) && id !in owners
    ensures WorkersOk(owners[id := n], live[n := id], n + 1, chan)
  {
    hide ExitPending;
  }

  lemma SpawnedChannel(owners: map<string, nat>, n: nat, chan: seq<Message>, alarms: map<string, nat>, id: string)
    requires ChannelOk(chan, owners, alarms) && id !in owners
    ensures ChannelOk(chan, owners[id := n], alarms)
  {
    forall i | 0 <= i < |chan| ensures WellSent(chan[i], owners[id := n], alarms) { assert WellSent(chan[i], owners, alarms); }
  }

  lemma WorkerEmitted(owners: map<string, nat>, live: map<nat, string>, n: nat, chan: seq<Message>,
                      alarms: map<string, nat>, w: nat, msg: AgentEvent)
    requires WorkersOk(owners, live, n, chan) && ChannelOk(chan, owners, alarms) && w in live
    ensures var chan' := chan + [Message(AgentUpdate(live[w], msg), FromWorker(w))];
            WorkersOk(owners, live, n, chan') && ChannelOk(chan', owners, alarms)
  {
    var m := Message(AgentUpdate(live[w], msg), FromWorker(w));
    forall v ensures ExitPending(chan + [m], v) == ExitPending(chan, v) { SnocPending(chan, m, v); }
    forall i | 0 <= i < |chan| && chan[i].ev.WorkerExit? ensures chan[i].src != m.src {
      assert WellSent(chan[i], owners, alarms);
      assert IsExitOf(chan[i], w) ==> ExitPending(chan, w);
    }
  }

  lemma WorkerExited(owners: map<string, nat>, live: map<nat, string>, n: nat, chan: seq<Message>,
                     alarms: map<string, nat>, w: nat, reason: ExitReason, err: Option<string>)
    requires WorkersOk(owners, live, n, chan) && ChannelOk(chan, owners, alarms) && w in live
    ensures var chan' := chan + [Message(WorkerExit(live[w], reason, err), FromWorker(w))];
            WorkersOk(owners, live - {w}, n, chan') && ChannelOk(chan', owners, alarms)
  {
    var m := Message(WorkerExit(live[w], reason, err), FromWorker(w));
    forall v ensures ExitPending(chan + [m], v) == (ExitPending(chan, v) || v == w) { SnocPending(chan, m, v); }
    forall i | 0 <= i < |chan| && chan[i].ev.WorkerExit? ensures chan[i].src != m.src {
      assert WellSent(chan[i], owners, alarms);
      assert IsExitOf(chan[i], w) ==> ExitPending(chan, w);
    }
  }

  /** Taking a message that is no exit leaves every pending exit pending. */
  lemma MessageTaken(owners: map<string, nat>, live: map<nat, string>, n: nat, chan: seq<Message>, alarms: map<string, nat>)
    requires WorkersOk(owners, live, n, chan) && ChannelOk(chan, owners, alarms)
    requires chan != [] && !chan[0].ev.WorkerExit?
    ensures WorkersOk(owners, live, n, chan[1..]) && ChannelOk(chan[1..], owners, alarms)
  {
    forall v ensures ExitPending(chan[1..], v) == ExitPending(chan, v) { TailPending(chan, v); }
  }

  /** Taking an exit ends the entry of exactly the worker that sent it. */
  lemma ExitTaken(owners: map<string, nat>, live: map<nat, string>, n: nat, chan: seq<Message>, alarms: map<string, nat>)
    requires WorkersOk(owners, live, n, chan) && ChannelOk(chan, owners, alarms)
    requires chan != [] && chan[0].ev.WorkerExit?
    ensures var id := chan[0].ev.id;
            && id in owners && chan[0].src == FromWorker(owners[id]) && owners[id] !in live
            && WorkersOk(owners - {id}, live, n, chan[1..]) && ChannelOk(chan[1..], owners - {id}, alarms)
  {
    var id := chan[0].ev.id;
    assert WellSent(chan[0], owners, alarms);
    var w := owners[id];
    assert IsExitOf(chan[0], w);
    forall v | v != w ensures ExitPending(chan[1..], v) == ExitPending(chan, v) { TailPending(chan, v); }
    forall i | 0 <= i < |chan[1..]| ensures WellSent(chan[1..][i], owners - {id}, alarms) {
      assert WellSent(chan[i + 1], owners, alarms);
      assert chan[i + 1].src != chan[0].src;
    }
  }

  // ---------- timers ----------

  lemma RetryArmed(alarms: map<string, nat>, armed: map<nat, Timer>, firing: map<nat, Timer>, n: nat, tick: Option<nat>,
                   chan: seq<Message>, owners: map<string, nat>, id: string, delay: int)
    requires TimersOk(alarms, armed, firing, n, tick, chan) && ChannelOk(chan, owners, alarms) && id !in alarms
    ensures TimersOk(alarms[id := n], armed[n := Timer(RetryTimerFired(id), delay)], firing, n + 1, tick, chan)
    ensures ChannelOk(chan, owners, alarms[id := n])
  {
    var alarms', armed' := alarms[id := n], armed[n := Timer(RetryTimerFired(id), delay)];
    forall i | 0 <= i < |chan| ensures WellSent(chan[i], owners, alarms') {
      assert WellSent(chan[i], owners, alarms);
    }
    forall t | t in armed' ensures t < n + 1 && WellArmed(armed'[t].ev, t, alarms') {
      if t != n { assert WellArmed(armed[t].ev, t, alarms); }
    }
    forall t | t in firing ensures WellArmed(firing[t].ev, t, alarms') {
      assert WellArmed(firing[t].ev, t, alarms);
    }
    forall k | k in alarms' ensures Awaited(k, alarms'[k], armed', firing, chan) && alarms'[k] < n + 1 {
      if k != id { assert Awaited(k, alarms[k], armed, firing, chan); }
    }
  }

  /** scheduleTick stops the armed tick timer, if any, and arms the new one; no wake-up is touched. */
  lemma TickArmed(alarms: map<string, nat>, armed: map<nat, Timer>, firing: map<nat, Timer>, n: nat, tick: Option<nat>,
                  chan: seq<Message>, delay: int)
    requires TimersOk(alarms, armed, firing, n, tick, chan)
    ensures var stopped := if tick.Some? then armed - {tick.value} else armed;
            TimersOk(alarms, stopped[n := Timer(TickEvent, delay)], firing, n + 1, Some(n), chan)
  {
    var stopped := if tick.Some? then armed - {tick.value} else armed;
    var armed' := stopped[n := Timer(TickEvent, delay)];
    forall t | t in armed' ensures t < n + 1 && WellArmed(armed'[t].ev, t, alarms) {
      if t != n { assert WellArmed(armed[t].ev, t, alarms); }
    }
    forall k | k in alarms ensures Awaited(k, alarms[k], armed', firing, chan) && alarms[k] < n + 1 {
      assert Awaited(k, alarms[k], armed, firing, chan);
    }
  }

  lemma TimerFired(alarms: map<string, nat>, armed: map<nat, Timer>, firing: map<nat, Timer>, n: nat, tick: Option<nat>,
                   chan: seq<Message>, t: nat)
    requires TimersOk(alarms, armed, firing, n, tick, chan) && t in armed
    ensures TimersOk(alarms, armed - {t}, firing[t := armed[t]], n, tick, chan)
  {
    var armed', firing' := armed - {t}, firing[t := armed[t]];
    forall k | k in alarms ensures Awaited(k, alarms[k], armed', firing', chan) {
      assert Awaited(k, alarms[k], armed, firing, chan);
    }
  }

  lemma TimerPosted(alarms: map<string, nat>, armed: map<nat, Timer>, firing: map<nat, Timer>, n: nat, tick: Option<nat>,
                    chan: seq<Message>, owners: map<string, nat>, t: nat)
    requires TimersOk(alarms, armed, firing, n, tick, chan) && ChannelOk(chan, owners, alarms) && t in firing
    ensures var chan' := chan + [Message(firing[t].ev, FromTimer(t))];
            TimersOk(alarms, armed, firing - {t}, n, tick, chan') && ChannelOk(chan', owners, alarms)
  {
    var m := Message(firing[t].ev, FromTimer(t));
    var chan', firing' := chan + [m], firing - {t};
    assert WellArmed(firing[t].ev, t, alarms);
    assert WellSent(m, owners, alarms);
    forall k | k in alarms ensures Awaited(k, alarms[k], armed, firing', chan') {
      assert Awaited(k, alarms[k], armed, firing, chan);
      SnocWakeup(chan, m, k, alarms[k]);
    }
  }

  /** A message that no timer sent changes nothing about the timers. */
  lemma OtherPosted(alarms: map<string, nat>, armed: map<nat, Timer>, firing: map<nat, Timer>, n: nat, tick: Option<nat>,
                    chan: seq<Message>, m: Message)
    requires TimersOk(alarms, armed, firing, n, tick, chan) && !m.src.FromTimer?
    ensures TimersOk(alarms, armed, firing, n, tick, chan + [m])
  {
    forall k | k in alarms ensures Awaited(k, alarms[k], armed, firing, chan + [m]) {
      assert Awaited(k, alarms[k], armed, firing, chan);
      SnocWakeup(chan, m, k, alarms[k]);
    }
  }

  /** A message that no worker sent changes nothing about the workers. */
  lemma OtherSent(owners: map<string, nat>, live: map<nat, string>, n: nat, chan: seq<Message>, m: Message)
    requires WorkersOk(owners, live, n, chan) && !m.src.FromWorker?
    ensures WorkersOk(owners, live, n, chan + [m])
  {
    forall v ensures ExitPending(chan + [m], v) == ExitPending(chan, v) { SnocPending(chan, m, v); }
  }

  /** Taking a message that is no retry wake-up leaves every wake-up awaited. */
  lemma OtherTaken(alarms: map<string, nat>, armed: map<nat, Timer>, firing: map<nat, Timer>, n: nat, tick: Option<nat>,
                   chan: seq<Message>)
    requires TimersOk(alarms, armed, firing, n, tick, chan) && chan != [] && !chan[0].ev.RetryTimerFired?
    ensures TimersOk(alarms, armed, firing, n, tick, chan[1..])
  {
    forall k | k in alarms ensures Awaited(k, alarms[k], armed, firing, chan[1..]) {
      assert Awaited(k, alarms[k], armed, firing, chan);
      TailWakeup(chan, k, alarms[k]);
    }
  }

  /** Taking a retry wake-up uses up exactly the retry entry whose timer sent it. */
  lemma WakeupTaken(alarms: map<string, nat>, armed: map<nat, Timer>, firing: map<nat, Timer>, n: nat, tick: Option<nat>,
                    chan: seq<Message>, owners: map<string, nat>)
    requires TimersOk(alarms, armed, firing, n, tick, chan) && ChannelOk(chan, owners, alarms)
    requires chan != [] && chan[0].ev.RetryTimerFired?
    ensures var id := chan[0].ev.id;
            && id in alarms && chan[0].src == FromTimer(alarms[id])
            && TimersOk(alarms - {id}, armed, firing, n, tick, chan[1..])
            && ChannelOk(chan[1..], owners, alarms - {id})
  {
    var id := chan[0].ev.id;
    assert WellSent(chan[0], owners, alarms);
    var alarms', tail := alarms - {id}, chan[1..];
    forall i | 0 <= i < |tail| ensures WellSent(tail[i], owners, alarms') {
      assert WellSent(chan[i + 1], owners, alarms);
      assert chan[i + 1].src != chan[0].src;
    }
    forall t | t in armed ensures WellArmed(armed[t].ev, t, alarms') { assert WellArmed(armed[t].ev, t, alarms); }
    forall t | t in firing ensures WellArmed(firing[t].ev, t, alarms') { assert WellArmed(firing[t].ev, t, alarms); }
    forall k | k in alarms' ensures Awaited(k, alarms'[k], armed, firing, tail) {
      assert Awaited(k, alarms[k], armed, firing, chan);
      TailWakeup(chan, k, alarms[k]);
    }
  }
}
