/** A running session over a whole run: it is what its own worker's messages, as they were delivered, make
    of a new one, field by field. */
module Sessions {
  import opened Domain
  import opened State
  import opened Handlers
  import opened System
  import opened Wakeups
  import opened Books
  import opened Liveness
  import opened Entries
  import Reports

  // ---------- what was told ----------

  /** What a step delivers from worker w. */
  function ToldIn(s: Orchestration, step: Step, w: nat): seq<AgentEvent> {
    if step.Deliver? && s.rt.chan != [] && s.rt.chan[0].src == FromWorker(w) && s.rt.chan[0].ev.AgentUpdate?
    then [s.rt.chan[0].ev.msg] else []
  }

  /** The messages delivered from worker w in a run, in order. */
  function Told(s: Orchestration, steps: seq<Step>, w: nat): seq<AgentEvent>
    requires Legal(s, steps)
    decreases |steps|
  {
    if steps == [] then [] else ToldIn(s, steps[0], w) + Told(Apply(s, steps[0]), steps[1..], w)
  }

  /** What messages make of a new session. */
  function SessionFrom(msgs: seq<AgentEvent>): Session {
    if msgs == [] then NewSession else UpdateSession(SessionFrom(msgs[..|msgs| - 1]), msgs[|msgs| - 1])
  }

  lemma SessionNext(msgs: seq<AgentEvent>, m: AgentEvent)
    ensures SessionFrom(msgs + [m]) == UpdateSession(SessionFrom(msgs), m)
  {
    assert (msgs + [m])[..|msgs|] == msgs;
  }

  // ---------- one step ----------

  /** Each running session is what its worker has told; unused workers have told nothing. */
  ghost predicate SessionsOk(s: Orchestration, told: nat -> seq<AgentEvent>) {
    && (forall id :: id in s.running ==> s.running[id].session == SessionFrom(told(s.running[id].worker)))
    && (forall w :: w >= s.rt.nextWorker ==> told(w) == [])
  }

  function Telling(told: nat -> seq<AgentEvent>, s: Orchestration, step: Step): nat -> seq<AgentEvent> {
    (w: nat) => told(w) + ToldIn(s, step, w)
  }

  /** A step that delivers no agent update. */
  lemma OtherStep(s: Orchestration, step: Step, told: nat -> seq<AgentEvent>)
    requires BooksOk(s, {}) && Enabled(s, step) && SessionsOk(s, told)
    requires step.Deliver? ==> !s.rt.chan[0].ev.AgentUpdate?
    ensures SessionsOk(Apply(s, step), Telling(told, s, step))
  {
    hide BooksOk, Handle, SessionFrom, SessionsOk;
    var s', told' := Apply(s, step), Telling(told, s, step);
    forall w: nat
      ensures told'(w) == told(w)
    {
      assert told(w) + [] == told(w);
    }
    BooksNumbered(s);
    if step.Deliver? {
      HandleDescends(Dequeue(s), s.rt.chan[0].ev, step.input);
      SameSessions(s, Dequeue(s), told, told');
      SessionsDescend(Dequeue(s), s', told');
    } else {
      SameSessions(s, s', told, told');
    }
  }

  lemma SameSessions(s: Orchestration, s': Orchestration, told: nat -> seq<AgentEvent>, told': nat -> seq<AgentEvent>)
    requires SessionsOk(s, told) && s'.running == s.running && s'.rt.nextWorker == s.rt.nextWorker
    requires forall w: nat :: told'(w) == told(w)
    ensures SessionsOk(s', told')
  {
    hide SessionFrom;
  }

  lemma SessionsDescend(s: Orchestration, s': Orchestration, told: nat -> seq<AgentEvent>)
    requires SessionsOk(s, told) && Descends(s, s')
    ensures SessionsOk(s', told)
  {
    assert SessionFrom([]) == NewSession;
    hide SessionFrom;
  }

  /** The delivery of an agent update. */
  lemma UpdateStep(s: Orchestration, step: Step, told: nat -> seq<AgentEvent>)
    requires BooksOk(s, {}) && Enabled(s, step) && SessionsOk(s, told) && step.Deliver? && s.rt.chan[0].ev.AgentUpdate?
    ensures SessionsOk(Apply(s, step), Telling(told, s, step))
  {
    hide BooksOk, SessionsOk, OnAgentUpdate, ToldIn, UpdateSession;
    var AgentUpdate(id, m) := s.rt.chan[0].ev;
    NoStaleMessage(s);
    BooksNumbered(s);
    OwnWorker(s);
    ToldBy(s, step, id, m);
    UpdatedSession(s, id, m);
    var s' := OnAgentUpdate(Dequeue(s), id, m);
    assert Apply(s, step) == s';
    SessionMoved(s, s', id, m, told, Telling(told, s, step));
  }

  lemma OwnWorker(s: Orchestration)
    requires BooksOk(s, {})
    ensures forall a, b :: a in s.running && b in s.running && a != b ==> s.running[a].worker != s.running[b].worker
  {
    hide ChannelOk, TimersOk, FlagsOk, ClaimsOk;
    assert forall id :: id in s.running ==> id in Owners(s.running) && Owners(s.running)[id] == s.running[id].worker;
  }

  lemma ToldBy(s: Orchestration, step: Step, id: string, m: AgentEvent)
    requires step.Deliver? && s.rt.chan != [] && id in s.running && s.rt.chan[0] == Message(AgentUpdate(id, m), FromWorker(s.running[id].worker))
    ensures forall w: nat :: ToldIn(s, step, w) == if w == s.running[id].worker then [m] else []
  {}

  /** An agent update changes the session of its own entry, the totals by its usage and the rate limits. */
  lemma UpdatedSession(s: Orchestration, id: string, m: AgentEvent)
    requires s.rt.chan != [] && id in s.running
    ensures var s' := OnAgentUpdate(Dequeue(s), id, m);
      && s'.rt.nextWorker == s.rt.nextWorker && s'.running.Keys == s.running.Keys
      && (forall k :: k in s.running && k != id ==> s'.running[k] == s.running[k])
      && s'.running[id] == s.running[id].(session := UpdateSession(s.running[id].session, m))
      && s'.totals == (if m.usage.Some? then s.totals.Plus(m.usage.value) else s.totals)
      && s'.rateLimits == (if m.rateLimits.Some? then m.rateLimits else s.rateLimits)
      && s' == s.(running := s'.running, totals := s'.totals, rateLimits := s'.rateLimits, rt := s'.rt)
  {
    hide UpdateSession, Usage.Plus;
  }

  lemma SessionMoved(s: Orchestration, s': Orchestration, id: string, m: AgentEvent, told: nat -> seq<AgentEvent>,
                     told': nat -> seq<AgentEvent>)
    requires SessionsOk(s, told) && id in s.running && s.running[id].worker < s.rt.nextWorker
    requires forall k :: k in s.running && k != id ==> s.running[k].worker != s.running[id].worker
    requires forall w: nat :: told'(w) == told(w) + if w == s.running[id].worker then [m] else []
    requires s'.rt.nextWorker == s.rt.nextWorker && s'.running.Keys == s.running.Keys
    requires forall k :: k in s.running && k != id ==> s'.running[k] == s.running[k]
    requires s'.running[id] == s.running[id].(session := UpdateSession(s.running[id].session, m))
    ensures SessionsOk(s', told')
  {
    var own := s.running[id].worker;
    SessionNext(told(own), m);
    hide SessionFrom, UpdateSession;
    forall w: nat | w != own
      ensures told'(w) == told(w)
    {
      assert told(w) + [] == told(w);
    }
  }

  // ---------- runs ----------

  lemma {:induction false} RunSessions(s: Orchestration, steps: seq<Step>, told: nat -> seq<AgentEvent>)
    requires BooksOk(s, {}) && Legal(s, steps) && SessionsOk(s, told)
    ensures SessionsOk(Exec(s, steps), (w: nat) => told(w) + Told(s, steps, w))
    decreases |steps|
  {
    hide BooksOk, SessionsOk, Enabled, Apply, ToldIn;
    var total := (w: nat) => told(w) + Told(s, steps, w);
    if steps == [] {
      forall w: nat
        ensures total(w) == told(w)
      {
        assert told(w) + [] == told(w);
      }
      SameSessions(s, s, told, total);
    } else {
      var step, next := steps[0], Apply(s, steps[0]);
      var told' := Telling(told, s, step);
      StepKeepsBooks(s, step);
      StepSessions(s, step, told);
      RunSessions(next, steps[1..], told');
      var rest := (w: nat) => told'(w) + Told(next, steps[1..], w);
      forall w: nat
        ensures total(w) == rest(w)
      {
        assert told(w) + (ToldIn(s, step, w) + Told(next, steps[1..], w)) == told(w) + ToldIn(s, step, w) + Told(next, steps[1..], w);
      }
      SameSessions(Exec(s, steps), Exec(s, steps), rest, total);
    }
  }

  lemma StepSessions(s: Orchestration, step: Step, told: nat -> seq<AgentEvent>)
    requires BooksOk(s, {}) && Enabled(s, step) && SessionsOk(s, told)
    ensures SessionsOk(Apply(s, step), Telling(told, s, step))
  {
    hide BooksOk, SessionsOk, Apply;
    if step.Deliver? && s.rt.chan[0].ev.AgentUpdate? { UpdateStep(s, step, told); } else { OtherStep(s, step, told); }
  }

  /** In every state of every run a running session is made by the messages delivered from its own worker,
      and by none from a worker that served the issue before. */
  lemma SessionIsTold(cfg: Config, template: string, queued: seq<Event>, steps: seq<Step>, id: string)
    requires CanStart(queued) && Legal(Startup(cfg, template, queued), steps)
    requires id in Exec(Startup(cfg, template, queued), steps).running
    ensures var s0 := Startup(cfg, template, queued);
      var e := Exec(s0, steps).running[id];
      e.session == SessionFrom(Told(s0, steps, e.worker))
  {
    hide BooksOk, SessionFrom, Told, Exec, Legal;
    var s0 := Startup(cfg, template, queued);
    var nothing := (w: nat) => [];
    StartupBooks(cfg, template, queued);
    assert SessionsOk(s0, nothing);
    RunSessions(s0, steps, nothing);
    var w := Exec(s0, steps).running[id].worker;
    assert [] + Told(s0, steps, w) == Told(s0, steps, w);
  }

  // ---------- field by field ----------

  /** What the last of the messages that say something (pick) says; `otherwise` if none does. */
  function LastSaid<T>(msgs: seq<AgentEvent>, pick: AgentEvent -> Option<T>, otherwise: T): T {
    if msgs == [] then otherwise
    else if pick(msgs[|msgs| - 1]).Some? then pick(msgs[|msgs| - 1]).value
    else LastSaid(msgs[..|msgs| - 1], pick, otherwise)
  }

  /** The highest turn number that was told. */
  function HighestTurn(msgs: seq<AgentEvent>): int {
    if msgs == [] then 0
    else
      var most, last := HighestTurn(msgs[..|msgs| - 1]), msgs[|msgs| - 1];
      if last.turnId != "" && last.turnNumber.Some? && last.turnNumber.value > most then last.turnNumber.value else most
  }

  /** One activity for each message with a text; step usage is shown there and nowhere else. */
  function Activities(msgs: seq<AgentEvent>): seq<Activity> {
    if msgs == [] then []
    else
      var most, m := Activities(msgs[..|msgs| - 1]), msgs[|msgs| - 1];
      if m.message == "" then most
      else
        most + [Activity(m.timestamp, m.kind, m.turnId, m.message, m.detail,
                         if m.stepUsage.Some? then m.stepUsage.value.input else 0,
                         if m.stepUsage.Some? then m.stepUsage.value.output else 0)]
  }

  function Newest(acts: seq<Activity>): seq<Activity> { if |acts| <= 50 then acts else acts[|acts| - 50..] }

  lemma NewestNext(acts: seq<Activity>, act: Activity)
    ensures AppendActivity(Newest(acts), act) == Newest(acts + [act])
  {
    var kept, all := Newest(acts) + [act], acts + [act];
    if |acts| > 50 {
      assert kept[1..] == all[|all| - 50..];
    } else if |acts| == 50 {
      assert kept == all;
    }
  }

  const TIME: AgentEvent -> Option<Option<Time>> := (m: AgentEvent) => Some(Some(m.timestamp))
  const KIND: AgentEvent -> Option<Option<string>> := (m: AgentEvent) => Some(Some(m.kind))
  const TEXT: AgentEvent -> Option<string> := (m: AgentEvent) => if m.message != "" then Some(m.message) else None
  const ID: AgentEvent -> Option<string> :=
    (m: AgentEvent) => if m.sessionId != "" && m.sessionId != "pending" then Some(m.sessionId) else None
  const TURN: AgentEvent -> Option<string> := (m: AgentEvent) => if m.turnId != "" then Some(m.turnId) else None
  const PROCESS: AgentEvent -> Option<Option<string>> := (m: AgentEvent) => if m.pid.Some? then Some(m.pid) else None
  const USAGE: AgentEvent -> Option<Usage> := (m: AgentEvent) => m.usage

  /** Each field of a session in terms of the messages: when and what was heard last; the last text,
      session id, turn id, process and usage there was; the highest turn; the sum of all usage; and the
      newest fifty activities, oldest first. */
  ghost predicate MadeBy(e: Session, msgs: seq<AgentEvent>) {
    && e.lastTimestamp == LastSaid(msgs, TIME, None) && e.lastEvent == LastSaid(msgs, KIND, None)
    && e.lastMessage == Truncate(LastSaid(msgs, TEXT, ""))
    && e.sessionId == LastSaid(msgs, ID, "") && e.threadId == e.sessionId
    && e.turnId == LastSaid(msgs, TURN, "") && e.turnCount == HighestTurn(msgs)
    && e.pid == LastSaid(msgs, PROCESS, None)
    && e.lastReported == LastSaid(msgs, USAGE, NoUsage) && e.tokens == Reports.UsageTotal(msgs)
    && e.activity == Newest(Activities(msgs))
  }

  lemma {:induction false} SessionIsMade(msgs: seq<AgentEvent>)
    ensures MadeBy(SessionFrom(msgs), msgs)
  {
    hide UpdateSession, MadeBy;
    if msgs == [] {
      NewIsMade();
    } else {
      var most, last := msgs[..|msgs| - 1], msgs[|msgs| - 1];
      SessionIsMade(most);
      UpdateMakes(SessionFrom(most), most, last, msgs);
    }
  }

  lemma NewIsMade()
    ensures MadeBy(NewSession, [])
  {
    assert Truncate("") == "";
  }

  lemma SaidNext<T>(msgs: seq<AgentEvent>, pick: AgentEvent -> Option<T>, otherwise: T)
    requires msgs != []
    ensures var most, m := msgs[..|msgs| - 1], msgs[|msgs| - 1];
      LastSaid(msgs, pick, otherwise) == if pick(m).Some? then pick(m).value else LastSaid(most, pick, otherwise)
  {}

  /** What one message does to each field. */
  lemma UpdateFields(e: Session, m: AgentEvent)
    ensures var u := UpdateSession(e, m);
      && u.lastTimestamp == Some(m.timestamp) && u.lastEvent == Some(m.kind)
      && u.lastMessage == (if m.message == "" then e.lastMessage else Truncate(m.message))
      && u.activity == (if m.message == "" then e.activity else AppendActivity(e.activity, ActivityOf(m)))
      && u.sessionId == (if ID(m).Some? then ID(m).value else e.sessionId)
      && u.threadId == (if ID(m).Some? then ID(m).value else e.threadId)
      && u.turnId == (if m.turnId != "" then m.turnId else e.turnId)
      && u.turnCount == (if m.turnId != "" && m.turnNumber.Some? && m.turnNumber.value > e.turnCount then m.turnNumber.value else e.turnCount)
      && u.pid == (if m.pid.Some? then m.pid else e.pid)
      && u.lastReported == (if m.usage.Some? then m.usage.value else e.lastReported)
      && u.tokens == (if m.usage.Some? then e.tokens.Plus(m.usage.value) else e.tokens)
  {
    hide Truncate, AppendActivity, ActivityOf, Usage.Plus;
  }

  lemma ActivityIs(m: AgentEvent)
    ensures ActivityOf(m) ==
      Activity(m.timestamp, m.kind, m.turnId, m.message, m.detail,
               if m.stepUsage.Some? then m.stepUsage.value.input else 0,
               if m.stepUsage.Some? then m.stepUsage.value.output else 0)
  {}

  lemma UpdateMakes(e: Session, most: seq<AgentEvent>, m: AgentEvent, msgs: seq<AgentEvent>)
    requires msgs == most + [m] && MadeBy(e, most)
    ensures MadeBy(UpdateSession(e, m), msgs)
  {
    hide LastSaid, Truncate, Newest, AppendActivity, UpdateSession, ActivityOf, Usage.Plus;
    assert msgs[..|msgs| - 1] == most && msgs[|msgs| - 1] == m;
    UpdateFields(e, m);
    ActivityIs(m);
    NewestNext(Activities(most), ActivityOf(m));
    SaidNext(msgs, TIME, None);
    SaidNext(msgs, KIND, None);
    SaidNext(msgs, TEXT, "");
    SaidNext(msgs, ID, "");
    SaidNext(msgs, TURN, "");
    SaidNext(msgs, PROCESS, None);
    SaidNext(msgs, USAGE, NoUsage);
  }

  /** A kept text is the message without its outer blanks, cut after 500 bytes. */
  lemma ShortText(pre: string, text: string, post: string)
    requires AllBlank(pre) && AllBlank(post)
    requires text != [] ==> text[0] !in BLANKS && text[|text| - 1] !in BLANKS
    ensures Truncate(pre + text + post) ==
      if |text| <= 500 then text else text[..500] + "\U{e2}\U{80}\U{a6}(truncated)"
  {
    Trimmed(pre, text, post);
    hide TrimSpace;
  }

  /** In every state of every run each field of a running session is what its own worker's messages, in
      the order of their delivery, make it. */
  lemma SessionFields(cfg: Config, template: string, queued: seq<Event>, steps: seq<Step>, id: string)
    requires CanStart(queued) && Legal(Startup(cfg, template, queued), steps)
    requires id in Exec(Startup(cfg, template, queued), steps).running
    ensures var s0 := Startup(cfg, template, queued);
      var e := Exec(s0, steps).running[id];
      MadeBy(e.session, Told(s0, steps, e.worker))
  {
    hide *;
    SessionIsTold(cfg, template, queued, steps, id);
    SessionIsMade(Told(Startup(cfg, template, queued), steps, Exec(Startup(cfg, template, queued), steps).running[id].worker));
  }
}
