/** The orchestrator among everything that runs beside it: worker goroutines, timers, outside senders
    and one FIFO channel.  A run is a start state and a list of steps; every interleaving, every
    tracker reply and every clock reading is some list of steps.  Runs end before the root context is
    cancelled: from then on post may drop messages. */
module System {
  import opened Domain
  import opened State
  import opened Handlers

  datatype Step =
    | Deliver(input: Input)                        // the loop takes the next message and handles it
    | Emit(worker: nat, msg: AgentEvent)           // a worker posts an agent event
    | Exit(worker: nat, err: Option<string>)       // a worker returns: its last post
    | Fire(timer: nat)                             // an armed timer fires
    | Post(timer: nat)                             // a fired timer's post reaches the channel
    | Send(ev: Event)                              // the watcher, the HTTP server or the status surface posts

  predicate IsExternal(ev: Event) { ev.ReloadConfig? || ev.RefreshRequest? || ev.SnapshotRequest? }

  predicate Enabled(s: Orchestration, step: Step) {
    match step
    case Deliver(_) => s.rt.chan != []
    case Emit(w, _) => w in s.rt.live && |s.rt.chan| < EVENTS_CAPACITY
    case Exit(w, _) => w in s.rt.live && |s.rt.chan| < EVENTS_CAPACITY
    case Fire(t) => t in s.rt.armed
    case Post(t) => t in s.rt.firing && |s.rt.chan| < EVENTS_CAPACITY
    case Send(ev) => IsExternal(ev) && |s.rt.chan| < EVENTS_CAPACITY
  }

  function Enqueue(rt: Runtime, ev: Event, src: Source): Runtime { rt.(chan := rt.chan + [Message(ev, src)]) }

  /** The state with the next message taken off the channel. */
  function Dequeue(s: Orchestration): Orchestration
    requires s.rt.chan != []
  {
    s.(rt := s.rt.(chan := s.rt.chan[1..]))
  }

  function EmitStep(s: Orchestration, w: nat, msg: AgentEvent): Orchestration
    requires w in s.rt.live
  {
    var sent := s.(rt := Enqueue(s.rt, AgentUpdate(s.rt.live[w], msg), FromWorker(w)));
    if msg.usage.Some? then sent.Log(Emitted(w, msg.usage.value)) else sent
  }

  function ExitStep(s: Orchestration, w: nat, err: Option<string>): Orchestration
    requires w in s.rt.live
  {
    var reason := if err.Some? then ExitAbnormal else ExitNormal;
    s.(rt := Enqueue(s.rt.(live := s.rt.live - {w}), WorkerExit(s.rt.live[w], reason, err), FromWorker(w)))
  }

  function FireStep(s: Orchestration, t: nat): Orchestration
    requires t in s.rt.armed
  {
    s.(rt := s.rt.(armed := s.rt.armed - {t}, firing := s.rt.firing[t := s.rt.armed[t]]))
  }

  function PostStep(s: Orchestration, t: nat): Orchestration
    requires t in s.rt.firing
  {
    s.(rt := Enqueue(s.rt.(firing := s.rt.firing - {t}), s.rt.firing[t].ev, FromTimer(t)))
  }

  function Apply(s: Orchestration, step: Step): Orchestration
    requires Enabled(s, step)
  {
    match step
    case Deliver(input) => Handle(Dequeue(s), s.rt.chan[0].ev, input)
    case Emit(w, msg) => EmitStep(s, w, msg)
    case Exit(w, err) => ExitStep(s, w, err)
    case Fire(t) => FireStep(s, t)
    case Post(t) => PostStep(s, t)
    case Send(ev) => s.(rt := Enqueue(s.rt, ev, External))
  }

  /** The state in which Run enters its loop, with whatever outside senders queued before. */
  function Startup(cfg: Config, template: string, queued: seq<Event>): Orchestration {
    var waiting := seq(|queued|, i requires 0 <= i < |queued| => Message(queued[i], External));
    ScheduleTick(
      Orchestration(cfg, template, cfg.pollIntervalMs, cfg.maxConcurrent, map[], {}, map[], {},
                    NoUsage, 0, None, None, FreshRuntime.(chan := waiting), Start),
      0)
  }

  predicate CanStart(queued: seq<Event>) {
    |queued| <= EVENTS_CAPACITY && forall ev | ev in queued :: IsExternal(ev)
  }

  /** The steps can be taken one after the other. */
  predicate Legal(s: Orchestration, steps: seq<Step>)
    decreases |steps|
  {
    steps == [] || (Enabled(s, steps[0]) && Legal(Apply(s, steps[0]), steps[1..]))
  }

  function Exec(s: Orchestration, steps: seq<Step>): Orchestration
    requires Legal(s, steps)
    decreases |steps|
  {
    if steps == [] then s else Exec(Apply(s, steps[0]), steps[1..])
  }
}
