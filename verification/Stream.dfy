/** One Claude turn: the stream automaton of internal/agent/claude (consume in client.go, handleEvent
    in parse.go). */
module Stream {
  import opened Domain
  import opened Shell

  // ---------- inputs ----------

  // What select picks next - a line of stdout, a timer, the end of the context or of the stream - is an
  // input sequence; JSON decoding is an oracle that says what a line parses to.

  /** A decoded JSON value as usageFromMap looks at it. */
  datatype Json = Number(value: real) | Other

  /** A line that parsed.  `summary` and `detail` are what describeMessage makes of its message. */
  datatype Parsed = Parsed(
    kind: string, subtype: string, sessionId: string, isError: Option<bool>, usage: Option<map<string, Json>>,
    summary: string, detail: string, stepUsage: Option<map<string, Json>>, rateLimits: Option<string>)

  datatype Input =
    | CtxDone(deadline: bool)
    | ReadTimer
    | Closed
    | ReadErr
    | Blank
    | Malformed
    | Line(evt: Parsed)

  datatype Code = TurnTimeout | TurnCancelled | ResponseTimeout | TurnFailed | ResponseError | StreamCorruption | ClaudeNotFound

  /** Waiting: consume has not returned yet. */
  datatype Outcome = Waiting | Success(usage: Option<Usage>) | Failure(code: Code)

  const MALFORMED_LIMIT := 10

  // ---------- token counts ----------

  /** Go's int(x): towards zero. */
  function AsInt(v: Json): int {
    if v.Other? then 0 else if v.value >= 0.0 then v.value.Floor else -((-v.value).Floor)
  }

  function Field(m: map<string, Json>, key: string): int { if key in m then AsInt(m[key]) else 0 }

  /** Whatever the map holds, the total is input plus output, and cached input counts as input. */
  function UsageFromMap(m: map<string, Json>): (u: Usage)
    ensures u.Balanced()
    ensures u.output == Field(m, "output_tokens")
    ensures u.input - Field(m, "input_tokens") == Field(m, "cache_read_input_tokens") + Field(m, "cache_creation_input_tokens")
  {
    var input := Field(m, "input_tokens") + Field(m, "cache_read_input_tokens") + Field(m, "cache_creation_input_tokens");
    var output := Field(m, "output_tokens");
    Usage(input, output, input + output)
  }

  function UsageOf(raw: Option<map<string, Json>>): Option<Usage> {
    if raw.Some? then Some(UsageFromMap(raw.value)) else None
  }

  // ---------- results ----------

  predicate PartAt(s: string, part: string, i: nat) { i + |part| <= |s| && s[i..i + |part|] == part }

  predicate Contains(s: string, part: string) { exists i: nat | i <= |s| :: PartAt(s, part, i) }

  predicate IsErrorResult(evt: Parsed) {
    var st := ToLower(evt.subtype);
    evt.isError == Some(true) || (st != "" && st != "success" && Contains(st, "error"))
  }

  /** The two extra tests on the subtype never decide anything. */
  lemma ErrorResultExactly(evt: Parsed)
    ensures IsErrorResult(evt) <==> evt.isError == Some(true) || Contains(ToLower(evt.subtype), "error")
  {
    var st, part := ToLower(evt.subtype), "error";
    if Contains(st, part) {
      var i: nat :| i <= |st| && PartAt(st, part, i);
      assert st[i..i + |part|][0] == 'e' && st[i..i + |part|][1] == 'r';
      assert st[i] == 'e' && st[i + 1] == 'r';
    }
  }

  predicate IsResult(x: Input) { x.Line? && x.evt.kind == "result" }

  /** The line tells the session its id. */
  predicate NamesSession(x: Input) {
    x.Line? && x.evt.sessionId != "" && ((x.evt.kind == "system" && x.evt.subtype == "init") || x.evt.kind == "result")
  }

  // ---------- what decides a turn ----------

  function CountMalformed(inputs: seq<Input>): nat {
    if inputs == [] then 0 else CountMalformed(inputs[..|inputs| - 1]) + (if inputs[|inputs| - 1].Malformed? then 1 else 0)
  }

  predicate NoLine(inputs: seq<Input>) { forall k :: 0 <= k < |inputs| ==> !inputs[k].Line? }

  /** The last input is a malformed line and ends a stretch of at least ten of them without a parsed
      line between; blank lines neither count nor interrupt. */
  predicate Corrupt(inputs: seq<Input>) {
    && inputs != [] && inputs[|inputs| - 1].Malformed?
    && exists j :: 0 <= j < |inputs| && NoLine(inputs[j..]) && CountMalformed(inputs[j..]) >= MALFORMED_LIMIT
  }

  predicate CorruptAt(inputs: seq<Input>, i: nat)
    requires i < |inputs|
  {
    Corrupt(inputs[..i + 1])
  }

  /** inputs[i] ends the turn if nothing before it has; `timed` says whether a first-event timeout is set. */
  predicate Decides(inputs: seq<Input>, i: nat, timed: bool)
    requires i < |inputs|
  {
    match inputs[i]
    case CtxDone(_) => true
    case Closed => true
    case ReadErr => true
    case ReadTimer => timed && NoLine(inputs[..i])
    case Blank => false
    case Malformed => CorruptAt(inputs, i)
    case Line(evt) => evt.kind == "result"
  }

  predicate FirstDecider(inputs: seq<Input>, i: nat, timed: bool) {
    i < |inputs| && Decides(inputs, i, timed) && forall k :: 0 <= k < i ==> !Decides(inputs, k, timed)
  }

  predicate Undecided(inputs: seq<Input>, timed: bool) { forall k :: 0 <= k < |inputs| ==> !Decides(inputs, k, timed) }

  /** What a deciding input makes of the turn. */
  function Verdict(x: Input): Outcome {
    match x
    case CtxDone(deadline) => Failure(if deadline then TurnTimeout else TurnCancelled)
    case Closed => Failure(TurnFailed)
    case ReadErr => Failure(ResponseError)
    case ReadTimer => Failure(ResponseTimeout)
    case Blank => Waiting
    case Malformed => Failure(StreamCorruption)
    case Line(evt) => if IsErrorResult(evt) then Failure(ResponseError) else Success(UsageOf(evt.usage))
  }

  /** How many of the inputs a turn takes: up to and including the first deciding one, or all. */
  function Taken(inputs: seq<Input>, timed: bool): (n: nat)
    ensures n <= |inputs|
    ensures Undecided(inputs, timed) ==> n == |inputs|
    ensures !Undecided(inputs, timed) ==> n > 0 && FirstDecider(inputs, n - 1, timed)
  {
    TakenFrom(inputs, timed, 0)
  }

  function TakenFrom(inputs: seq<Input>, timed: bool, i: nat): (n: nat)
    requires i <= |inputs| && forall k :: 0 <= k < i ==> !Decides(inputs, k, timed)
    ensures n <= |inputs|
    ensures Undecided(inputs, timed) ==> n == |inputs|
    ensures !Undecided(inputs, timed) ==> n > 0 && FirstDecider(inputs, n - 1, timed)
    decreases |inputs| - i
  {
    if i == |inputs| then i else if Decides(inputs, i, timed) then i + 1 else TakenFrom(inputs, timed, i + 1)
  }

  function OutcomeOf(inputs: seq<Input>, timed: bool): Outcome {
    if Undecided(inputs, timed) then Waiting else Verdict(inputs[Taken(inputs, timed) - 1])
  }

  lemma DecidedAt(inputs: seq<Input>, i: nat, timed: bool)
    requires FirstDecider(inputs, i, timed)
    ensures Taken(inputs, timed) == i + 1 && OutcomeOf(inputs, timed) == Verdict(inputs[i])
  {
    hide Decides, Verdict;
  }

  lemma NothingDecided(inputs: seq<Input>, timed: bool)
    requires Undecided(inputs, timed)
    ensures Taken(inputs, timed) == |inputs| && OutcomeOf(inputs, timed) == Waiting
  {}

  // ---------- what a turn emits ----------

  /** What is fixed during a turn: the session id it starts with, its process, its number, whether a
      first-event timeout is set, and the clock reading at each input. */
  datatype Turn = Turn(session: string, pid: Option<string>, number: nat, timed: bool, clock: nat -> Time)

  function Digit(d: nat): char
    requires d < 10
  {
    "0123456789"[d]
  }

  function Itoa(n: nat): string { if n < 10 then [Digit(n)] else Itoa(n / 10) + [Digit(n % 10)] }

  function SessionAfter(session: string, inputs: seq<Input>): string {
    if inputs == [] then session
    else
      var last := inputs[|inputs| - 1];
      if NamesSession(last) then last.evt.sessionId else SessionAfter(session, inputs[..|inputs| - 1])
  }

  predicate Started(inputs: seq<Input>) { exists k :: 0 <= k < |inputs| && NamesSession(inputs[k]) }

  function Ev(t: Turn, at: Time, kind: string, session: string): AgentEvent {
    AgentEvent(kind, at, t.pid, session, Itoa(t.number), Some(t.number), "", "", None, None, None)
  }

  /** The event a parsed line itself gives rise to, session_started apart. */
  function OwnEvent(t: Turn, at: Time, evt: Parsed, session: string): seq<AgentEvent> {
    if evt.kind == "system" then
      if NamesSession(Line(evt)) then [] else [Ev(t, at, "other_message", session)]
    else if evt.kind == "assistant" then
      [Ev(t, at, "notification", session).(message := evt.summary, detail := evt.detail, stepUsage := UsageOf(evt.stepUsage),
                                          rateLimits := evt.rateLimits)]
    else if evt.kind == "user" then
      [Ev(t, at, "other_message", session).(message := evt.summary, detail := evt.detail)]
    else if evt.kind == "result" then
      if IsErrorResult(evt) then
        [Ev(t, at, "turn_ended_with_error", session).(usage := UsageOf(evt.usage), rateLimits := evt.rateLimits,
                                                     message := "result reported error")]
      else
        [Ev(t, at, "turn_completed", session).(usage := UsageOf(evt.usage), rateLimits := evt.rateLimits)]
    else [Ev(t, at, "other_message", session)]
  }

  /** What the input x, coming after `before`, makes the turn emit. */
  function Emission(t: Turn, before: seq<Input>, x: Input): seq<AgentEvent> {
    var at, session := t.clock(|before|), SessionAfter(t.session, before + [x]);
    match x
    case CtxDone(deadline) =>
      [if deadline then Ev(t, at, "turn_failed", session).(message := "turn timeout") else Ev(t, at, "turn_cancelled", session)]
    case Closed => [Ev(t, at, "turn_failed", session).(message := "stream ended before result")]
    case ReadErr => [Ev(t, at, "turn_failed", session).(message := "stdout read error")]
    case ReadTimer =>
      if t.timed && NoLine(before) then [Ev(t, at, "startup_failed", session).(message := "response timeout")] else []
    case Blank => []
    case Malformed => [Ev(t, at, "malformed", session).(message := "malformed line")]
    case Line(evt) =>
      (if NamesSession(x) && !Started(before) then [Ev(t, at, "session_started", session)] else [])
      + OwnEvent(t, at, evt, session)
  }

  function Emissions(t: Turn, inputs: seq<Input>): seq<AgentEvent> {
    if inputs == [] then []
    else
      var n := |inputs| - 1;
      Emissions(t, inputs[..n]) + Emission(t, inputs[..n], inputs[n])
  }

  // ---------- the automaton ----------

  class Session {
    var sessionId: string
    var turn: nat

    constructor ()
      ensures sessionId == "pending" && turn == 0
    {
      sessionId, turn := "pending", 0;
    }

    method HandleEvent(t: Turn, at: Time, evt: Parsed, started: bool)
      returns (done: bool, usage: Option<Usage>, err: Option<Code>, started': bool, emitted: seq<AgentEvent>)
      modifies this`sessionId
      ensures sessionId == if NamesSession(Line(evt)) then evt.sessionId else old(sessionId)
      ensures started' == (started || NamesSession(Line(evt)))
      ensures emitted == (if NamesSession(Line(evt)) && !started then [Ev(t, at, "session_started", sessionId)] else [])
                         + OwnEvent(t, at, evt, sessionId)
      ensures (done || err.Some?) <==> evt.kind == "result"
      ensures err.Some? ==> Verdict(Line(evt)) == Failure(err.value)
      ensures done ==> err.None? && Verdict(Line(evt)) == Success(usage)
    {
      done, usage, err, started', emitted := false, None, None, started, [];
      if evt.kind == "system" {
        if evt.subtype == "init" && evt.sessionId != "" {
          sessionId := evt.sessionId;
          if !started {
            started' := true;
            emitted := emitted + [Ev(t, at, "session_started", sessionId)];
          }
        } else {
          emitted := emitted + [Ev(t, at, "other_message", sessionId)];
        }
      } else if evt.kind == "assistant" {
        emitted := emitted + [Ev(t, at, "notification", sessionId).(
          message := evt.summary, detail := evt.detail, stepUsage := UsageOf(evt.stepUsage), rateLimits := evt.rateLimits)];
      } else if evt.kind == "user" {
        emitted := emitted + [Ev(t, at, "other_message", sessionId).(message := evt.summary, detail := evt.detail)];
      } else if evt.kind == "result" {
        if evt.sessionId != "" {
          sessionId := evt.sessionId;
          if !started {
            started' := true;
            emitted := emitted + [Ev(t, at, "session_started", sessionId)];
          }
        }
        usage := UsageOf(evt.usage);
        if IsErrorResult(evt) {
          emitted := emitted + [Ev(t, at, "turn_ended_with_error", sessionId).(
            usage := usage, rateLimits := evt.rateLimits, message := "result reported error")];
          err := Some(ResponseError);
          return;
        }
        emitted := emitted + [Ev(t, at, "turn_completed", sessionId).(usage := usage, rateLimits := evt.rateLimits)];
        done := true;
      } else {
        emitted := emitted + [Ev(t, at, "other_message", sessionId)];
      }
    }

    /** The turn ends at the first deciding input, with that input's verdict, having emitted what the
        inputs up to it call for. */
    method Consume(t: Turn, inputs: seq<Input>) returns (out: Outcome, emitted: seq<AgentEvent>, used: nat)
      requires sessionId == t.session
      modifies this`sessionId
      ensures used == Taken(inputs, t.timed) && out == OutcomeOf(inputs, t.timed)
      ensures emitted == Emissions(t, inputs[..used]) && sessionId == SessionAfter(t.session, inputs[..used])
    {
      hide OwnEvent, Ev, IsErrorResult, UsageOf, UsageFromMap, Emissions, SessionAfter, TailRun, NoLine, Started, Corrupt,
        Taken, OutcomeOf;
      NothingYet(t);
      out, emitted, used := Waiting, [], 0;
      var malformed, sawEvent, started, reading := 0, false, false, t.timed;
      while used < |inputs|
        invariant 0 <= used <= |inputs|
        invariant forall k :: 0 <= k < used ==> !Decides(inputs, k, t.timed)
        invariant emitted == Emissions(t, inputs[..used]) && sessionId == SessionAfter(t.session, inputs[..used])
        invariant malformed == TailRun(inputs[..used])
        invariant sawEvent == !NoLine(inputs[..used]) && reading == (t.timed && !sawEvent)
        invariant started == Started(inputs[..used])
      {
        var x, at := inputs[used], t.clock(used);
        ghost var now := inputs[..used + 1];
        assert now == inputs[..used] + [x];
        OneMore(t, inputs[..used], x);
        if Decides(inputs, used, t.timed) {
          DecidedAt(inputs, used, t.timed);
        }
        used := used + 1;
        match x
        case CtxDone(deadline) =>
          if deadline {
            emitted := emitted + [Ev(t, at, "turn_failed", sessionId).(message := "turn timeout")];
            out := Failure(TurnTimeout);
            return;
          }
          emitted := emitted + [Ev(t, at, "turn_cancelled", sessionId)];
          out := Failure(TurnCancelled);
          return;
        case ReadTimer =>
          if reading {
            if !sawEvent {
              emitted := emitted + [Ev(t, at, "startup_failed", sessionId).(message := "response timeout")];
              out := Failure(ResponseTimeout);
              return;
            }
          }
        case Closed =>
          emitted := emitted + [Ev(t, at, "turn_failed", sessionId).(message := "stream ended before result")];
          out := Failure(TurnFailed);
          return;
        case ReadErr =>
          emitted := emitted + [Ev(t, at, "turn_failed", sessionId).(message := "stdout read error")];
          out := Failure(ResponseError);
          return;
        case Blank =>
        case Malformed =>
          malformed := malformed + 1;
          emitted := emitted + [Ev(t, at, "malformed", sessionId).(message := "malformed line")];
          CorruptExactly(now);
          if malformed >= MALFORMED_LIMIT {
            out := Failure(StreamCorruption);
            return;
          }
        case Line(evt) =>
          malformed := 0;
          sawEvent := true;
          reading := false;
          var done, usage, err, started', news := HandleEvent(t, at, evt, started);
          started := started';
          emitted := emitted + news;
          if err.Some? {
            out := Failure(err.value);
            return;
          }
          if done {
            out := Success(usage);
            return;
          }
      }
      assert inputs[..used] == inputs;
      NothingDecided(inputs, t.timed);
    }

    /** RunTurn: a failing spawn ends the turn before anything is read; otherwise the stream decides. */
    method RunTurn(cfg: ClientConfig, reply: Reply) returns (command: string, out: Outcome, emitted: seq<AgentEvent>)
      modifies this
      ensures turn == old(turn) + 1 && command == BuildCommand(cfg, old(sessionId))
      ensures var t := TurnFor(cfg, reply, old(sessionId), old(turn) + 1);
        && out == TurnOutcome(cfg, reply) && emitted == TurnEvents(t, reply) && sessionId == SessionNext(t, reply)
    {
      turn := turn + 1;
      command := BuildCommand(cfg, sessionId);
      if reply.spawnError.Some? {
        return command, Failure(reply.spawnError.value), [];
      }
      var used;
      out, emitted, used := Consume(TurnFor(cfg, reply, sessionId, turn), reply.inputs);
    }
  }

  // ---------- a whole turn ----------

  /** What the world answers to one turn. */
  datatype Reply = Reply(spawnError: Option<Code>, pid: Option<string>, inputs: seq<Input>, clock: nat -> Time)

  function TurnFor(cfg: ClientConfig, reply: Reply, session: string, number: nat): Turn {
    Turn(session, reply.pid, number, cfg.readTimeoutMs > 0, reply.clock)
  }

  function TurnOutcome(cfg: ClientConfig, reply: Reply): Outcome {
    if reply.spawnError.Some? then Failure(reply.spawnError.value) else OutcomeOf(reply.inputs, cfg.readTimeoutMs > 0)
  }

  function TurnEvents(t: Turn, reply: Reply): seq<AgentEvent> {
    if reply.spawnError.Some? then [] else Emissions(t, reply.inputs[..Taken(reply.inputs, t.timed)])
  }

  function SessionNext(t: Turn, reply: Reply): string {
    if reply.spawnError.Some? then t.session else SessionAfter(t.session, reply.inputs[..Taken(reply.inputs, t.timed)])
  }

  /** Malformed lines since the last parsed one: what consume counts. */
  function TailRun(inputs: seq<Input>): nat {
    if inputs == [] then 0
    else
      var last := inputs[|inputs| - 1];
      if last.Line? then 0 else TailRun(inputs[..|inputs| - 1]) + if last.Malformed? then 1 else 0
  }

  lemma NothingYet(t: Turn)
    ensures Emissions(t, []) == [] && SessionAfter(t.session, []) == t.session && TailRun([]) == 0 && NoLine([]) && !Started([])
  {}

  lemma OneMore(t: Turn, before: seq<Input>, x: Input)
    ensures var now := before + [x];
      && Emissions(t, now) == Emissions(t, before) + Emission(t, before, x)
      && SessionAfter(t.session, now) == (if NamesSession(x) then x.evt.sessionId else SessionAfter(t.session, before))
      && TailRun(now) == (if x.Line? then 0 else TailRun(before) + if x.Malformed? then 1 else 0)
      && NoLine(now) == (NoLine(before) && !x.Line?)
      && Started(now) == (Started(before) || NamesSession(x))
  {
    hide Emission, NamesSession;
    var now, n := before + [x], |before|;
    assert now[..n] == before && now[n] == x;
    assert forall k :: 0 <= k < n ==> now[k] == before[k];
  }

  lemma CorruptExactly(inputs: seq<Input>)
    requires inputs != [] && inputs[|inputs| - 1].Malformed?
    ensures TailRun(inputs) >= MALFORMED_LIMIT <==> Corrupt(inputs)
  {
    var j := TailStart(inputs);
    forall i | 0 <= i < |inputs| && NoLine(inputs[i..])
      ensures CountMalformed(inputs[i..]) <= TailRun(inputs)
    {
      TailBounds(inputs, i);
    }
  }

  lemma {:induction false} TailBounds(inputs: seq<Input>, i: nat)
    requires i <= |inputs| && NoLine(inputs[i..])
    ensures CountMalformed(inputs[i..]) <= TailRun(inputs)
  {
    hide CountMalformed, NoLine, TailRun;
    TailRunEnds(inputs);
    CountEnds([]);
    if i < |inputs| {
      var n := |inputs| - 1;
      var before := inputs[..n][i..];
      assert inputs[i..] == before + [inputs[n]];
      CountSnoc(before, inputs[n]);
      TailBounds(inputs[..n], i);
    } else {
      assert inputs[i..] == [];
    }
  }

  lemma {:induction false} TailStart(inputs: seq<Input>) returns (j: nat)
    ensures j <= |inputs| && NoLine(inputs[j..]) && CountMalformed(inputs[j..]) == TailRun(inputs)
    ensures inputs != [] && !inputs[|inputs| - 1].Line? ==> j < |inputs|
  {
    hide CountMalformed, NoLine, TailRun;
    TailRunEnds(inputs);
    CountEnds([]);
    var n := |inputs| - 1;
    if inputs == [] || inputs[n].Line? {
      j := |inputs|;
      assert inputs[j..] == [];
    } else {
      j := TailStart(inputs[..n]);
      var before := inputs[..n][j..];
      assert inputs[j..] == before + [inputs[n]];
      CountSnoc(before, inputs[n]);
    }
  }

  lemma CountEnds(none: seq<Input>)
    requires none == []
    ensures CountMalformed(none) == 0 && NoLine(none)
  {}

  lemma CountSnoc(before: seq<Input>, x: Input)
    ensures CountMalformed(before + [x]) == CountMalformed(before) + (if x.Malformed? then 1 else 0)
    ensures NoLine(before + [x]) == (NoLine(before) && !x.Line?)
  {
    var now := before + [x];
    assert now[..|now| - 1] == before && now[|before|] == x;
    assert forall k :: 0 <= k < |before| ==> now[k] == before[k];
  }

  lemma TailRunEnds(inputs: seq<Input>)
    ensures TailRun(inputs) ==
      if inputs == [] || inputs[|inputs| - 1].Line? then 0
      else TailRun(inputs[..|inputs| - 1]) + if inputs[|inputs| - 1].Malformed? then 1 else 0
  {}

  // ---------- what a turn guarantees ----------

  /** A turn succeeds at input i exactly when i is a non-error result and before it there was no
      result, no end of stream, read error or end of context, no first-event timeout, and no ten
      malformed lines without a parsed line between. */
  lemma SucceedsExactly(inputs: seq<Input>, i: nat, timed: bool)
    requires i < |inputs|
    ensures OutcomeOf(inputs, timed).Success? && Taken(inputs, timed) == i + 1 <==>
      && IsResult(inputs[i]) && !IsErrorResult(inputs[i].evt)
      && (forall k :: 0 <= k < i ==> !IsResult(inputs[k]) && !inputs[k].CtxDone? && !inputs[k].Closed? && !inputs[k].ReadErr?)
      && (timed ==> forall k :: 0 <= k < i && inputs[k].ReadTimer? ==> !NoLine(inputs[..k]))
      && (forall k :: 0 <= k < i ==> !CorruptAt(inputs, k))
  {
    hide IsErrorResult, UsageOf, CorruptAt, NoLine, Taken, OutcomeOf;
    if Undecided(inputs, timed) {
      NothingDecided(inputs, timed);
      assert !Decides(inputs, i, timed);
    } else {
      var j := Taken(inputs, timed) - 1;
      DecidedAt(inputs, j, timed);
      if i < j { assert !Decides(inputs, i, timed); }
      if i == j && Verdict(inputs[i]).Success? {
        forall k | 0 <= k < i
          ensures !IsResult(inputs[k]) && !inputs[k].CtxDone? && !inputs[k].Closed? && !inputs[k].ReadErr?
          ensures timed && inputs[k].ReadTimer? ==> !NoLine(inputs[..k])
          ensures !CorruptAt(inputs, k)
        {
          assert !Decides(inputs, k, timed);
          CorruptIsMalformed(inputs, k);
        }
      }
    }
  }

  lemma CorruptIsMalformed(inputs: seq<Input>, i: nat)
    requires i < |inputs|
    ensures CorruptAt(inputs, i) ==> inputs[i].Malformed?
  {}

  /** Input that comes after the deciding one changes nothing. */
  lemma LaterInputIgnored(inputs: seq<Input>, more: seq<Input>, timed: bool)
    requires !OutcomeOf(inputs, timed).Waiting?
    ensures OutcomeOf(inputs + more, timed) == OutcomeOf(inputs, timed) && Taken(inputs + more, timed) == Taken(inputs, timed)
  {
    hide Corrupt, Taken, OutcomeOf;
    if Undecided(inputs, timed) { NothingDecided(inputs, timed); }
    var i := Taken(inputs, timed) - 1;
    DecidedAt(inputs, i, timed);
    forall k: nat | k <= i
      ensures Decides(inputs + more, k, timed) == Decides(inputs, k, timed)
    {
      assert (inputs + more)[..k + 1] == inputs[..k + 1] && (inputs + more)[..k] == inputs[..k];
    }
    DecidedAt(inputs + more, i, timed);
  }

  lemma {:induction false} NoResultNoUsage(t: Turn, inputs: seq<Input>)
    requires forall k :: 0 <= k < |inputs| ==> !IsResult(inputs[k])
    ensures forall e :: e in Emissions(t, inputs) ==> e.usage.None?
  {
    hide Emission;
    if inputs != [] {
      NoResultNoUsage(t, inputs[..|inputs| - 1]);
      QuietEmission(t, inputs[..|inputs| - 1], inputs[|inputs| - 1]);
    }
  }

  lemma QuietEmission(t: Turn, before: seq<Input>, x: Input)
    requires !IsResult(x)
    ensures forall e :: e in Emission(t, before, x) ==> e.usage.None?
  {
    hide UsageOf, Itoa, NoLine, Started, SessionAfter, IsErrorResult;
  }

  /** Only the last event can carry usage, and that usage is balanced. */
  predicate UsageAtEnd(events: seq<AgentEvent>) {
    forall k :: 0 <= k < |events| && events[k].usage.Some? ==> k == |events| - 1 && events[k].usage.value.Balanced()
  }

  /** Events without usage, then some with it only at the end. */
  lemma UsageStaysAtEnd(a: seq<AgentEvent>, b: seq<AgentEvent>)
    requires (forall e :: e in a ==> e.usage.None?) && UsageAtEnd(b)
    ensures UsageAtEnd(a + b)
  {
    hide Usage.Balanced;
    var all := a + b;
    forall k | 0 <= k < |all| && all[k].usage.Some?
      ensures k == |all| - 1 && all[k].usage.value.Balanced()
    {
      if k >= |a| { assert all[k] == b[k - |a|]; }
    }
  }

  /** However a turn goes, and however far it has come, at most one event it has emitted carries usage
      - the last one, made by a result - and that usage is balanced.  On success the last event is
      turn_completed with exactly the usage the turn returns. */
  lemma UsageOnceAndLast(t: Turn, inputs: seq<Input>, n: nat)
    requires n <= Taken(inputs, t.timed)
    ensures var events := Emissions(t, inputs[..n]);
      && UsageAtEnd(events)
      && (n == Taken(inputs, t.timed) && OutcomeOf(inputs, t.timed).Success? ==>
            events != [] && events[|events| - 1].kind == "turn_completed"
            && events[|events| - 1].usage == OutcomeOf(inputs, t.timed).usage)
  {
    hide *;
    var taken := Taken(inputs, t.timed);
    TakenMeaning(inputs, t.timed);
    NothingYet(t);
    if n > 0 {
      var before, x := inputs[..n - 1], inputs[n - 1];
      assert inputs[..n] == before + [x];
      NoResultNoUsage(t, before);
      OneMore(t, before, x);
      OneEmission(t, before, x);
      UsageStaysAtEnd(Emissions(t, before), Emission(t, before, x));
    } else {
      assert inputs[..0] == [];
      NoEvents();
    }
  }

  lemma NoEvents()
    ensures UsageAtEnd([])
  {}

  lemma TakenMeaning(inputs: seq<Input>, timed: bool)
    ensures forall k :: 0 <= k < Taken(inputs, timed) - 1 ==> !IsResult(inputs[k])
    ensures OutcomeOf(inputs, timed).Success? ==>
      var n := Taken(inputs, timed); n > 0 && IsResult(inputs[n - 1]) && OutcomeOf(inputs, timed) == Verdict(inputs[n - 1])
  {
    hide IsErrorResult, UsageOf, CorruptAt, NoLine, Taken, OutcomeOf;
    var n: int := Taken(inputs, timed);
    if Undecided(inputs, timed) {
      NothingDecided(inputs, timed);
    } else {
      DecidedAt(inputs, n - 1, timed);
    }
    forall k: nat | k + 1 < n
      ensures !IsResult(inputs[k])
    {
      assert !Decides(inputs, k, timed);
    }
  }

  lemma OneEmission(t: Turn, before: seq<Input>, x: Input)
    ensures var events := Emission(t, before, x);
      && UsageAtEnd(events)
      && (Verdict(x).Success? && IsResult(x) ==>
            events != [] && events[|events| - 1].kind == "turn_completed" && events[|events| - 1].usage == Verdict(x).usage)
  {
    hide Itoa, NoLine, Started, SessionAfter, IsErrorResult, OwnEvent, UsageOf, Usage.Balanced, NamesSession;
    if x.Line? {
      var at, session := t.clock(|before|), SessionAfter(t.session, before + [x]);
      OwnUsage(t, at, x.evt, session);
      UsageStaysAtEnd(if NamesSession(x) && !Started(before) then [Ev(t, at, "session_started", session)] else [],
                      OwnEvent(t, at, x.evt, session));
    }
  }

  lemma OwnUsage(t: Turn, at: Time, evt: Parsed, session: string)
    ensures var own := OwnEvent(t, at, evt, session);
      && UsageAtEnd(own)
      && (evt.kind == "result" && !IsErrorResult(evt) ==>
            |own| == 1 && own[0].kind == "turn_completed" && own[0].usage == UsageOf(evt.usage))
  {
    hide Itoa, IsErrorResult, UsageFromMap;
  }

  function CountKind(events: seq<AgentEvent>, kind: string): nat {
    if events == [] then 0 else CountKind(events[..|events| - 1], kind) + if events[|events| - 1].kind == kind then 1 else 0
  }

  lemma {:induction false} CountKindConcat(a: seq<AgentEvent>, b: seq<AgentEvent>, kind: string)
    ensures CountKind(a + b, kind) == CountKind(a, kind) + CountKind(b, kind)
  {
    if b == [] {
      assert a + b == a;
    } else {
      assert (a + b)[..|a + b| - 1] == a + b[..|b| - 1];
      CountKindConcat(a, b[..|b| - 1], kind);
    }
  }

  /** session_started is emitted once if some line named the session, and never otherwise. */
  lemma {:induction false} StartedOnce(t: Turn, inputs: seq<Input>)
    ensures CountKind(Emissions(t, inputs), "session_started") == if Started(inputs) then 1 else 0
  {
    hide Emission;
    if inputs != [] {
      var before, x := inputs[..|inputs| - 1], inputs[|inputs| - 1];
      assert inputs == before + [x];
      StartedOnce(t, before);
      OneMore(t, before, x);
      CountKindConcat(Emissions(t, before), Emission(t, before, x), "session_started");
      StartedBy(t, before, x);
    }
  }

  lemma StartedBy(t: Turn, before: seq<Input>, x: Input)
    ensures CountKind(Emission(t, before, x), "session_started") == if NamesSession(x) && !Started(before) then 1 else 0
  {
    hide Itoa, NoLine, Started, SessionAfter, IsErrorResult, UsageOf;
    if x.Line? {
      var own := OwnEvent(t, t.clock(|before|), x.evt, SessionAfter(t.session, before + [x]));
      assert |own| <= 1 && CountKind(own, "session_started") == 0;
      CountKindConcat(if NamesSession(x) && !Started(before)
                      then [Ev(t, t.clock(|before|), "session_started", SessionAfter(t.session, before + [x]))] else [],
                      own, "session_started");
    }
  }

  lemma StartedConcat(before: seq<Input>, x: Input)
    ensures Started(before + [x]) == (Started(before) || NamesSession(x))
  {
    OneMore(Turn("", None, 0, false, (k: nat) => 0), before, x);
  }

  /** The session keeps its id until a line names it; then it has the id named last. */
  lemma {:induction false} SessionIsLastNamed(session: string, inputs: seq<Input>)
    ensures !Started(inputs) ==> SessionAfter(session, inputs) == session
    ensures forall k :: 0 <= k < |inputs| && NamesSession(inputs[k]) && !Started(inputs[k + 1..]) ==>
      SessionAfter(session, inputs) == inputs[k].evt.sessionId != ""
  {
    if inputs != [] {
      var n := |inputs| - 1;
      var front := inputs[..n];
      SessionIsLastNamed(session, front);
      assert forall k :: 0 <= k < n ==> front[k] == inputs[k];
      forall k | 0 <= k < |inputs| && NamesSession(inputs[k]) && !Started(inputs[k + 1..])
        ensures SessionAfter(session, inputs) == inputs[k].evt.sessionId
      {
        if k < n {
          assert inputs[k + 1..] == front[k + 1..] + [inputs[n]];
          StartedConcat(front[k + 1..], inputs[n]);
        }
      }
    }
  }

  /** The turn after one whose stream named the session asks the shell to resume that very session. */
  lemma NextTurnResumes(cfg: ClientConfig, t: Turn, reply: Reply, k: nat)
    requires cfg.resume && LexicallyClosed(cfg.command) && reply.spawnError.None?
    requires k < Taken(reply.inputs, t.timed) && NamesSession(reply.inputs[k])
    requires !Started(reply.inputs[k + 1..Taken(reply.inputs, t.timed)])
    requires var id := reply.inputs[k].evt.sessionId; id != "pending" && IsPlainWord(id)
    ensures Lex(cfg.command).Some?
    ensures Lex(BuildCommand(cfg, SessionNext(t, reply))) ==
      Some(Lex(cfg.command).value + Flags(cfg) + [Word(Unquoted("--resume")), Word(Unquoted(reply.inputs[k].evt.sessionId))])
  {
    hide Lex, BuildCommand, Flags, IsPlainWord, LexicallyClosed, Unquoted, Decides, SessionAfter;
    var taken := reply.inputs[..Taken(reply.inputs, t.timed)];
    SessionIsLastNamed(t.session, taken);
    assert taken[k] == reply.inputs[k] && taken[k + 1..] == reply.inputs[k + 1..Taken(reply.inputs, t.timed)];
    CommandReadsBack(cfg, reply.inputs[k].evt.sessionId);
  }
}
