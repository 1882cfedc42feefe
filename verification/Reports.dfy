/** What a turn reports of what it reads, input by input and in its own words: events, usage, outcome;
    and the sum of it over an attempt and in the orchestrator's books. */
module Reports {
  import opened Domain
  import opened Shell
  import opened Stream

  // ---------- numbers ----------

  /** The number a string of digits stands for. */
  function Numeral(s: string): int { if s == [] then 0 else 10 * Numeral(s[..|s| - 1]) + (s[|s| - 1] as int - '0' as int) }

  /** A turn id is the decimal number of the turn, without leading zeros. */
  lemma {:induction false} TurnIdReadsBack(n: nat)
    ensures Itoa(n) != "" && Numeral(Itoa(n)) == n && (forall c :: c in Itoa(n) ==> '0' <= c <= '9')
    ensures n > 0 ==> Itoa(n)[0] != '0'
  {
    DigitMeans(n % 10);
    if n < 10 {
      assert Itoa(n) == [Digit(n)] && [Digit(n)][..0] == [];
    } else {
      TurnIdReadsBack(n / 10);
      assert Itoa(n)[..|Itoa(n)| - 1] == Itoa(n / 10);
    }
  }

  lemma DigitMeans(d: nat)
    requires d < 10
    ensures '0' <= Digit(d) <= '9' && Digit(d) as int == '0' as int + d
  {}

  /** A count is the number in the map without its fraction, and 0 if there is none. */
  lemma CountMeans(m: map<string, Json>, key: string)
    ensures key !in m || m[key].Other? ==> Field(m, key) == 0
    ensures key in m && m[key].Number? ==>
      var v, n := m[key].value, Field(m, key);
      if v >= 0.0 then n as real <= v < n as real + 1.0 else n as real - 1.0 < v <= n as real
  {}

  /** What a usage map comes to: all three kinds of input, the output, and the sum of both. */
  function Billed(m: map<string, Json>): Usage {
    var input := Field(m, "input_tokens") + Field(m, "cache_read_input_tokens") + Field(m, "cache_creation_input_tokens");
    Usage(input, Field(m, "output_tokens"), input + Field(m, "output_tokens"))
  }

  /** Usage is reported exactly if there is a map, and it is what the map comes to. */
  predicate Bills(raw: Option<map<string, Json>>, usage: Option<Usage>) {
    (usage == None <==> raw == None) && (raw != None && usage != None ==> usage.value == Billed(raw.value))
  }

  lemma BillsExactly(raw: Option<map<string, Json>>)
    ensures Bills(raw, UsageOf(raw))
  {
    hide Field;
  }

  // ---------- one input ----------

  /** An event of the turn that carries nothing but a message. */
  function Says(t: Turn, at: Time, session: string, kind: string, message: string): AgentEvent {
    AgentEvent(kind, at, t.pid, session, Itoa(t.number), Some(t.number), message, "", None, None, None)
  }

  /** The line gives the session its id: an init line, or as a fallback the result. */
  predicate Names(x: Input) {
    x.Line? && x.evt.sessionId != "" && ((x.evt.kind == "system" && x.evt.subtype == "init") || x.evt.kind == "result")
  }

  /** The session id after an input, and whether it was the first to name it. */
  lemma NamedBy(t: Turn, before: seq<Input>, x: Input)
    ensures SessionAfter(t.session, before + [x]) == if Names(x) then x.evt.sessionId else SessionAfter(t.session, before)
    ensures Started(before) <==> exists k :: 0 <= k < |before| && Names(before[k])
  {
    OneMore(t, before, x);
    assert forall y: Input :: NamesSession(y) == Names(y);
  }

  /** Everything but lines: one event with the cause, or none. */
  lemma SignalReports(t: Turn, before: seq<Input>, x: Input)
    requires !x.Line?
    ensures var at, session := t.clock(|before|), SessionAfter(t.session, before);
      Emission(t, before, x) ==
        match x
        case CtxDone(deadline) =>
          if deadline then [Says(t, at, session, "turn_failed", "turn timeout")] else [Says(t, at, session, "turn_cancelled", "")]
        case Closed => [Says(t, at, session, "turn_failed", "stream ended before result")]
        case ReadErr => [Says(t, at, session, "turn_failed", "stdout read error")]
        case ReadTimer =>
          if t.timed && (forall k :: 0 <= k < |before| ==> !before[k].Line?)
          then [Says(t, at, session, "startup_failed", "response timeout")] else []
        case Malformed => [Says(t, at, session, "malformed", "malformed line")]
        case Blank => []
        case Line(_) => []
  {
    hide Itoa, SessionAfter;
    OneMore(t, before, x);
  }

  /** The event a parsed line gives rise to by itself. */
  ghost predicate LineReports(t: Turn, at: Time, session: string, evt: Parsed, events: seq<AgentEvent>) {
    if evt.kind == "system" && evt.subtype == "init" && evt.sessionId != "" then events == []
    else
      && |events| == 1
      && var e := events[0];
         if evt.kind == "assistant" then
           && Bills(evt.stepUsage, e.stepUsage)
           && e == Says(t, at, session, "notification", evt.summary).(detail := evt.detail, stepUsage := e.stepUsage,
                                                                      rateLimits := evt.rateLimits)
         else if evt.kind == "user" then e == Says(t, at, session, "other_message", evt.summary).(detail := evt.detail)
         else if evt.kind == "result" then
           && Bills(evt.usage, e.usage)
           && e == (if evt.isError == Some(true) || Contains(ToLower(evt.subtype), "error")
                    then Says(t, at, session, "turn_ended_with_error", "result reported error")
                    else Says(t, at, session, "turn_completed", "")).(usage := e.usage, rateLimits := evt.rateLimits)
         else e == Says(t, at, session, "other_message", "")
  }

  /** A parsed line announces the session if it is the first to name it, and reports itself under the id
      the session has by then. */
  lemma LineIsReported(t: Turn, before: seq<Input>, evt: Parsed) returns (own: seq<AgentEvent>)
    ensures var x, at := Line(evt), t.clock(|before|);
      var session := if Names(x) then evt.sessionId else SessionAfter(t.session, before);
      && Emission(t, before, x) ==
           (if Names(x) && (forall k :: 0 <= k < |before| ==> !Names(before[k]))
            then [Says(t, at, session, "session_started", "")] else []) + own
      && LineReports(t, at, session, evt, own)
  {
    hide Itoa, SessionAfter, UsageOf, Bills, IsErrorResult, Contains, ToLower, Started;
    var at, session := t.clock(|before|), SessionAfter(t.session, before + [Line(evt)]);
    NamedBy(t, before, Line(evt));
    BillsExactly(evt.usage);
    BillsExactly(evt.stepUsage);
    ErrorResultExactly(evt);
    own := OwnEvent(t, at, evt, session);
  }

  // ---------- the end of a turn ----------

  /** What the deciding input makes of the turn. */
  lemma TurnEnds(inputs: seq<Input>, i: nat, timed: bool)
    requires i < |inputs| && Taken(inputs, timed) == i + 1 && !OutcomeOf(inputs, timed).Waiting?
    ensures var out := OutcomeOf(inputs, timed);
      match inputs[i]
      case CtxDone(deadline) => out == Failure(if deadline then TurnTimeout else TurnCancelled)
      case Closed => out == Failure(TurnFailed)
      case ReadErr => out == Failure(ResponseError)
      case ReadTimer => out == Failure(ResponseTimeout) && timed && forall k :: 0 <= k < i ==> !inputs[k].Line?
      case Malformed => out == Failure(StreamCorruption) && TenMalformed(inputs, i)
      case Line(evt) =>
        && evt.kind == "result"
        && if evt.isError == Some(true) || Contains(ToLower(evt.subtype), "error") then out == Failure(ResponseError)
           else out.Success? && Bills(evt.usage, out.usage)
      case Blank => false
  {
    hide Contains, ToLower, Taken, OutcomeOf, UsageOf, Bills, IsErrorResult, CountMalformed;
    if Undecided(inputs, timed) { NothingDecided(inputs, timed); } else { DecidedAt(inputs, i, timed); }
    assert Decides(inputs, i, timed);
    match inputs[i]
    case Line(evt) => ErrorResultExactly(evt); BillsExactly(evt.usage);
    case Malformed => Tenth(inputs, i);
    case _ =>
  }

  /** inputs[i] is a malformed line that ends a stretch with ten of them and no parsed line. */
  ghost predicate TenMalformed(inputs: seq<Input>, i: nat)
    requires i < |inputs|
  {
    inputs[i].Malformed? && exists j: nat :: Stretch(inputs, j, i)
  }

  predicate Stretch(inputs: seq<Input>, j: nat, i: nat)
    requires i < |inputs|
  {
    j <= i && (forall k :: j <= k <= i ==> !inputs[k].Line?) && CountMalformed(inputs[j..i + 1]) >= 10
  }

  lemma Tenth(inputs: seq<Input>, i: nat)
    requires i < |inputs|
    ensures CorruptAt(inputs, i) <==> TenMalformed(inputs, i)
  {
    hide CountMalformed;
    var now := inputs[..i + 1];
    forall j: nat | j <= i
      ensures Stretch(inputs, j, i) <==> NoLine(now[j..]) && CountMalformed(now[j..]) >= MALFORMED_LIMIT
    {
      assert now[j..] == inputs[j..i + 1];
      assert forall k :: j <= k <= i ==> now[j..][k - j] == inputs[k];
    }
  }

  /** A turn that ends, ends at the first input that can end one; none can be passed over. */
  lemma NothingPassedOver(inputs: seq<Input>, i: nat, timed: bool)
    requires i < |inputs|
    requires || inputs[i].CtxDone? || inputs[i].Closed? || inputs[i].ReadErr? || (inputs[i].Line? && inputs[i].evt.kind == "result")
             || (timed && inputs[i].ReadTimer? && forall k :: 0 <= k < i ==> !inputs[k].Line?)
             || TenMalformed(inputs, i)
    ensures Taken(inputs, timed) <= i + 1 && !OutcomeOf(inputs, timed).Waiting?
  {
    hide CountMalformed, Taken, OutcomeOf, CorruptAt, TenMalformed, IsErrorResult;
    Tenth(inputs, i);
    CorruptIsMalformed(inputs, i);
    assert (forall k :: 0 <= k < i ==> !inputs[k].Line?) ==> NoLine(inputs[..i]);
    assert Decides(inputs, i, timed);
    DecidedAt(inputs, Taken(inputs, timed) - 1, timed);
    DecidedVerdict(inputs, Taken(inputs, timed) - 1, timed);
  }

  lemma DecidedVerdict(inputs: seq<Input>, i: nat, timed: bool)
    requires i < |inputs| && Decides(inputs, i, timed)
    ensures !Verdict(inputs[i]).Waiting?
  {
    hide IsErrorResult, CorruptAt;
  }

  /** A turn whose process cannot be started fails with the cause, reads and reports nothing and learns no
      session id; any other turn is its stream, with a first-event timeout exactly if one is configured. */
  lemma SpawnOrStream(cfg: ClientConfig, reply: Reply, session: string, number: nat)
    ensures var t := TurnFor(cfg, reply, session, number);
      && t == Turn(session, reply.pid, number, cfg.readTimeoutMs > 0, reply.clock)
      && if reply.spawnError != None then
           TurnOutcome(cfg, reply) == Failure(reply.spawnError.value) && TurnEvents(t, reply) == [] && SessionNext(t, reply) == session
         else
           var taken := reply.inputs[..Taken(reply.inputs, cfg.readTimeoutMs > 0)];
           && TurnOutcome(cfg, reply) == OutcomeOf(reply.inputs, cfg.readTimeoutMs > 0)
           && TurnEvents(t, reply) == Emissions(t, taken) && SessionNext(t, reply) == SessionAfter(session, taken)
  {}

  // ---------- usage of a turn ----------

  /** What a turn is billed: what the usage map of its deciding result line comes to, error or not. */
  function TurnBill(inputs: seq<Input>, timed: bool): Usage {
    var n := Taken(inputs, timed);
    if n > 0 && inputs[n - 1].Line? && inputs[n - 1].evt.kind == "result" && inputs[n - 1].evt.usage.Some?
    then Billed(inputs[n - 1].evt.usage.value) else NoUsage
  }

  /** The sum of what events report. */
  function UsageTotal(events: seq<AgentEvent>): Usage {
    if events == [] then NoUsage
    else
      var most, last := UsageTotal(events[..|events| - 1]), events[|events| - 1];
      if last.usage.Some? then most.Plus(last.usage.value) else most
  }

  lemma {:induction false} TotalConcat(a: seq<AgentEvent>, b: seq<AgentEvent>)
    ensures UsageTotal(a + b) == UsageTotal(a).Plus(UsageTotal(b))
  {
    hide Usage.Plus;
    PlusNothing(UsageTotal(a));
    if b == [] {
      assert a + b == a;
    } else {
      var most, last := b[..|b| - 1], b[|b| - 1];
      assert (a + b)[..|a + b| - 1] == a + most && (a + b)[|a + b| - 1] == last;
      TotalConcat(a, most);
      if last.usage.Some? { PlusLaws(UsageTotal(a), UsageTotal(most), last.usage.value); }
    }
  }

  lemma PlusNothing(u: Usage)
    ensures u.Plus(NoUsage) == u == NoUsage.Plus(u)
  {}

  lemma {:induction false} NothingReported(events: seq<AgentEvent>)
    requires forall e :: e in events ==> e.usage.None?
    ensures UsageTotal(events) == NoUsage
  {
    if events != [] { NothingReported(events[..|events| - 1]); }
  }

  /** The events of a turn, however it goes, add up to what it is billed; and if it ends with a result,
      the last event reports that bill, exactly if the line has a usage map. */
  lemma TurnIsBilled(t: Turn, inputs: seq<Input>)
    ensures var n := Taken(inputs, t.timed);
      var events := Emissions(t, inputs[..n]);
      && UsageTotal(events) == TurnBill(inputs, t.timed)
      && (n > 0 && inputs[n - 1].Line? && inputs[n - 1].evt.kind == "result" ==>
            events != [] && Bills(inputs[n - 1].evt.usage, events[|events| - 1].usage))
  {
    hide *;
    var n := Taken(inputs, t.timed);
    TakenMeaning(inputs, t.timed);
    BillMeans(inputs, t.timed);
    Stream.NothingYet(t);
    NothingReported([]);
    if n > 0 {
      var before, x := inputs[..n - 1], inputs[n - 1];
      assert inputs[..n] == before + [x];
      Results(inputs, n, before);
      NoResultNoUsage(t, before);
      NothingReported(Emissions(t, before));
      OneMore(t, before, x);
      LastIsBilled(t, before, x);
      TotalConcat(Emissions(t, before), Emission(t, before, x));
      PlusNothing(UsageTotal(Emission(t, before, x)));
    } else {
      assert inputs[..0] == [];
    }
  }

  lemma Results(inputs: seq<Input>, n: nat, before: seq<Input>)
    requires 0 < n <= |inputs| && before == inputs[..n - 1] && forall k :: 0 <= k < n - 1 ==> !IsResult(inputs[k])
    ensures forall k :: 0 <= k < |before| ==> !IsResult(before[k])
  {}

  lemma BillMeans(inputs: seq<Input>, timed: bool)
    ensures var n := Taken(inputs, timed);
      && n <= |inputs|
      && TurnBill(inputs, timed) == if n > 0 then LineBill(inputs[n - 1]) else NoUsage
  {
    hide Taken, Billed;
  }

  function LineBill(x: Input): Usage {
    if x.Line? && x.evt.kind == "result" && x.evt.usage.Some? then Billed(x.evt.usage.value) else NoUsage
  }

  lemma LastIsBilled(t: Turn, before: seq<Input>, x: Input)
    ensures UsageTotal(Emission(t, before, x)) == LineBill(x)
    ensures var events := Emission(t, before, x);
      x.Line? && x.evt.kind == "result" ==> events != [] && Bills(x.evt.usage, events[|events| - 1].usage)
  {
    hide *;
    if x.Line? {
      var own := LineIsReported(t, before, x.evt);
      var at, named := t.clock(|before|), Names(x);
      var session := if named then x.evt.sessionId else SessionAfter(t.session, before);
      var news := if named && (forall k :: 0 <= k < |before| ==> !Names(before[k])) then [Says(t, at, session, "session_started", "")] else [];
      OwnBill(t, at, session, x.evt, own);
      SaysNothing(t, at, session, "session_started", "");
      NothingReported(news);
      TotalConcat(news, own);
      PlusNothing(UsageTotal(own));
      LineBillMeans(x);
    } else {
      SignalReports(t, before, x);
      SignalUnbilled(t, before, x);
      LineBillMeans(x);
    }
  }

  lemma LineBillMeans(x: Input)
    ensures LineBill(x) == if x.Line? && x.evt.kind == "result" && x.evt.usage.Some? then Billed(x.evt.usage.value) else NoUsage
  {}

  lemma SaysNothing(t: Turn, at: Time, session: string, kind: string, message: string)
    ensures Says(t, at, session, kind, message).usage == None
  {}

  lemma SignalUnbilled(t: Turn, before: seq<Input>, x: Input)
    requires !x.Line?
    ensures UsageTotal(Emission(t, before, x)) == NoUsage
  {
    hide Itoa, SessionAfter, UsageTotal;
    NothingReported(Emission(t, before, x));
  }

  lemma OwnBill(t: Turn, at: Time, session: string, evt: Parsed, own: seq<AgentEvent>)
    requires LineReports(t, at, session, evt, own)
    ensures UsageTotal(own) == if evt.kind == "result" && evt.usage.Some? then Billed(evt.usage.value) else NoUsage
    ensures evt.kind == "result" ==> own != [] && Bills(evt.usage, own[|own| - 1].usage)
  {
    hide UsageTotal, Billed, Itoa, Contains, ToLower;
    NothingReported([]);
    if own != [] {
      assert own == [own[0]];
      TotalOfOne(own[0]);
    }
  }

  lemma TotalOfOne(e: AgentEvent)
    ensures UsageTotal([e]) == if e.usage.Some? then e.usage.value else NoUsage
  {
    assert [e][..0] == [];
  }
}
