/** The orchestrator with real workers: what it books is exactly what their attempts use, and how their
    exits are queued is how the attempts end.  A run with real workers is any run in which what each
    worker posts follows the report of one attempt. */
module Workers {
  import opened Domain
  import opened State
  import opened Handlers
  import opened System
  import opened Wakeups
  import opened Books
  import opened Histories
  import opened Ledger
  import opened Entries
  import opened Reports
  import Runs
  import Runner

  /** What one worker was started to do, and the world it met. */
  datatype Job = Job(settings: Runner.Settings, world: Runner.World, issue: Issue, attempt: Option<int>) {
    function Report(): Runner.Report { Runner.RunOf(settings, world, issue, attempt) }
  }

  // ---------- what workers post ----------

  // Each worker goroutine runs an attempt of the runner, posts its events one by one and its exit last.

  /** The events worker w posts in a run, in order. */
  function EmissionsOf(steps: seq<Step>, w: nat): seq<AgentEvent> {
    if steps == [] then []
    else
      var most, last := EmissionsOf(steps[..|steps| - 1], w), steps[|steps| - 1];
      if last.Emit? && last.worker == w then most + [last.msg] else most
  }

  predicate HasLeft(steps: seq<Step>, w: nat) { exists i :: 0 <= i < |steps| && steps[i].Exit? && steps[i].worker == w }

  /** A worker's next step goes on with its run: the next event, or its exit once all are posted - with
      an error exactly if the run returned one. */
  ghost predicate GoesByTheBook(before: seq<Step>, step: Step, crew: nat -> Job) {
    match step
    case Emit(w, msg) => EmissionsOf(before, w) + [msg] <= crew(w).Report().events
    case Exit(w, err) =>
      var report := crew(w).Report();
      EmissionsOf(before, w) == report.events && report.result.Returned? && (err.Some? <==> report.result.err.Some?)
    case _ => true
  }

  ghost predicate Crewed(steps: seq<Step>, crew: nat -> Job) {
    forall k :: 0 <= k < |steps| ==> GoesByTheBook(steps[..k], steps[k], crew)
  }

  lemma CrewedPrefix(steps: seq<Step>, crew: nat -> Job)
    requires steps != [] && Crewed(steps, crew)
    ensures Crewed(steps[..|steps| - 1], crew)
    ensures GoesByTheBook(steps[..|steps| - 1], steps[|steps| - 1], crew)
  {
    hide GoesByTheBook;
    var most := steps[..|steps| - 1];
    forall k | 0 <= k < |most|
      ensures GoesByTheBook(most[..k], most[k], crew)
    {
      assert most[..k] == steps[..k];
    }
  }

  /** What a worker has posted is a prefix of what its run reports, and all of it once it has left. */
  lemma {:induction false} PostedIsReported(steps: seq<Step>, crew: nat -> Job, w: nat)
    requires Crewed(steps, crew)
    ensures EmissionsOf(steps, w) <= crew(w).Report().events
    ensures HasLeft(steps, w) ==> EmissionsOf(steps, w) == crew(w).Report().events && crew(w).Report().result.Returned?
  {
    hide Job.Report, Crewed;
    if steps != [] {
      var most := steps[..|steps| - 1];
      CrewedPrefix(steps, crew);
      PostedIsReported(most, crew, w);
      LeftBefore(steps, w);
    }
  }

  lemma LeftBefore(steps: seq<Step>, w: nat)
    requires steps != []
    ensures HasLeft(steps, w) <==>
      HasLeft(steps[..|steps| - 1], w) || (steps[|steps| - 1].Exit? && steps[|steps| - 1].worker == w)
  {
    var most := steps[..|steps| - 1];
    if HasLeft(steps, w) && !(steps[|steps| - 1].Exit? && steps[|steps| - 1].worker == w) {
      var i :| 0 <= i < |steps| && steps[i].Exit? && steps[i].worker == w;
      assert most[i].Exit? && most[i].worker == w;
    }
    if HasLeft(most, w) {
      var i :| 0 <= i < |most| && most[i].Exit? && most[i].worker == w;
      assert steps[i].Exit? && steps[i].worker == w;
    }
  }

  // ---------- the totals need no assumption ----------

  lemma CrewBalanced(steps: seq<Step>, crew: nat -> Job)
    requires Crewed(steps, crew)
    ensures Runs.BalancedSteps(steps)
  {
    hide Job.Report, Usage.Balanced, EmissionsOf;
    forall step | step in steps && step.Emit? && step.msg.usage.Some?
      ensures step.msg.usage.value.Balanced()
    {
      var k :| 0 <= k < |steps| && steps[k] == step;
      var w := step.worker;
      assert GoesByTheBook(steps[..k], step, crew);
      var posted := EmissionsOf(steps[..k], w) + [step.msg];
      assert posted[|posted| - 1] == step.msg;
      assert step.msg in crew(w).Report().events;
      ReportBalanced(crew(w));
    }
  }

  lemma ReportBalanced(job: Job)
    ensures forall e :: e in job.Report().events && e.usage.Some? ==> e.usage.value.Balanced()
  {
    hide Runner.RunOf;
    Runner.RunUsage(job.settings, job.world, job.issue, job.attempt);
  }

  /** Whatever its workers run, the global totals satisfy total = input + output. */
  lemma TotalsBalanced(first: (Config, string), queued: seq<Event>, steps: seq<Step>, crew: nat -> Job)
    requires CanStart(queued) && Legal(Startup(first.0, first.1, queued), steps) && Crewed(steps, crew)
    ensures Exec(Startup(first.0, first.1, queued), steps).totals.Balanced()
  {
    hide *;
    CrewBalanced(steps, crew);
    Runs.TotalsBalanced(first, queued, steps);
  }

  // ---------- every token is booked ----------

  lemma UsageNext(events: seq<AgentEvent>, msg: AgentEvent)
    ensures UsageTotal(events + [msg]) == if msg.usage.Some? then UsageTotal(events).Plus(msg.usage.value) else UsageTotal(events)
  {
    assert (events + [msg])[..|events|] == events;
  }

  /** Every worker so far is alive or has left; the journal has recorded what each has posted. */
  ghost predicate Manned(s: Orchestration, steps: seq<Step>) {
    && (forall w: nat :: w < s.rt.nextWorker ==> w in s.rt.live || HasLeft(steps, w))
    && (forall w: nat :: EmittedBy(s.journal, w) == UsageTotal(EmissionsOf(steps, w)))
  }

  lemma {:induction false} AppendedEmitsNoneBy(h: History, h': History, w: nat)
    requires Runs.Appended(h, h')
    ensures EmittedBy(h', w) == EmittedBy(h, w)
  {
    if h' != h { AppendedEmitsNoneBy(h, h'.before, w); }
  }

  lemma StepEmits(s: Orchestration, step: Step, w: nat)
    requires BooksOk(s, {}) && Enabled(s, step)
    ensures EmittedBy(Apply(s, step).journal, w) ==
      if step.Emit? && step.worker == w && step.msg.usage.Some? then EmittedBy(s.journal, w).Plus(step.msg.usage.value)
      else EmittedBy(s.journal, w)
  {
    hide BooksOk, Handle;
    if step.Deliver? {
      Runs.DeliveryAppends(s, step.input);
      AppendedEmitsNoneBy(s.journal, Apply(s, step).journal, w);
    }
  }

  lemma Remanned(s: Orchestration, before: seq<Step>, step: Step)
    requires BooksOk(s, {}) && Enabled(s, step) && Manned(s, before)
    ensures Manned(Apply(s, step), before + [step])
  {
    hide BooksOk, Enabled, Apply, HasLeft, UsageTotal, EmittedBy;
    StepLive(s, step);
    var steps, s' := before + [step], Apply(s, step);
    assert steps[..|steps| - 1] == before;
    forall w: nat
      ensures HasLeft(steps, w) <==> HasLeft(before, w) || (step.Exit? && step.worker == w)
      ensures EmittedBy(s'.journal, w) == UsageTotal(EmissionsOf(steps, w))
    {
      LeftBefore(steps, w);
      StepEmits(s, step, w);
      if step.Emit? && step.worker == w { UsageNext(EmissionsOf(before, w), step.msg); }
    }
  }

  lemma {:induction false} RunManned(s: Orchestration, steps: seq<Step>)
    requires BooksOk(s, {}) && Legal(s, steps) && Manned(s, [])
    ensures Manned(Exec(s, steps), steps)
    decreases |steps|
  {
    hide BooksOk, Manned, Enabled, Apply;
    if steps == [] {
      assert Exec(s, steps) == s;
    } else {
      var most, last := steps[..|steps| - 1], steps[|steps| - 1];
      Runs.LastStep(s, steps);
      RunManned(s, most);
      RunKeepsBooks(s, most);
      Remanned(Exec(s, most), most, last);
      assert most + [last] == steps;
    }
  }

  /** Token by token, in every run: what an ended worker's entry carried into the totals is exactly what
      its attempt used, and a running one has in its session and in the channel what it has posted so
      far of its attempt. */
  lemma AttemptsAreBooked(first: (Config, string), queued: seq<Event>, steps: seq<Step>, crew: nat -> Job, w: nat)
    requires CanStart(queued) && Legal(Startup(first.0, first.1, queued), steps) && Crewed(steps, crew)
    ensures var s, report := Exec(Startup(first.0, first.1, queued), steps), crew(w).Report();
      && (HasEnded(s.journal, w) ==> EndedTokens(s.journal, w) == UsageTotal(report.events) && report.result.Returned?)
      && EmissionsOf(steps, w) <= report.events
      && (forall id :: id in s.running && s.running[id].worker == w ==>
            UsageTotal(EmissionsOf(steps, w)) == s.running[id].session.tokens.Plus(InFlight(s.rt.chan, w)))
  {
    hide Job.Report, UsageTotal, EmissionsOf, InFlight, BooksOk, Legal, Exec, Crewed, Startup, HasLeft, EmittedBy, EndedTokens;
    var s0 := Startup(first.0, first.1, queued);
    var s := Exec(s0, steps);
    StartupBooks(first.0, first.1, queued);
    StartsManned(first, queued);
    RunManned(s0, steps);
    PostedIsReported(steps, crew, w);
    Runs.Reaches(first, queued, steps);
    Runs.TokensCreditedToSender(s, first, w);
    EndedNumber(s, first, w);
  }

  lemma StartsManned(first: (Config, string), queued: seq<Event>)
    ensures Manned(Startup(first.0, first.1, queued), [])
  {}

  lemma EndedNumber(s: Orchestration, first: (Config, string), w: nat)
    requires Runs.Reached(s, first)
    ensures HasEnded(s.journal, w) ==> w < s.rt.nextWorker && w !in s.rt.live
  {
    Runs.ReachedOk(s, first, 0);
    Runs.TokensCreditedToSender(s, first, w);
    hide BooksOk, AttemptsOk, VerdictsOk, TokensOk, ClockOk, Serving;
  }

  // ---------- how attempts end ----------

  /** Every queued exit of worker w tells how its attempt ended. */
  ghost predicate ExitsTell(chan: seq<Message>, crew: nat -> Job, w: nat) {
    forall i :: 0 <= i < |chan| && chan[i].src == FromWorker(w) && chan[i].ev.WorkerExit? ==>
      (chan[i].ev.reason == ExitNormal <==> crew(w).Report().result == Runner.Returned(None))
  }

  lemma StepTells(s: Orchestration, before: seq<Step>, step: Step, crew: nat -> Job, w: nat)
    requires BooksOk(s, {}) && Enabled(s, step) && GoesByTheBook(before, step, crew) && ExitsTell(s.rt.chan, crew, w)
    ensures ExitsTell(Apply(s, step).rt.chan, crew, w)
  {
    hide BooksOk, Handle, Job.Report, EmissionsOf;
    if step.Deliver? {
      Runs.DeliveryChannel(s, step.input);
    } else if step.Post? {
      NoExitArmed(s, step.timer);
    }
  }

  lemma NoExitArmed(s: Orchestration, t: nat)
    requires BooksOk(s, {}) && t in s.rt.firing
    ensures !s.rt.firing[t].ev.WorkerExit?
  {
    hide ChannelOk, WorkersOk, FlagsOk, ClaimsOk;
    assert WellArmed(s.rt.firing[t].ev, t, Alarms(s.retry));
  }

  /** In every run with such workers an undelivered exit is a normal one exactly if the attempt returned
      without an error. */
  lemma {:induction false} ExitTellsResult(first: (Config, string), queued: seq<Event>, steps: seq<Step>, crew: nat -> Job, w: nat)
    requires CanStart(queued) && Legal(Startup(first.0, first.1, queued), steps) && Crewed(steps, crew)
    ensures ExitsTell(Exec(Startup(first.0, first.1, queued), steps).rt.chan, crew, w)
    decreases |steps|
  {
    hide *;
    var s0 := Startup(first.0, first.1, queued);
    StartupBooks(first.0, first.1, queued);
    if steps == [] {
      NoExitQueued(first, queued, crew, w);
    } else {
      var most, last := steps[..|steps| - 1], steps[|steps| - 1];
      Runs.LastStep(s0, steps);
      CrewedPrefix(steps, crew);
      ExitTellsResult(first, queued, most, crew, w);
      RunKeepsBooks(s0, most);
      StepTells(Exec(s0, most), most, last, crew, w);
    }
  }

  lemma NoExitQueued(first: (Config, string), queued: seq<Event>, crew: nat -> Job, w: nat)
    requires CanStart(queued)
    ensures Legal(Startup(first.0, first.1, queued), []) && ExitsTell(Exec(Startup(first.0, first.1, queued), []).rt.chan, crew, w)
  {
    assert forall i :: 0 <= i < |queued| ==> queued[i] in queued;
  }
}
