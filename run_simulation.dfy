/** The pipeline run simulator (run-simulation.ts).

    The stored runs, the stored event log and the stored check list are fields of one
    state; every setTimeout becomes a pending `Timer` whose firing is an explicit `Tick`;
    the module-level `activeSimulation` handle is `active`; the two callbacks append to
    `outbox`, in the order the source calls them. The transition functions below say what
    each entry point and each timer firing does to that state; class `Simulator` performs
    the same steps in place and is proved to reach exactly the state they describe. */
module RunSimulation {
  import opened Domain
  import Scoring

  const PR_URL: string := "https://github.com/shipdojo/demo-vibecoded-app/pull/42"
  const CI_URL: string := "https://github.com/shipdojo/demo-vibecoded-app/actions/runs/123456"
  const PREVIEW_URL: string := "https://demo-vibecoded-app.vercel.app"
  const WAIT_MESSAGE: string := "Waiting for Dojo Gate approval..."
  const APPROVED_MESSAGE: string := "Dojo Gate approved! Continuing..."

  /** Step that opens the pull request and attaches the PR and CI links. */
  const PR_STEP: nat := 7
  /** Step at which automatic progression stops for the Dojo Gate. */
  const GATE_STEP: nat := 8
  /** Step number carried by the completion event. */
  const FINAL_STEP: nat := 10
  /** Index in the step table at which resumption continues (step 9). */
  const RESUME_CURSOR: nat := 8
  /** Delay before the first resumed step. */
  const RESUME_DELAY: int := 500
  /** Timer handles are positive, so a stored handle is always truthy. */
  const FIRST_HANDLE: nat := 1

  /** generateReportMarkdown, which is not part of this model: any function that
      returns a non-empty document. */
  type ReportFn = f: (Score, seq<Check>) -> string | forall sc, cs :: f(sc, cs) != []
    witness (sc: Score, cs: seq<Check>) => "#"

  /** The closure a pending timer will run: the `processStep` of startRunSimulation with
      its cursor, or that of continueAfterApproval with its cursor and the event array it
      captured when approval was given. */
  datatype Action =
    | StartChain(runId: string, cursor: nat)
    | ResumeChain(runId: string, cursor: nat, log: seq<Event>)

  datatype Timer = Timer(handle: nat, action: Action, delay: int)

  /** One callback invocation: onRunUpdate with a copy of the run, or onEvent. */
  datatype Notice = RunUpdated(run: Run) | EventEmitted(event: Event)

  datatype Sim = Sim(
    runs: seq<Run>,
    events: seq<Event>,
    checks: seq<Check>,
    timers: seq<Timer>,
    active: Option<nat>,
    nextHandle: nat,
    outbox: seq<Notice>)

  predicate HandlesIncrease(timers: seq<Timer>)
  {
    forall a, b :: 0 <= a < b < |timers| ==> timers[a].handle < timers[b].handle
  }

  /** Handles are issued in increasing order and never reused. */
  predicate Wellformed(s: Sim)
  {
    && s.nextHandle >= FIRST_HANDLE
    && (forall k :: 0 <= k < |s.timers| ==> FIRST_HANDLE <= s.timers[k].handle < s.nextHandle)
    && HandlesIncrease(s.timers)
    && (s.active.Some? ==> FIRST_HANDLE <= s.active.value < s.nextHandle)
  }

  // ----- events -----

  function EventId(now: Time, suffix: string): string
  {
    "event-" + Decimal(now) + "-" + suffix
  }

  /** `${step.name}...` at info level, tagged with the step's number. */
  function StepEvent(runId: string, step: RunStep, now: Time): (e: Event)
    ensures e.runId == runId && e.ts == now && e.level == Info && e.step == step.step
    ensures e.message == step.name + "..."
  {
    Event(EventId(now, Decimal(step.step)), runId, now, Info, step.step, step.name + "...")
  }

  /** The warning logged when a run stops at the approval gate. */
  function WaitEvent(runId: string, now: Time): (e: Event)
    ensures e.runId == runId && e.ts == now && e.level == Warn && e.step == GATE_STEP
    ensures e.message == WAIT_MESSAGE
  {
    Event(EventId(now, "wait"), runId, now, Warn, GATE_STEP, WAIT_MESSAGE)
  }

  /** The note logged when the gate is approved. */
  function ApprovedEvent(runId: string, now: Time): (e: Event)
    ensures e.runId == runId && e.ts == now && e.level == Info && e.step == GATE_STEP
    ensures e.message == APPROVED_MESSAGE
  {
    Event(EventId(now, "approved"), runId, now, Info, GATE_STEP, APPROVED_MESSAGE)
  }

  /** How a score prints inside a template literal. */
  function ScoreText(sc: Score): string
  {
    match sc
    case Points(n) => Decimal(n)
    case NotANumber => "NaN"
  }

  /** The closing event, which quotes the score out of 100. */
  function CompleteEvent(runId: string, sc: Score, now: Time): (e: Event)
    ensures e.runId == runId && e.ts == now && e.level == Info && e.step == FINAL_STEP
    ensures e.message == "Run completed with score " + ScoreText(sc) + "/100"
  {
    Event(EventId(now, "complete"), runId, now, Info, FINAL_STEP,
          "Run completed with score " + ScoreText(sc) + "/100")
  }

  // ----- lookups -----

  /** findIndex / find by id: the position of the first run with this id. */
  function IndexOf(runs: seq<Run>, id: string): (r: Option<nat>)
    ensures r.Some? ==> r.value < |runs| && runs[r.value].id == id
    ensures r.Some? ==> forall j :: 0 <= j < r.value ==> runs[j].id != id
    ensures r.None? <==> forall j :: 0 <= j < |runs| ==> runs[j].id != id
  {
    if runs == [] then None
    else if runs[0].id == id then Some(0)
    else match IndexOf(runs[1..], id)
      case None => None
      case Some(k) => Some(k + 1)
  }

  /** Replacing a run by one with the same id does not move any lookup. */
  lemma {:induction false} IndexOfUpdate(runs: seq<Run>, i: nat, run: Run, id: string)
    requires i < |runs| && run.id == runs[i].id
    ensures IndexOf(runs[i := run], id) == IndexOf(runs, id)
  {
    if i == 0 {
      assert runs[i := run][1..] == runs[1..];
    } else {
      assert runs[i := run][1..] == runs[1..][i - 1 := run];
      IndexOfUpdate(runs[1..], i - 1, run, id);
    }
  }

  // ----- timers -----

  /** `activeSimulation = setTimeout(...)`: a new pending timer that becomes the active one. */
  function Schedule(s: Sim, action: Action, delay: int): (r: Sim)
    ensures r.timers == s.timers + [Timer(s.nextHandle, action, delay)]
    ensures r.active == Some(s.nextHandle) && r.nextHandle == s.nextHandle + 1
    ensures r.runs == s.runs && r.events == s.events && r.checks == s.checks && r.outbox == s.outbox
  {
    s.(timers := s.timers + [Timer(s.nextHandle, action, delay)],
       active := Some(s.nextHandle),
       nextHandle := s.nextHandle + 1)
  }

  /** A bare `setTimeout(...)` whose handle is not kept. */
  function ScheduleUntracked(s: Sim, action: Action, delay: int): (r: Sim)
    ensures r.timers == s.timers + [Timer(s.nextHandle, action, delay)]
    ensures r.active == s.active && r.nextHandle == s.nextHandle + 1
    ensures r.runs == s.runs && r.events == s.events && r.checks == s.checks && r.outbox == s.outbox
  {
    s.(timers := s.timers + [Timer(s.nextHandle, action, delay)],
       nextHandle := s.nextHandle + 1)
  }

  /** clearTimeout: the pending timers without the one carrying handle `h`. */
  function WithoutHandle(timers: seq<Timer>, h: nat): (r: seq<Timer>)
    ensures |r| <= |timers|
    ensures forall t :: t in r <==> t in timers && t.handle != h
    ensures HandlesIncrease(timers) ==> HandlesIncrease(r)
  {
    if timers == [] then []
    else if timers[0].handle == h then WithoutHandle(timers[1..], h)
    else [timers[0]] + WithoutHandle(timers[1..], h)
  }

  /** The pending timers once the one at position `k` has fired. */
  function RemoveAt(timers: seq<Timer>, k: nat): (r: seq<Timer>)
    requires k < |timers|
    ensures |r| == |timers| - 1
    ensures forall j :: 0 <= j < |r| ==> r[j] == timers[if j < k then j else j + 1]
  {
    timers[..k] + timers[k + 1..]
  }

  /** With increasing handles, the fired timer's handle is no longer pending. */
  lemma RemoveAtDropsFired(timers: seq<Timer>, k: nat)
    requires k < |timers| && HandlesIncrease(timers)
    ensures forall t :: t in RemoveAt(timers, k) ==> t.handle != timers[k].handle
  {
    var r := RemoveAt(timers, k);
    forall t | t in r
      ensures t.handle != timers[k].handle
    {
      var j :| 0 <= j < |r| && r[j] == t;
      if j < k {
        assert timers[j].handle < timers[k].handle;
      } else {
        assert timers[k].handle < timers[j + 1].handle;
      }
    }
  }

  // ----- what a step leaves alone -----

  /** From `s` to `r` only the first run with id `runId` may change, and it keeps its id;
      the check list stays; callbacks and timer handles are only added. */
  predicate OnlyRunChanges(s: Sim, r: Sim, runId: string)
  {
    && |r.runs| == |s.runs|
    && (match IndexOf(s.runs, runId)
        case None => r.runs == s.runs
        case Some(i) => r.runs == s.runs[i := r.runs[i]] && r.runs[i].id == runId)
    && r.checks == s.checks
    && |s.outbox| <= |r.outbox| && r.outbox[..|s.outbox|] == s.outbox
    && s.nextHandle <= r.nextHandle
  }

  /** `after` is `before` with entries added at the end. */
  predicate Appended<T(==)>(before: seq<T>, after: seq<T>)
  {
    |before| <= |after| && after[..|before|] == before
  }

  // ----- startRunSimulation -----

  /** startRunSimulation: mark the run running at step 1, report it, then process the
      first step at once. */
  function Start(s: Sim, steps: seq<RunStep>, runId: string, now: Time): (r: Sim)
    ensures IndexOf(s.runs, runId).None? ==> r == s
    ensures OnlyRunChanges(s, r, runId)
    ensures Appended(s.events, r.events) && Appended(s.timers, r.timers)
    ensures forall k :: |s.events| <= k < |r.events| ==> r.events[k].runId == runId
  {
    match IndexOf(s.runs, runId)
    case None => s
    case Some(i) =>
      var run := s.runs[i].(status := Running, startedAt := Some(now), currentStep := Some(1));
      StartProcessStep(s.(runs := s.runs[i := run], outbox := s.outbox + [RunUpdated(run)]),
                       steps, runId, 0, now)
  }

  /** The `processStep` closure of startRunSimulation, run with cursor `cursor`. */
  function StartProcessStep(s: Sim, steps: seq<RunStep>, runId: string, cursor: nat, now: Time): (r: Sim)
    ensures (cursor >= |steps| || IndexOf(s.runs, runId).None?) ==> r == s
    ensures OnlyRunChanges(s, r, runId)
    ensures Appended(s.events, r.events) && Appended(s.timers, r.timers)
    ensures forall k :: |s.events| <= k < |r.events| ==> r.events[k].runId == runId
  {
    if cursor >= |steps| then s
    else
      match IndexOf(s.runs, runId)
      case None => s
      case Some(i) =>
        var step := steps[cursor];
        var e := StepEvent(runId, step, now);
        var run := s.runs[i].(currentStep := Some(step.step));
        var run := if step.step == PR_STEP then run.(prUrl := Some(PR_URL), ciUrl := Some(CI_URL)) else run;
        if step.step == GATE_STEP then
          var held := run.(status := AwaitingApproval);
          var w := WaitEvent(runId, now);
          s.(runs := s.runs[i := held],
             events := s.events + [e, w],
             outbox := s.outbox + [EventEmitted(e), RunUpdated(held), EventEmitted(w)])
        else
          var s' := s.(runs := s.runs[i := run],
                       events := s.events + [e],
                       outbox := s.outbox + [EventEmitted(e), RunUpdated(run)]);
          if cursor + 1 < |steps| && step.duration > 0 then
            Schedule(s', StartChain(runId, cursor + 1), step.duration)
          else s'
  }

  // ----- continueAfterApproval -----

  /** continueAfterApproval: mark the run running, log the approval, and schedule
      step 9 after a fixed delay. */
  function Resume(s: Sim, runId: string, now: Time): (r: Sim)
    ensures IndexOf(s.runs, runId).None? ==> r == s
    ensures OnlyRunChanges(s, r, runId)
    ensures Appended(s.events, r.events) && Appended(s.timers, r.timers)
    ensures forall k :: |s.events| <= k < |r.events| ==> r.events[k].runId == runId
    // a known run gets the approval note and one pending timer, which captures the log
    ensures IndexOf(s.runs, runId).Some? ==>
              && |r.events| == |s.events| + 1
              && r.timers == s.timers + [Timer(s.nextHandle, ResumeChain(runId, RESUME_CURSOR, r.events), RESUME_DELAY)]
              && r.active == Some(s.nextHandle)
  {
    match IndexOf(s.runs, runId)
    case None => s
    case Some(i) =>
      var run := s.runs[i].(status := Running);
      var a := ApprovedEvent(runId, now);
      var log := s.events + [a];
      Schedule(s.(runs := s.runs[i := run], events := log, outbox := s.outbox + [RunUpdated(run), EventEmitted(a)]),
               ResumeChain(runId, RESUME_CURSOR, log), RESUME_DELAY)
  }

  /** The `processStep` closure of continueAfterApproval: process one more step, or,
      past the end of the table, finalise the run. Events are appended to the array the
      closure captured (`log`), which is then stored. */
  function ResumeProcessStep(s: Sim, steps: seq<RunStep>, report: ReportFn, runId: string,
                             cursor: nat, log: seq<Event>, now: Time): (r: Sim)
    ensures IndexOf(s.runs, runId).None? ==> r == s
    ensures OnlyRunChanges(s, r, runId)
    ensures Appended(s.timers, r.timers)
    // the stored log is the captured one plus one event of this run, whatever was stored before
    ensures IndexOf(s.runs, runId).Some? ==>
              |r.events| == |log| + 1 && r.events[..|log|] == log && r.events[|log|].runId == runId
  {
    match IndexOf(s.runs, runId)
    case None => s
    case Some(i) =>
      if cursor >= |steps| then
        var sc := Scoring.CalculateScore(s.checks);
        var run := s.runs[i].(status := Completed, finishedAt := Some(now), previewUrl := Some(PREVIEW_URL),
                              score := Some(sc), reportMd := Some(report(sc, s.checks)));
        var c := CompleteEvent(runId, sc, now);
        s.(runs := s.runs[i := run], events := log + [c], outbox := s.outbox + [RunUpdated(run), EventEmitted(c)])
      else
        var step := steps[cursor];
        var e := StepEvent(runId, step, now);
        var log' := log + [e];
        var run := s.runs[i].(currentStep := Some(step.step));
        var s' := s.(runs := s.runs[i := run], events := log', outbox := s.outbox + [EventEmitted(e), RunUpdated(run)]);
        if cursor + 1 < |steps| && step.duration > 0 then
          Schedule(s', ResumeChain(runId, cursor + 1, log'), step.duration)
        else if cursor + 1 >= |steps| then
          ScheduleUntracked(s', ResumeChain(runId, cursor + 1, log'), step.duration)
        else s'
  }

  // ----- timers firing, stopSimulation -----

  /** Pending timer `k` fires: it leaves the pending list and its closure runs. The
      `active` handle is left as it was, as a fired JavaScript timer leaves it. */
  function Fire(s: Sim, steps: seq<RunStep>, report: ReportFn, k: nat, now: Time): (r: Sim)
    requires k < |s.timers|
    ensures OnlyRunChanges(s, r, s.timers[k].action.runId)
    ensures r.active == s.active || r.active == Some(s.nextHandle)
    // the fired timer is gone; the others still wait, in their order, before any new one
    ensures |r.timers| >= |s.timers| - 1 && r.timers[..|s.timers| - 1] == RemoveAt(s.timers, k)
  {
    var rest := s.(timers := RemoveAt(s.timers, k));
    match s.timers[k].action
    case StartChain(id, c) => StartProcessStep(rest, steps, id, c, now)
    case ResumeChain(id, c, log) => ResumeProcessStep(rest, steps, report, id, c, log, now)
  }

  /** stopSimulation: cancel the timer held in `active`, if any, and forget the handle. */
  function Stop(s: Sim): (r: Sim)
    ensures r.active.None?
    ensures r.runs == s.runs && r.events == s.events && r.checks == s.checks && r.outbox == s.outbox
    ensures r.nextHandle == s.nextHandle
    ensures forall t :: t in r.timers <==> t in s.timers && (s.active.Some? ==> t.handle != s.active.value)
  {
    match s.active
    case None => s
    case Some(h) => s.(timers := WithoutHandle(s.timers, h), active := None)
  }

  // ----- the invariant is kept -----

  lemma ScheduleKeepsWellformed(s: Sim, action: Action, delay: int)
    requires Wellformed(s)
    ensures Wellformed(Schedule(s, action, delay)) && Wellformed(ScheduleUntracked(s, action, delay))
  {
  }

  lemma StartProcessStepKeepsWellformed(s: Sim, steps: seq<RunStep>, runId: string, cursor: nat, now: Time)
    requires Wellformed(s)
    ensures Wellformed(StartProcessStep(s, steps, runId, cursor, now))
  {
    if cursor < |steps| && IndexOf(s.runs, runId).Some? && steps[cursor].step != GATE_STEP {
      var i := IndexOf(s.runs, runId).value;
      var step := steps[cursor];
      var run0 := s.runs[i].(currentStep := Some(step.step));
      var run := if step.step == PR_STEP then run0.(prUrl := Some(PR_URL), ciUrl := Some(CI_URL)) else run0;
      var e := StepEvent(runId, step, now);
      ScheduleKeepsWellformed(s.(runs := s.runs[i := run], events := s.events + [e],
                                 outbox := s.outbox + [EventEmitted(e), RunUpdated(run)]),
                              StartChain(runId, cursor + 1), step.duration);
    }
  }

  lemma ResumeProcessStepKeepsWellformed(s: Sim, steps: seq<RunStep>, report: ReportFn, runId: string,
                                         cursor: nat, log: seq<Event>, now: Time)
    requires Wellformed(s)
    ensures Wellformed(ResumeProcessStep(s, steps, report, runId, cursor, log, now))
  {
    if cursor < |steps| && IndexOf(s.runs, runId).Some? {
      var i := IndexOf(s.runs, runId).value;
      var step := steps[cursor];
      var e := StepEvent(runId, step, now);
      var run := s.runs[i].(currentStep := Some(step.step));
      ScheduleKeepsWellformed(s.(runs := s.runs[i := run], events := log + [e],
                                 outbox := s.outbox + [EventEmitted(e), RunUpdated(run)]),
                              ResumeChain(runId, cursor + 1, log + [e]), step.duration);
    }
  }

  lemma RemoveAtKeepsWellformed(s: Sim, k: nat)
    requires Wellformed(s) && k < |s.timers|
    ensures Wellformed(s.(timers := RemoveAt(s.timers, k)))
  {
    var r := RemoveAt(s.timers, k);
    forall a, b | 0 <= a < b < |r|
      ensures r[a].handle < r[b].handle
    {
      var a' := if a < k then a else a + 1;
      var b' := if b < k then b else b + 1;
      assert r[a] == s.timers[a'] && r[b] == s.timers[b'];
    }
    forall a | 0 <= a < |r|
      ensures FIRST_HANDLE <= r[a].handle < s.nextHandle
    {
      assert r[a] == s.timers[if a < k then a else a + 1];
    }
  }

  lemma StartKeepsWellformed(s: Sim, steps: seq<RunStep>, runId: string, now: Time)
    requires Wellformed(s)
    ensures Wellformed(Start(s, steps, runId, now))
  {
    if IndexOf(s.runs, runId).Some? {
      var i := IndexOf(s.runs, runId).value;
      var run := s.runs[i].(status := Running, startedAt := Some(now), currentStep := Some(1));
      StartProcessStepKeepsWellformed(s.(runs := s.runs[i := run], outbox := s.outbox + [RunUpdated(run)]),
                                      steps, runId, 0, now);
    }
  }

  lemma ResumeKeepsWellformed(s: Sim, runId: string, now: Time)
    requires Wellformed(s)
    ensures Wellformed(Resume(s, runId, now))
  {
  }

  lemma FireKeepsWellformed(s: Sim, steps: seq<RunStep>, report: ReportFn, k: nat, now: Time)
    requires Wellformed(s) && k < |s.timers|
    ensures Wellformed(Fire(s, steps, report, k, now))
  {
    var rest := s.(timers := RemoveAt(s.timers, k));
    RemoveAtKeepsWellformed(s, k);
    match s.timers[k].action
    case StartChain(id, c) => StartProcessStepKeepsWellformed(rest, steps, id, c, now);
    case ResumeChain(id, c, log) => ResumeProcessStepKeepsWellformed(rest, steps, report, id, c, log, now);
  }

  lemma StopKeepsWellformed(s: Sim)
    requires Wellformed(s)
    ensures Wellformed(Stop(s))
  {
    if s.active.Some? {
      var r := WithoutHandle(s.timers, s.active.value);
      forall k | 0 <= k < |r|
        ensures FIRST_HANDLE <= r[k].handle < s.nextHandle
      {
        assert r[k] in s.timers;
      }
    }
  }

  // ----- the simulator as an object -----

  /** The simulator with its stored state, updated in place as the source does. */
  class Simulator {
    /** RUN_STEPS. */
    const steps: seq<RunStep>
    const report: ReportFn

    var runs: seq<Run>
    var events: seq<Event>
    var checks: seq<Check>
    var timers: seq<Timer>
    var active: Option<nat>
    var nextHandle: nat
    var outbox: seq<Notice>

    function State(): Sim
      reads this
    {
      Sim(runs, events, checks, timers, active, nextHandle, outbox)
    }

    ghost predicate Valid()
      reads this
    {
      Wellformed(State())
    }

    constructor (steps: seq<RunStep>, report: ReportFn, runs: seq<Run>, events: seq<Event>, checks: seq<Check>)
      ensures Valid()
      ensures this.steps == steps && this.report == report
      ensures State() == Sim(runs, events, checks, [], None, FIRST_HANDLE, [])
    {
      this.steps := steps;
      this.report := report;
      this.runs := runs;
      this.events := events;
      this.checks := checks;
      timers := [];
      active := None;
      nextHandle := FIRST_HANDLE;
      outbox := [];
    }

    method ScheduleTimer(action: Action, delay: int, tracked: bool)
      requires Valid()
      modifies this
      ensures Valid()
      ensures State() == if tracked then Schedule(old(State()), action, delay)
                         else ScheduleUntracked(old(State()), action, delay)
    {
      ScheduleKeepsWellformed(State(), action, delay);
      timers := timers + [Timer(nextHandle, action, delay)];
      if tracked {
        active := Some(nextHandle);
      }
      nextHandle := nextHandle + 1;
    }

    /** startRunSimulation(runId). */
    method StartRunSimulation(runId: string, now: Time)
      requires Valid()
      modifies this
      ensures Valid()
      ensures State() == Start(old(State()), steps, runId, now)
    {
      var found := IndexOf(runs, runId);
      if found.None? {
        return;
      }
      var i := found.value;
      var run := runs[i];
      run := run.(status := Running, startedAt := Some(now), currentStep := Some(1));
      runs := runs[i := run];
      outbox := outbox + [RunUpdated(run)];
      ProcessStartStep(runId, 0, now);
    }

    /** The `processStep` closure of startRunSimulation. */
    method ProcessStartStep(runId: string, cursor: nat, now: Time)
      requires Valid()
      modifies this
      ensures Valid()
      ensures State() == StartProcessStep(old(State()), steps, runId, cursor, now)
    {
      StartProcessStepKeepsWellformed(State(), steps, runId, cursor, now);
      if cursor >= |steps| {
        return;
      }
      var step := steps[cursor];
      var found := IndexOf(runs, runId);
      if found.None? {
        return;
      }
      var i := found.value;
      var e := StepEvent(runId, step, now);
      events := events + [e];
      outbox := outbox + [EventEmitted(e)];
      var run := runs[i].(currentStep := Some(step.step));
      if step.step == PR_STEP {
        run := run.(prUrl := Some(PR_URL), ciUrl := Some(CI_URL));
      }
      if step.step == GATE_STEP {
        run := run.(status := AwaitingApproval);
        runs := runs[i := run];
        outbox := outbox + [RunUpdated(run)];
        var w := WaitEvent(runId, now);
        events := events + [w];
        outbox := outbox + [EventEmitted(w)];
        return;
      }
      runs := runs[i := run];
      outbox := outbox + [RunUpdated(run)];
      var next := cursor + 1;
      if next < |steps| && step.duration > 0 {
        ScheduleTimer(StartChain(runId, next), step.duration, true);
      }
    }

    /** continueAfterApproval(runId). */
    method ContinueAfterApproval(runId: string, now: Time)
      requires Valid()
      modifies this
      ensures Valid()
      ensures State() == Resume(old(State()), runId, now)
    {
      var found := IndexOf(runs, runId);
      if found.None? {
        return;
      }
      var i := found.value;
      var run := runs[i].(status := Running);
      runs := runs[i := run];
      outbox := outbox + [RunUpdated(run)];
      var a := ApprovedEvent(runId, now);
      var log := events + [a];
      events := log;
      outbox := outbox + [EventEmitted(a)];
      ScheduleTimer(ResumeChain(runId, RESUME_CURSOR, log), RESUME_DELAY, true);
    }

    /** The `processStep` closure of continueAfterApproval, holding the event array `log`. */
    method ProcessResumeStep(runId: string, cursor: nat, log: seq<Event>, now: Time)
      requires Valid()
      modifies this
      ensures Valid()
      ensures State() == ResumeProcessStep(old(State()), steps, report, runId, cursor, log, now)
    {
      if cursor >= |steps| {
        FinaliseRun(runId, cursor, log, now);
        return;
      }
      ResumeProcessStepKeepsWellformed(State(), steps, report, runId, cursor, log, now);
      var found := IndexOf(runs, runId);
      var step := steps[cursor];
      if found.None? {
        return;
      }
      var i := found.value;
      var e := StepEvent(runId, step, now);
      var log' := log + [e];
      events := log';
      outbox := outbox + [EventEmitted(e)];
      var run := runs[i].(currentStep := Some(step.step));
      runs := runs[i := run];
      outbox := outbox + [RunUpdated(run)];
      var next := cursor + 1;
      if next < |steps| && step.duration > 0 {
        ScheduleTimer(ResumeChain(runId, next, log'), step.duration, true);
      } else if next >= |steps| {
        ScheduleTimer(ResumeChain(runId, next, log'), step.duration, false);
      }
    }

    /** The `processStep` closure of continueAfterApproval past the end of the table:
        complete the run, score it, and store the captured array plus the completion event. */
    method FinaliseRun(runId: string, cursor: nat, log: seq<Event>, now: Time)
      requires Valid() && cursor >= |steps|
      modifies this
      ensures Valid()
      ensures State() == ResumeProcessStep(old(State()), steps, report, runId, cursor, log, now)
    {
      ResumeProcessStepKeepsWellformed(State(), steps, report, runId, cursor, log, now);
      var found := IndexOf(runs, runId);
      if found.Some? {
        var i := found.value;
        var sc := Scoring.CalculateScore(checks);
        var run := runs[i].(status := Completed, finishedAt := Some(now), previewUrl := Some(PREVIEW_URL));
        run := run.(score := Some(sc), reportMd := Some(report(sc, checks)));
        runs := runs[i := run];
        outbox := outbox + [RunUpdated(run)];
        var c := CompleteEvent(runId, sc, now);
        events := log + [c];
        outbox := outbox + [EventEmitted(c)];
      }
    }

    /** Pending timer `k` fires. */
    method Tick(k: nat, now: Time)
      requires Valid() && k < |timers|
      modifies this
      ensures Valid()
      ensures State() == Fire(old(State()), steps, report, k, now)
    {
      var t := timers[k];
      RemoveAtKeepsWellformed(State(), k);
      timers := RemoveAt(timers, k);
      match t.action {
        case StartChain(id, c) => ProcessStartStep(id, c, now);
        case ResumeChain(id, c, log) => ProcessResumeStep(id, c, log, now);
      }
    }

    /** stopSimulation(). */
    method StopSimulation()
      requires Valid()
      modifies this
      ensures Valid()
      ensures State() == Stop(old(State()))
    {
      StopKeepsWellformed(State());
      if active.Some? {
        timers := WithoutHandle(timers, active.value);
        active := None;
      }
    }
  }
}
