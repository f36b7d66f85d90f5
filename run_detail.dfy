/** The run detail page: the per-step timeline derived from a run, the event list fed
    by the simulator's callbacks, and the two triggers that hand a run to the simulator. */
module RunDetailPage {
  import opened Domain
  import opened RunSimulation
  import RunScenario

  datatype StepStatus = StepPending | StepCompleted | StepRunning | StepAwaiting

  /** `run.current_step` is truthy: a step is recorded and it is not 0. */
  predicate HasCurrentStep(run: Run)
  {
    run.currentStep.Some? && run.currentStep.value != 0
  }

  /** getStepStatus: how step `n` of the timeline is drawn for `run`. */
  function GetStepStatus(run: Run, n: int): (r: StepStatus)
    ensures !HasCurrentStep(run) ==> r == StepPending
    ensures r == StepCompleted <==> HasCurrentStep(run) && n < run.currentStep.value
    ensures r == StepAwaiting <==>
              HasCurrentStep(run) && n == run.currentStep.value && n == GATE_STEP && run.status == AwaitingApproval
    ensures r == StepRunning <==>
              HasCurrentStep(run) && n == run.currentStep.value && !(n == GATE_STEP && run.status == AwaitingApproval)
    ensures r == StepPending <==> !HasCurrentStep(run) || n > run.currentStep.value
  {
    if !HasCurrentStep(run) then StepPending
    else if n < run.currentStep.value then StepCompleted
    else if n == run.currentStep.value then
      if run.status == AwaitingApproval && n == GATE_STEP then StepAwaiting else StepRunning
    else StepPending
  }

  predicate IsActive(st: StepStatus)
  {
    st == StepRunning || st == StepAwaiting
  }

  /** The timeline: one status per row of the step table. */
  function Timeline(run: Run, steps: seq<RunStep>): (r: seq<StepStatus>)
    ensures |r| == |steps|
    ensures forall k :: 0 <= k < |steps| ==> r[k] == GetStepStatus(run, steps[k].step)
  {
    if steps == [] then [] else [GetStepStatus(run, steps[0].step)] + Timeline(run, steps[1..])
  }

  predicate IncreasingSteps(steps: seq<RunStep>)
  {
    forall a, b :: 0 <= a < b < |steps| ==> steps[a].step < steps[b].step
  }

  /** Over a table with increasing step numbers the timeline reads completed rows, then at
      most one running or awaiting row, then pending rows. */
  lemma TimelineIsOrdered(run: Run, steps: seq<RunStep>)
    requires IncreasingSteps(steps)
    ensures var r := Timeline(run, steps);
            && (forall a, b :: 0 <= a < b < |r| ==> !(IsActive(r[a]) && IsActive(r[b])))
            && (forall a, b :: 0 <= a < b < |r| && r[b] != StepPending ==> r[a] == StepCompleted)
  {
  }

  /** A run the simulator holds at the gate shows steps 1 to 7 completed, step 8 awaiting
      approval and steps 9 and 10 pending. */
  lemma GateTimeline(base: Run, started: Time, steps: seq<RunStep>)
    requires RunScenario.StepTable(steps)
    ensures var r := Timeline(RunScenario.GateRun(base, started), steps);
            forall k :: 0 <= k < |r| ==>
              r[k] == if k < GATE_STEP - 1 then StepCompleted else if k == GATE_STEP - 1 then StepAwaiting else StepPending
  {
  }

  /** While the start chain is between steps, the step last processed shows as running. */
  lemma ChainTimeline(base: Run, started: Time, c: nat, steps: seq<RunStep>)
    requires RunScenario.StepTable(steps) && 1 <= c < GATE_STEP
    ensures var r := Timeline(RunScenario.ChainRun(base, started, c), steps);
            forall k :: 0 <= k < |r| ==>
              r[k] == if k < c - 1 then StepCompleted else if k == c - 1 then StepRunning else StepPending
  {
  }

  /** A completed run still shows its last step as running: the status of the run plays
      no part unless the run waits at the gate. */
  lemma CompletedTimeline(base: Run, finished: Time, sc: Score, md: string, steps: seq<RunStep>)
    requires RunScenario.StepTable(steps)
    ensures var r := Timeline(RunScenario.CompletedRun(base, finished, sc, md), steps);
            && (forall k :: 0 <= k < |r| - 1 ==> r[k] == StepCompleted)
            && r[|r| - 1] == StepRunning
  {
  }

  /** handleNewEvent: the page's list with `e` appended. */
  function HandleNewEvent(prev: seq<Event>, e: Event): (r: seq<Event>)
    ensures |r| == |prev| + 1 && r[..|prev|] == prev && r[|prev|] == e
  {
    prev + [e]
  }

  /** The page's list after the simulator's callbacks in `notices` have been delivered:
      onEvent appends, onRunUpdate leaves the list alone. */
  function Received(prev: seq<Event>, notices: seq<Notice>): (r: seq<Event>)
    ensures |prev| <= |r| <= |prev| + |notices| && r[..|prev|] == prev
    decreases |notices|
  {
    if notices == [] then prev
    else match notices[0]
      case EventEmitted(e) => Received(HandleNewEvent(prev, e), notices[1..])
      case RunUpdated(_) => Received(prev, notices[1..])
  }

  lemma {:induction false} ReceivedAppend(prev: seq<Event>, a: seq<Notice>, b: seq<Notice>)
    ensures Received(prev, a + b) == Received(Received(prev, a), b)
    decreases |a|
  {
    if a == [] {
      assert a + b == b;
    } else {
      assert (a + b)[1..] == a[1..] + b;
      match a[0]
      case EventEmitted(e) => ReceivedAppend(HandleNewEvent(prev, e), a[1..], b);
      case RunUpdated(_) => ReceivedAppend(prev, a[1..], b);
    }
  }

  /** The callbacks of one step of the start chain give the page exactly the events the
      step stored, in the same order. */
  lemma StartStepMirrored(s: Sim, steps: seq<RunStep>, runId: string, cursor: nat, now: Time, prev: seq<Event>)
    ensures var r := StartProcessStep(s, steps, runId, cursor, now);
            && |r.events| >= |s.events| && |r.outbox| >= |s.outbox|
            && Received(prev, r.outbox[|s.outbox|..]) == prev + r.events[|s.events|..]
  {
    var r := StartProcessStep(s, steps, runId, cursor, now);
    if cursor < |steps| && IndexOf(s.runs, runId).Some? {
      var e := StepEvent(runId, steps[cursor], now);
      if steps[cursor].step == GATE_STEP {
        var w := WaitEvent(runId, now);
        assert r.events[|s.events|..] == [e, w];
        var held := r.runs[IndexOf(s.runs, runId).value];
        var sent := [EventEmitted(e), RunUpdated(held), EventEmitted(w)];
        assert r.outbox[|s.outbox|..] == sent;
        assert sent[1..] == [RunUpdated(held), EventEmitted(w)] && sent[1..][1..] == [EventEmitted(w)];
        assert Received(prev, sent) == Received(prev + [e], [EventEmitted(w)]);
        assert [EventEmitted(w)][1..] == [];
        assert Received(prev + [e], [EventEmitted(w)]) == prev + [e] + [w];
      } else {
        assert r.events[|s.events|..] == [e];
        var run := r.runs[IndexOf(s.runs, runId).value];
        var sent := [EventEmitted(e), RunUpdated(run)];
        assert r.outbox[|s.outbox|..] == sent;
        assert sent[1..] == [RunUpdated(run)] && sent[1..][1..] == [];
        assert Received(prev, sent) == prev + [e];
      }
    } else {
      assert r.events[|s.events|..] == [] && r.outbox[|s.outbox|..] == [];
    }
  }

  /** startRunSimulation's callbacks give the page exactly the events it stored. */
  lemma StartMirrored(s: Sim, steps: seq<RunStep>, runId: string, now: Time, prev: seq<Event>)
    ensures var r := Start(s, steps, runId, now);
            && |r.events| >= |s.events| && |r.outbox| >= |s.outbox|
            && Received(prev, r.outbox[|s.outbox|..]) == prev + r.events[|s.events|..]
  {
    var r := Start(s, steps, runId, now);
    if IndexOf(s.runs, runId).Some? {
      var i := IndexOf(s.runs, runId).value;
      var run := s.runs[i].(status := Running, startedAt := Some(now), currentStep := Some(1));
      var s1 := s.(runs := s.runs[i := run], outbox := s.outbox + [RunUpdated(run)]);
      StartStepMirrored(s1, steps, runId, 0, now, prev);
      assert r.outbox[|s.outbox|..] == [RunUpdated(run)] + r.outbox[|s1.outbox|..];
      ReceivedAppend(prev, [RunUpdated(run)], r.outbox[|s1.outbox|..]);
    } else {
      assert r.events[|s.events|..] == [] && r.outbox[|s.outbox|..] == [];
    }
  }

  /** A resumed step's callbacks give the page only the new step's event, while the store
      receives the captured array plus that event: the two agree exactly when nothing was
      logged since approval. */
  lemma ResumeStepMirroredIffCurrent(s: Sim, steps: seq<RunStep>, report: ReportFn, runId: string,
                                     cursor: nat, log: seq<Event>, now: Time)
    requires cursor < |steps| && IndexOf(s.runs, runId).Some?
    ensures var r := ResumeProcessStep(s, steps, report, runId, cursor, log, now);
            Received(s.events, r.outbox[|s.outbox|..]) == r.events <==> log == s.events
  {
    var r := ResumeProcessStep(s, steps, report, runId, cursor, log, now);
    var e := StepEvent(runId, steps[cursor], now);
    var run := r.runs[IndexOf(s.runs, runId).value];
    var sent := [EventEmitted(e), RunUpdated(run)];
    assert r.outbox[|s.outbox|..] == sent;
    assert sent[1..] == [RunUpdated(run)] && sent[1..][1..] == [];
    assert Received(s.events, sent) == s.events + [e];
    assert r.events == log + [e];
    if s.events + [e] == log + [e] {
      assert s.events == (s.events + [e])[..|s.events|];
      assert log == (log + [e])[..|log|];
    }
  }

  /** `runId` is truthy: present and not the empty string. */
  predicate Truthy(runId: Option<string>)
  {
    runId.Some? && runId.value != ""
  }

  /** The start effect fires for a loaded run that is queued, under a truthy id. */
  predicate StartTriggered(run: Option<Run>, runId: Option<string>)
  {
    run.Some? && run.value.status == Queued && Truthy(runId)
  }

  /** The start effect: the simulator state after it ran. */
  function StartEffect(s: Sim, steps: seq<RunStep>, run: Option<Run>, runId: Option<string>, now: Time): (r: Sim)
    ensures !StartTriggered(run, runId) ==> r == s
    ensures StartTriggered(run, runId) ==> r == Start(s, steps, runId.value, now)
  {
    if run.Some? && run.value.status == Queued && runId.Some? && runId.value != "" then
      Start(s, steps, runId.value, now)
    else s
  }

  /** handleApprove: continueAfterApproval under a truthy id; nothing otherwise. */
  function HandleApprove(s: Sim, runId: Option<string>, now: Time): (r: Sim)
    ensures !Truthy(runId) ==> r == s
    ensures Truthy(runId) ==> r == Resume(s, runId.value, now)
  {
    if runId.None? || runId.value == "" then s else Resume(s, runId.value, now)
  }

  /** One step of the start chain never puts a run back into the queue. */
  lemma StartStepNeverQueues(s: Sim, steps: seq<RunStep>, runId: string, cursor: nat, now: Time, j: nat)
    requires j < |s.runs| && s.runs[j].status != Queued
    ensures var r := StartProcessStep(s, steps, runId, cursor, now);
            j < |r.runs| && r.runs[j].status != Queued
  {
  }

  /** Once started, the run the page reloads is no longer queued, so the start effect does
      not fire a second time for it. */
  lemma StartedRunNotRetriggered(s: Sim, steps: seq<RunStep>, runId: string, now: Time, later: Time)
    requires IndexOf(s.runs, runId).Some? && runId != ""
    ensures var r := Start(s, steps, runId, now);
            var i := IndexOf(s.runs, runId).value;
            && i < |r.runs|
            && StartEffect(r, steps, Some(r.runs[i]), Some(runId), later) == r
  {
    var i := IndexOf(s.runs, runId).value;
    var run := s.runs[i].(status := Running, startedAt := Some(now), currentStep := Some(1));
    StartStepNeverQueues(s.(runs := s.runs[i := run], outbox := s.outbox + [RunUpdated(run)]), steps, runId, 0, now, i);
  }
}
