/** What one call of the simulator does: each entry point, each timer firing and
    stopSimulation, stated as properties of the transition functions. */
module RunSimulationProperties {
  import opened Domain
  import opened RunSimulation
  import Scoring

  /** startRunSimulation saves nothing and calls no callback exactly when no stored run
      has the id. */
  lemma StartNoopIffUnknown(s: Sim, steps: seq<RunStep>, runId: string, now: Time)
    ensures Start(s, steps, runId, now) == s <==> IndexOf(s.runs, runId).None?
  {
    if IndexOf(s.runs, runId).Some? {
      var i := IndexOf(s.runs, runId).value;
      var run := s.runs[i].(status := Running, startedAt := Some(now), currentStep := Some(1));
      var s1 := s.(runs := s.runs[i := run], outbox := s.outbox + [RunUpdated(run)]);
      StartProcessStepOnlyAppends(s1, steps, runId, 0, now);
    }
  }

  /** A processed step only ever appends to the callback record. */
  lemma StartProcessStepOnlyAppends(s: Sim, steps: seq<RunStep>, runId: string, cursor: nat, now: Time)
    ensures var r := StartProcessStep(s, steps, runId, cursor, now);
            |r.outbox| >= |s.outbox| && r.outbox[..|s.outbox|] == s.outbox
  {
  }

  /** Before its first step, startRunSimulation reports the run as running at step 1 with
      its start time set, whatever status the run had. */
  lemma StartFirstReportsStepOne(s: Sim, steps: seq<RunStep>, runId: string, now: Time)
    requires IndexOf(s.runs, runId).Some?
    ensures var r := Start(s, steps, runId, now);
            var i := IndexOf(s.runs, runId).value;
            |r.outbox| > |s.outbox| &&
            r.outbox[|s.outbox|] == RunUpdated(s.runs[i].(status := Running, startedAt := Some(now), currentStep := Some(1)))
  {
    var i := IndexOf(s.runs, runId).value;
    var run := s.runs[i].(status := Running, startedAt := Some(now), currentStep := Some(1));
    var s1 := s.(runs := s.runs[i := run], outbox := s.outbox + [RunUpdated(run)]);
    StartProcessStepOnlyAppends(s1, steps, runId, 0, now);
  }

  /** startRunSimulation does not look at the run's prior status: a run in any status
      leads to the same outcome. */
  lemma StartIgnoresPriorStatus(s: Sim, steps: seq<RunStep>, runId: string, now: Time, prior: Status)
    requires IndexOf(s.runs, runId).Some?
    ensures var i := IndexOf(s.runs, runId).value;
            Start(s.(runs := s.runs[i := s.runs[i].(status := prior)]), steps, runId, now) ==
            Start(s, steps, runId, now)
  {
    var i := IndexOf(s.runs, runId).value;
    IndexOfUpdate(s.runs, i, s.runs[i].(status := prior), runId);
    var s' := s.(runs := s.runs[i := s.runs[i].(status := prior)]);
    var run := s.runs[i].(status := Running, startedAt := Some(now), currentStep := Some(1));
    assert s'.runs[i].(status := Running, startedAt := Some(now), currentStep := Some(1)) == run;
    assert s'.runs[i := run] == s.runs[i := run];
  }

  /** A step other than the gate step: one info event naming the step, `current_step`
      set to its number, links attached exactly at the PR step, the run reported, and
      the next step scheduled exactly when steps remain and this step has a delay. */
  lemma OrdinaryStepEffect(s: Sim, steps: seq<RunStep>, runId: string, cursor: nat, now: Time)
    requires cursor < |steps| && steps[cursor].step != GATE_STEP
    requires IndexOf(s.runs, runId).Some?
    ensures var r := StartProcessStep(s, steps, runId, cursor, now);
            var i := IndexOf(s.runs, runId).value;
            var step := steps[cursor];
            && |r.runs| == |s.runs|
            && (forall j :: 0 <= j < |s.runs| && j != i ==> r.runs[j] == s.runs[j])
            && r.runs[i].currentStep == Some(step.step)
            && r.runs[i].status == s.runs[i].status
            && (step.step == PR_STEP ==> r.runs[i].prUrl == Some(PR_URL) && r.runs[i].ciUrl == Some(CI_URL))
            && (step.step != PR_STEP ==> r.runs[i].prUrl == s.runs[i].prUrl && r.runs[i].ciUrl == s.runs[i].ciUrl)
            && r.events == s.events + [StepEvent(runId, step, now)]
            && r.outbox == s.outbox + [EventEmitted(StepEvent(runId, step, now)), RunUpdated(r.runs[i])]
            && (cursor + 1 < |steps| && step.duration > 0 ==>
                  r.timers == s.timers + [Timer(s.nextHandle, StartChain(runId, cursor + 1), step.duration)] &&
                  r.active == Some(s.nextHandle))
            && (!(cursor + 1 < |steps| && step.duration > 0) ==> r.timers == s.timers && r.active == s.active)
  {
  }

  /** The gate step: the run waits for approval, a warn event follows the step's info
      event, and nothing further is scheduled. */
  lemma GateStepEffect(s: Sim, steps: seq<RunStep>, runId: string, cursor: nat, now: Time)
    requires cursor < |steps| && steps[cursor].step == GATE_STEP
    requires IndexOf(s.runs, runId).Some?
    ensures var r := StartProcessStep(s, steps, runId, cursor, now);
            var i := IndexOf(s.runs, runId).value;
            && r.runs == s.runs[i := s.runs[i].(currentStep := Some(GATE_STEP), status := AwaitingApproval)]
            && r.events == s.events + [StepEvent(runId, steps[cursor], now), WaitEvent(runId, now)]
            && r.events[|s.events| + 1].level == Warn
            && r.timers == s.timers && r.active == s.active
  {
  }

  /** Events differing only in their id suffix get different ids. */
  lemma EventIdSuffix(now: Time, a: string, b: string)
    ensures EventId(now, a) == EventId(now, b) <==> a == b
  {
    var prefix := "event-" + Decimal(now) + "-";
    if EventId(now, a) == EventId(now, b) {
      assert a == EventId(now, a)[|prefix|..];
      assert b == EventId(now, b)[|prefix|..];
    }
  }

  /** Events logged at the same instant have different ids: the step events of two
      different steps, the wait and the approval events, the completion event and any of
      the others. */
  lemma EventIdsDistinct(runId: string, step: RunStep, other: RunStep, sc: Score, now: Time)
    ensures StepEvent(runId, step, now).id == StepEvent(runId, other, now).id <==> step.step == other.step
    ensures var ids := [StepEvent(runId, step, now).id, WaitEvent(runId, now).id,
                        ApprovedEvent(runId, now).id, CompleteEvent(runId, sc, now).id];
            forall a, b :: 0 <= a < b < |ids| ==> ids[a] != ids[b]
  {
    var suffixes := [Decimal(step.step), "wait", "approved", "complete"];
    DecimalInjective(step.step, other.step);
    EventIdSuffix(now, Decimal(step.step), Decimal(other.step));
    var ids := [StepEvent(runId, step, now).id, WaitEvent(runId, now).id,
                ApprovedEvent(runId, now).id, CompleteEvent(runId, sc, now).id];
    assert forall a :: 0 <= a < |ids| ==> ids[a] == EventId(now, suffixes[a]);
    forall a, b | 0 <= a < b < |ids|
      ensures ids[a] != ids[b]
    {
      // a step number starts with a digit, the other suffixes with distinct letters
      assert IsDigit(suffixes[0][0]);
      assert suffixes[a][0] != suffixes[b][0];
      EventIdSuffix(now, suffixes[a], suffixes[b]);
    }
  }

  /** A timer whose run has disappeared does nothing when it fires, whichever chain it
      belongs to (the finalisation included). */
  lemma MissingRunTickIsNoop(s: Sim, steps: seq<RunStep>, report: ReportFn, runId: string,
                             cursor: nat, log: seq<Event>, now: Time)
    requires IndexOf(s.runs, runId).None?
    ensures StartProcessStep(s, steps, runId, cursor, now) == s
    ensures ResumeProcessStep(s, steps, report, runId, cursor, log, now) == s
  {
  }

  /** The PR and CI links of a run change only when a timer of the start chain processes
      the PR step; the resume chain never touches them. */
  lemma LinksOnlyAtPrStep(s: Sim, steps: seq<RunStep>, report: ReportFn, k: nat, now: Time, j: nat)
    requires k < |s.timers| && j < |s.runs|
    ensures var r := Fire(s, steps, report, k, now);
            |r.runs| == |s.runs| &&
            ((r.runs[j].prUrl != s.runs[j].prUrl || r.runs[j].ciUrl != s.runs[j].ciUrl) ==>
               && s.timers[k].action.StartChain?
               && s.timers[k].action.cursor < |steps|
               && steps[s.timers[k].action.cursor].step == PR_STEP)
  {
  }

  /** continueAfterApproval changes nothing exactly when no stored run has the id. */
  lemma ResumeNoopIffUnknown(s: Sim, runId: string, now: Time)
    ensures Resume(s, runId, now) == s <==> IndexOf(s.runs, runId).None?
  {
    if IndexOf(s.runs, runId).Some? {
      assert |Resume(s, runId, now).outbox| == |s.outbox| + 2;
    }
  }

  /** Approval sets the run running, logs one info event at step 8, and schedules the
      processing of step 9 (table index 8) after 500 ms as the active timer. */
  lemma ResumeEffect(s: Sim, runId: string, now: Time)
    requires IndexOf(s.runs, runId).Some?
    ensures var r := Resume(s, runId, now);
            var i := IndexOf(s.runs, runId).value;
            var a := ApprovedEvent(runId, now);
            && r.runs == s.runs[i := s.runs[i].(status := Running)]
            && r.events == s.events + [a]
            && a.level == Info && a.step == GATE_STEP && a.message == APPROVED_MESSAGE
            && r.timers == s.timers + [Timer(s.nextHandle, ResumeChain(runId, RESUME_CURSOR, r.events), RESUME_DELAY)]
            && r.active == Some(s.nextHandle)
  {
  }

  /** Finalisation: the run is completed with finish time, preview link, the score of the
      stored checks and a non-empty report; one completion event at step 10 names the
      score; nothing further is scheduled. */
  lemma FinaliseEffect(s: Sim, steps: seq<RunStep>, report: ReportFn, runId: string,
                       cursor: nat, log: seq<Event>, now: Time)
    requires cursor >= |steps| && IndexOf(s.runs, runId).Some?
    ensures var r := ResumeProcessStep(s, steps, report, runId, cursor, log, now);
            var i := IndexOf(s.runs, runId).value;
            var sc := Scoring.CalculateScore(s.checks);
            && r.runs[i].status == Completed
            && r.runs[i].finishedAt == Some(now)
            && r.runs[i].previewUrl == Some(PREVIEW_URL)
            && r.runs[i].score == Some(sc)
            && r.runs[i].reportMd.Some? && r.runs[i].reportMd.value != []
            && (s.checks != [] ==> Scoring.BONUS <= sc.n <= Scoring.MAX_SCORE)
            && r.events == log + [CompleteEvent(runId, sc, now)]
            && r.events[|log|].step == FINAL_STEP
            && r.events[|log|].message == "Run completed with score " + ScoreText(sc) + "/100"
            && r.timers == s.timers
  {
  }

  /** The resume chain schedules its next firing as the active timer while steps remain
      and the step has a delay; after the last step it schedules the finalisation on a
      timer it does not record. */
  lemma ResumeStepSchedules(s: Sim, steps: seq<RunStep>, report: ReportFn, runId: string,
                            cursor: nat, log: seq<Event>, now: Time)
    requires cursor < |steps| && IndexOf(s.runs, runId).Some?
    ensures var r := ResumeProcessStep(s, steps, report, runId, cursor, log, now);
            var i := IndexOf(s.runs, runId).value;
            var e := StepEvent(runId, steps[cursor], now);
            && r.runs == s.runs[i := s.runs[i].(currentStep := Some(steps[cursor].step))]
            && r.events == log + [e]
            && (cursor + 1 < |steps| && steps[cursor].duration > 0 ==>
                  r.timers == s.timers + [Timer(s.nextHandle, ResumeChain(runId, cursor + 1, r.events), steps[cursor].duration)]
                  && r.active == Some(s.nextHandle))
            && (cursor + 1 == |steps| ==>
                  r.timers == s.timers + [Timer(s.nextHandle, ResumeChain(runId, cursor + 1, r.events), steps[cursor].duration)]
                  && r.active == s.active)
            && (cursor + 1 < |steps| && steps[cursor].duration <= 0 ==> r.timers == s.timers)
  {
  }

  /** stopSimulation is idempotent, forgets the handle, and touches nothing but the timers. */
  lemma StopIdempotent(s: Sim)
    ensures Stop(Stop(s)) == Stop(s)
    ensures Stop(s).active.None?
    ensures s.active.None? ==> Stop(s) == s
    ensures Stop(s).runs == s.runs && Stop(s).events == s.events && Stop(s).outbox == s.outbox
  {
  }

  /** With distinct handles at most one timer carries a given handle. */
  lemma {:induction false} WithoutHandleDropsAtMostOne(timers: seq<Timer>, h: nat)
    requires HandlesIncrease(timers)
    ensures |WithoutHandle(timers, h)| + 1 >= |timers|
    ensures (forall k :: 0 <= k < |timers| ==> timers[k].handle != h) ==> WithoutHandle(timers, h) == timers
  {
    if timers != [] {
      assert HandlesIncrease(timers[1..]);
      WithoutHandleDropsAtMostOne(timers[1..], h);
      if timers[0].handle == h {
        assert forall k :: 0 <= k < |timers[1..]| ==> timers[1..][k].handle != h;
      }
    }
  }

  /** stopSimulation cancels only the one active timer: every other pending timer stays. */
  lemma StopCancelsOnlyActive(s: Sim)
    requires Wellformed(s)
    ensures |Stop(s).timers| + 1 >= |s.timers|
    ensures forall t :: t in s.timers && Some(t.handle) != s.active ==> t in Stop(s).timers
  {
    if s.active.Some? {
      WithoutHandleDropsAtMostOne(s.timers, s.active.value);
    }
  }
}
