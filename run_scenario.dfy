/** Whole runs through the simulator: a started run advances one step per timer to the
    Dojo Gate and waits there; approval carries it through steps 9 and 10 to completion.
    Also the hazards of the single shared timer handle. */
module RunScenario {
  import opened Domain
  import opened RunSimulation
  import Scoring
  import RunSimulationProperties

  /** A step table of the shape the source expects: steps 1..10 in order, each with a delay. */
  predicate StepTable(steps: seq<RunStep>)
  {
    |steps| == 10 && forall k :: 0 <= k < |steps| ==> steps[k].step == k + 1 && steps[k].duration > 0
  }

  /** The newest pending timer fires at each of the given times in turn. */
  function TickNewest(s: Sim, steps: seq<RunStep>, report: ReportFn, times: seq<Time>): Sim
    decreases |times|
  {
    if times == [] || s.timers == [] then s
    else TickNewest(Fire(s, steps, report, |s.timers| - 1, times[0]), steps, report, times[1..])
  }

  /** The info events of the given steps, processed at the given times. */
  function StepLog(runId: string, steps: seq<RunStep>, times: seq<Time>): (r: seq<Event>)
    requires |times| == |steps|
    ensures |r| == |steps|
    ensures forall j :: 0 <= j < |steps| ==> r[j] == StepEvent(runId, steps[j], times[j])
  {
    if steps == [] then [] else [StepEvent(runId, steps[0], times[0])] + StepLog(runId, steps[1..], times[1..])
  }

  /** The run while the start chain is between steps, `c` steps done. */
  function ChainRun(base: Run, started: Time, c: nat): Run
  {
    base.(status := Running, startedAt := Some(started), currentStep := Some(c),
          prUrl := if c >= PR_STEP then Some(PR_URL) else base.prUrl,
          ciUrl := if c >= PR_STEP then Some(CI_URL) else base.ciUrl)
  }

  /** The run held at the gate. */
  function GateRun(base: Run, started: Time): Run
  {
    base.(status := AwaitingApproval, startedAt := Some(started), currentStep := Some(GATE_STEP),
          prUrl := Some(PR_URL), ciUrl := Some(CI_URL))
  }

  /** `r` is `s` after startRunSimulation and `c - 1` ticks: `c` steps logged, and the
      start chain's timer for step `c + 1` pending on top of the timers `s` had. */
  ghost predicate ChainAt(r: Sim, s: Sim, steps: seq<RunStep>, runId: string, i: nat, times: seq<Time>, c: nat)
  {
    && 1 <= c <= |times| && c <= |steps|
    && IndexOf(s.runs, runId) == Some(i)
    && r.runs == s.runs[i := ChainRun(s.runs[i], times[0], c)]
    && r.checks == s.checks
    && r.events == s.events + StepLog(runId, steps[..c], times[..c])
    && |r.timers| == |s.timers| + 1 && r.timers[..|s.timers|] == s.timers
    && r.timers[|s.timers|].action == StartChain(runId, c)
  }

  /** `g` is `s` with the run held at the gate after all eight steps were logged. */
  ghost predicate AtGate(g: Sim, s: Sim, steps: seq<RunStep>, runId: string, i: nat, times: seq<Time>)
  {
    && |times| == 8 && |steps| >= 8
    && IndexOf(s.runs, runId) == Some(i)
    && g.runs == s.runs[i := GateRun(s.runs[i], times[0])]
    && g.checks == s.checks
    && g.events == s.events + StepLog(runId, steps[..8], times) + [WaitEvent(runId, times[7])]
    && g.timers == s.timers
  }

  lemma StepLogSnoc(runId: string, steps: seq<RunStep>, times: seq<Time>, c: nat)
    requires c < |steps| && c < |times|
    ensures StepLog(runId, steps[..c + 1], times[..c + 1]) ==
            StepLog(runId, steps[..c], times[..c]) + [StepEvent(runId, steps[c], times[c])]
  {
    var a := StepLog(runId, steps[..c + 1], times[..c + 1]);
    var b := StepLog(runId, steps[..c], times[..c]) + [StepEvent(runId, steps[c], times[c])];
    assert |a| == |b|;
    forall j | 0 <= j < |a| ensures a[j] == b[j] { }
  }

  /** startRunSimulation processes step 1 at once and leaves step 2 pending. */
  lemma StartEntersChain(s: Sim, steps: seq<RunStep>, runId: string, times: seq<Time>)
    requires StepTable(steps) && |times| >= 1 && IndexOf(s.runs, runId).Some?
    ensures ChainAt(Start(s, steps, runId, times[0]), s, steps, runId, IndexOf(s.runs, runId).value, times, 1)
  {
    var i := IndexOf(s.runs, runId).value;
    var run := s.runs[i].(status := Running, startedAt := Some(times[0]), currentStep := Some(1));
    IndexOfUpdate(s.runs, i, run, runId);
    IndexOfUpdate(s.runs, i, ChainRun(s.runs[i], times[0], 1), runId);
    StepLogSnoc(runId, steps, times, 0);
    assert steps[..0] == [] && times[..0] == [];
    var r := Start(s, steps, runId, times[0]);
    assert r.runs == s.runs[i := run][i := run.(currentStep := Some(1))];
    assert run.(currentStep := Some(1)) == ChainRun(s.runs[i], times[0], 1);
  }

  /** One tick of the start chain before the gate: one more step logged, the next pending. */
  lemma ChainAdvances(r: Sim, s: Sim, steps: seq<RunStep>, report: ReportFn, runId: string, i: nat,
                      times: seq<Time>, c: nat)
    requires StepTable(steps) && ChainAt(r, s, steps, runId, i, times, c) && c < 7 && c < |times|
    ensures ChainAt(Fire(r, steps, report, |r.timers| - 1, times[c]), s, steps, runId, i, times, c + 1)
  {
    var k := |r.timers| - 1;
    assert RemoveAt(r.timers, k) == s.timers;
    var rest := r.(timers := s.timers);
    IndexOfUpdate(s.runs, i, ChainRun(s.runs[i], times[0], c), runId);
    IndexOfUpdate(s.runs, i, ChainRun(s.runs[i], times[0], c + 1), runId);
    StepLogSnoc(runId, steps, times, c);
    var f := Fire(r, steps, report, k, times[c]);
    assert f == StartProcessStep(rest, steps, runId, c, times[c]);
    var run0 := ChainRun(s.runs[i], times[0], c).(currentStep := Some(c + 1));
    var run := if c + 1 == PR_STEP then run0.(prUrl := Some(PR_URL), ciUrl := Some(CI_URL)) else run0;
    assert run == ChainRun(s.runs[i], times[0], c + 1);
    assert f.runs == s.runs[i := ChainRun(s.runs[i], times[0], c)][i := run];
  }

  /** The seventh tick processes step 8 and stops at the gate. */
  lemma ChainReachesGate(r: Sim, s: Sim, steps: seq<RunStep>, report: ReportFn, runId: string, i: nat,
                         times: seq<Time>)
    requires StepTable(steps) && ChainAt(r, s, steps, runId, i, times, 7) && |times| == 8
    ensures AtGate(Fire(r, steps, report, |r.timers| - 1, times[7]), s, steps, runId, i, times)
  {
    var k := |r.timers| - 1;
    assert RemoveAt(r.timers, k) == s.timers;
    var rest := r.(timers := s.timers);
    var f := Fire(r, steps, report, k, times[7]);
    assert f == StartProcessStep(rest, steps, runId, 7, times[7]);
    IndexOfUpdate(s.runs, i, ChainRun(s.runs[i], times[0], 7), runId);
    RunSimulationProperties.GateStepEffect(rest, steps, runId, 7, times[7]);
    GateFromChain(f, rest, s, steps, runId, i, times);
  }

  /** The bookkeeping of ChainReachesGate, on plain values. */
  lemma GateFromChain(f: Sim, rest: Sim, s: Sim, steps: seq<RunStep>, runId: string, i: nat, times: seq<Time>)
    requires StepTable(steps) && |times| == 8 && IndexOf(s.runs, runId) == Some(i)
    requires rest.runs == s.runs[i := ChainRun(s.runs[i], times[0], 7)] && rest.checks == s.checks
    requires rest.events == s.events + StepLog(runId, steps[..7], times[..7]) && rest.timers == s.timers
    requires f.runs == rest.runs[i := rest.runs[i].(currentStep := Some(GATE_STEP), status := AwaitingApproval)]
    requires f.events == rest.events + [StepEvent(runId, steps[7], times[7]), WaitEvent(runId, times[7])]
    requires f.timers == rest.timers && f.checks == rest.checks
    ensures AtGate(f, s, steps, runId, i, times)
  {
    StepLogSnoc(runId, steps, times, 7);
    assert steps[..8] == steps[..7 + 1] && times == times[..7 + 1];
    var held := ChainRun(s.runs[i], times[0], 7).(currentStep := Some(GATE_STEP), status := AwaitingApproval);
    assert held == GateRun(s.runs[i], times[0]);
  }

  /** One tick of the start chain, before or at the gate, as a step of TickNewest. */
  lemma ChainTick(r: Sim, s: Sim, steps: seq<RunStep>, report: ReportFn, runId: string,
                  i: nat, times: seq<Time>, c: nat)
    requires StepTable(steps) && |times| == 8 && ChainAt(r, s, steps, runId, i, times, c) && c <= 7
    ensures var f := Fire(r, steps, report, |r.timers| - 1, times[c]);
            && TickNewest(r, steps, report, times[c..]) == TickNewest(f, steps, report, times[c + 1..])
            && (c < 7 ==> ChainAt(f, s, steps, runId, i, times, c + 1))
            && (c == 7 ==> AtGate(f, s, steps, runId, i, times))
  {
    TickNewestOnce(r, steps, report, times[c..]);
    assert times[c..][1..] == times[c + 1..];
    if c == 7 {
      ChainReachesGate(r, s, steps, report, runId, i, times);
    } else {
      ChainAdvances(r, s, steps, report, runId, i, times, c);
    }
  }

  lemma {:induction false} ChainToGate(r: Sim, s: Sim, steps: seq<RunStep>, report: ReportFn, runId: string,
                                       i: nat, times: seq<Time>, c: nat)
    requires StepTable(steps) && |times| == 8 && ChainAt(r, s, steps, runId, i, times, c) && c <= 7
    ensures AtGate(TickNewest(r, steps, report, times[c..]), s, steps, runId, i, times)
    decreases 8 - c
  {
    ChainTick(r, s, steps, report, runId, i, times, c);
    var f := Fire(r, steps, report, |r.timers| - 1, times[c]);
    if c == 7 {
      assert times[c + 1..] == [];
    } else {
      ChainToGate(f, s, steps, report, runId, i, times, c + 1);
    }
  }

  /** A started run, ticked seven times, waits at the Dojo Gate: the eight step events and
      the wait event were logged in order, the PR and CI links are attached, and no timer
      of its own is left pending. */
  lemma StartedRunWaitsAtGate(s: Sim, steps: seq<RunStep>, report: ReportFn, runId: string, times: seq<Time>)
    requires StepTable(steps) && |times| == 8 && IndexOf(s.runs, runId).Some?
    ensures AtGate(TickNewest(Start(s, steps, runId, times[0]), steps, report, times[1..]),
                   s, steps, runId, IndexOf(s.runs, runId).value, times)
  {
    var i := IndexOf(s.runs, runId).value;
    StartEntersChain(s, steps, runId, times);
    ChainToGate(Start(s, steps, runId, times[0]), s, steps, report, runId, i, times, 1);
  }

  lemma TickNewestOnce(s: Sim, steps: seq<RunStep>, report: ReportFn, times: seq<Time>)
    requires times != [] && s.timers != []
    ensures TickNewest(s, steps, report, times) ==
            TickNewest(Fire(s, steps, report, |s.timers| - 1, times[0]), steps, report, times[1..])
  {
  }

  /** The completed run. */
  function CompletedRun(base: Run, finished: Time, sc: Score, md: string): Run
  {
    base.(status := Completed, currentStep := Some(FINAL_STEP), finishedAt := Some(finished),
          previewUrl := Some(PREVIEW_URL), score := Some(sc), reportMd := Some(md))
  }

  /** `r` is `g` after approval and some ticks: the run is running at step `cs`, the log
      is `log`, and the resumed chain's timer for cursor `c` is pending on top of the
      timers `g` had. */
  ghost predicate ResumeAt(r: Sim, g: Sim, runId: string, i: nat, c: nat, log: seq<Event>, cs: Option<int>)
  {
    && IndexOf(g.runs, runId) == Some(i)
    && r.runs == g.runs[i := g.runs[i].(status := Running, currentStep := cs)]
    && r.checks == g.checks
    && r.events == log
    && |r.timers| == |g.timers| + 1 && r.timers[..|g.timers|] == g.timers
    && r.timers[|g.timers|].action == ResumeChain(runId, c, log)
  }

  /** continueAfterApproval logs the approval and leaves step 9 pending under the active handle. */
  lemma ApprovalEntersResume(g: Sim, runId: string, now: Time)
    requires IndexOf(g.runs, runId).Some?
    ensures var i := IndexOf(g.runs, runId).value;
            var r := Resume(g, runId, now);
            && ResumeAt(r, g, runId, i, RESUME_CURSOR, g.events + [ApprovedEvent(runId, now)], g.runs[i].currentStep)
            && r.active == Some(r.timers[|g.timers|].handle)
  {
    var i := IndexOf(g.runs, runId).value;
    IndexOfUpdate(g.runs, i, g.runs[i].(status := Running), runId);
    assert g.runs[i].(status := Running) == g.runs[i].(status := Running, currentStep := g.runs[i].currentStep);
  }

  /** One tick of the resumed chain before the end of the table: one more step logged on
      the captured array, the next pending. Step 9's timer is tracked; the finalisation
      timer that follows step 10 is not, so the active handle stays that of the timer that
      just fired. */
  lemma ResumeAdvances(r: Sim, g: Sim, steps: seq<RunStep>, report: ReportFn, runId: string, i: nat,
                       c: nat, log: seq<Event>, cs: Option<int>, now: Time)
    requires StepTable(steps) && ResumeAt(r, g, runId, i, c, log, cs) && RESUME_CURSOR <= c < |steps|
    ensures var f := Fire(r, steps, report, |r.timers| - 1, now);
            && ResumeAt(f, g, runId, i, c + 1, log + [StepEvent(runId, steps[c], now)], Some(c + 1))
            && (c + 1 < |steps| ==> f.active == Some(f.timers[|g.timers|].handle))
            && (c + 1 == |steps| ==> f.active == r.active && f.timers[|g.timers|].handle == r.nextHandle)
  {
    var k := |r.timers| - 1;
    assert RemoveAt(r.timers, k) == g.timers;
    var rest := r.(timers := g.timers);
    var run := g.runs[i].(status := Running, currentStep := cs);
    IndexOfUpdate(g.runs, i, run, runId);
    var f := Fire(r, steps, report, k, now);
    assert f == ResumeProcessStep(rest, steps, report, runId, c, log, now);
    assert f.runs == g.runs[i := run][i := run.(currentStep := Some(c + 1))];
  }

  /** The tick past the end of the table completes the run with the score of the stored
      checks and stores the captured array plus the completion event. */
  lemma ResumeFinalises(r: Sim, g: Sim, steps: seq<RunStep>, report: ReportFn, runId: string, i: nat,
                        log: seq<Event>, now: Time)
    requires StepTable(steps) && ResumeAt(r, g, runId, i, |steps|, log, Some(FINAL_STEP))
    ensures var f := Fire(r, steps, report, |r.timers| - 1, now);
            var sc := Scoring.CalculateScore(g.checks);
            && f.runs == g.runs[i := CompletedRun(g.runs[i], now, sc, report(sc, g.checks))]
            && f.events == log + [CompleteEvent(runId, sc, now)]
            && f.timers == g.timers
            && f.checks == g.checks
  {
    var k := |r.timers| - 1;
    assert RemoveAt(r.timers, k) == g.timers;
    var rest := r.(timers := g.timers);
    var run := g.runs[i].(status := Running, currentStep := Some(FINAL_STEP));
    IndexOfUpdate(g.runs, i, run, runId);
    var f := Fire(r, steps, report, k, now);
    assert f == ResumeProcessStep(rest, steps, report, runId, |steps|, log, now);
    var sc := Scoring.CalculateScore(g.checks);
    var done := run.(status := Completed, finishedAt := Some(now), previewUrl := Some(PREVIEW_URL),
                     score := Some(sc), reportMd := Some(report(sc, g.checks)));
    assert done == CompletedRun(g.runs[i], now, sc, report(sc, g.checks));
    assert f.runs == g.runs[i := run][i := done];
  }

  /** The finalisation as one tick of the newest timer. */
  lemma LastTickCompletes(r: Sim, g: Sim, steps: seq<RunStep>, report: ReportFn, runId: string, i: nat,
                          log: seq<Event>, now: Time)
    requires StepTable(steps) && ResumeAt(r, g, runId, i, |steps|, log, Some(FINAL_STEP))
    ensures var f := TickNewest(r, steps, report, [now]);
            var sc := Scoring.CalculateScore(g.checks);
            && f.runs == g.runs[i := CompletedRun(g.runs[i], now, sc, report(sc, g.checks))]
            && f.events == log + [CompleteEvent(runId, sc, now)]
            && f.timers == g.timers
            && f.checks == g.checks
  {
    TickNewestOnce(r, steps, report, [now]);
    assert [now][1..] == [];
    ResumeFinalises(r, g, steps, report, runId, i, log, now);
  }

  /** The newest-timer ticks over `a + b` are those over `a` followed by those over `b`. */
  lemma {:induction false} TickNewestSplit(s: Sim, steps: seq<RunStep>, report: ReportFn, a: seq<Time>, b: seq<Time>)
    ensures TickNewest(s, steps, report, a + b) == TickNewest(TickNewest(s, steps, report, a), steps, report, b)
    decreases |a|
  {
    if a == [] {
      assert a + b == b;
    } else if s.timers != [] {
      assert (a + b)[1..] == a[1..] + b;
      TickNewestSplit(Fire(s, steps, report, |s.timers| - 1, a[0]), steps, report, a[1..], b);
    }
  }

  /** Approval at the gate, then two ticks: steps 9 and 10 are logged on the array the
      approval captured, and the finalisation timer is pending. */
  lemma ApprovedRunReachesLastStep(g: Sim, steps: seq<RunStep>, report: ReportFn, runId: string, times: seq<Time>)
    requires StepTable(steps) && |times| == 3 && IndexOf(g.runs, runId).Some?
    ensures ResumeAt(TickNewest(Resume(g, runId, times[0]), steps, report, times[1..]), g, runId,
                     IndexOf(g.runs, runId).value, |steps|,
                     g.events + [ApprovedEvent(runId, times[0]), StepEvent(runId, steps[8], times[1]),
                                 StepEvent(runId, steps[9], times[2])],
                     Some(FINAL_STEP))
  {
    var i := IndexOf(g.runs, runId).value;
    var log0 := g.events + [ApprovedEvent(runId, times[0])];
    var log1 := log0 + [StepEvent(runId, steps[8], times[1])];
    ApprovalEntersResume(g, runId, times[0]);
    var r0 := Resume(g, runId, times[0]);
    ResumeAdvances(r0, g, steps, report, runId, i, 8, log0, g.runs[i].currentStep, times[1]);
    var r1 := Fire(r0, steps, report, |r0.timers| - 1, times[1]);
    ResumeAdvances(r1, g, steps, report, runId, i, 9, log1, Some(9), times[2]);
    TickNewestOnce(r0, steps, report, times[1..]);
    TickNewestOnce(r1, steps, report, times[2..]);
    assert times[1..][1..] == times[2..] && times[2..][1..] == [];
    assert log1 + [StepEvent(runId, steps[9], times[2])] ==
           g.events + [ApprovedEvent(runId, times[0]), StepEvent(runId, steps[8], times[1]),
                       StepEvent(runId, steps[9], times[2])];
  }

  /** Approval at the gate, then three ticks: steps 9 and 10 are logged, and the run is
      completed with the score of the stored checks and one completion event; no timer
      of its own is left pending. */
  lemma ApprovedRunCompletes(g: Sim, steps: seq<RunStep>, report: ReportFn, runId: string, times: seq<Time>)
    requires StepTable(steps) && |times| == 4 && IndexOf(g.runs, runId).Some?
    ensures var i := IndexOf(g.runs, runId).value;
            var sc := Scoring.CalculateScore(g.checks);
            var f := TickNewest(Resume(g, runId, times[0]), steps, report, times[1..]);
            && f.runs == g.runs[i := CompletedRun(g.runs[i], times[3], sc, report(sc, g.checks))]
            && f.events == g.events + [ApprovedEvent(runId, times[0]), StepEvent(runId, steps[8], times[1]),
                                       StepEvent(runId, steps[9], times[2]), CompleteEvent(runId, sc, times[3])]
            && f.timers == g.timers
            && f.checks == g.checks
  {
    assert times[1..] == [times[1], times[2], times[3]];
    ResumeThreeTicks(g, steps, report, runId, times[0], times[1], times[2], times[3]);
  }

  /** ApprovedRunCompletes with the four times named. */
  lemma ResumeThreeTicks(g: Sim, steps: seq<RunStep>, report: ReportFn, runId: string,
                         t0: Time, t1: Time, t2: Time, t3: Time)
    requires StepTable(steps) && IndexOf(g.runs, runId).Some?
    ensures var i := IndexOf(g.runs, runId).value;
            var sc := Scoring.CalculateScore(g.checks);
            var f := TickNewest(Resume(g, runId, t0), steps, report, [t1, t2, t3]);
            && f.runs == g.runs[i := CompletedRun(g.runs[i], t3, sc, report(sc, g.checks))]
            && f.events == g.events + [ApprovedEvent(runId, t0), StepEvent(runId, steps[8], t1),
                                       StepEvent(runId, steps[9], t2), CompleteEvent(runId, sc, t3)]
            && f.timers == g.timers
            && f.checks == g.checks
  {
    var i := IndexOf(g.runs, runId).value;
    var log2 := g.events + [ApprovedEvent(runId, t0), StepEvent(runId, steps[8], t1), StepEvent(runId, steps[9], t2)];
    ApprovedRunReachesLastStep(g, steps, report, runId, [t0, t1, t2]);
    assert [t0, t1, t2][1..] == [t1, t2];
    var r0 := Resume(g, runId, t0);
    var r2 := TickNewest(r0, steps, report, [t1, t2]);
    TickNewestSplit(r0, steps, report, [t1, t2], [t3]);
    assert [t1, t2] + [t3] == [t1, t2, t3];
    LastTickCompletes(r2, g, steps, report, runId, i, log2, t3);
    var sc := Scoring.CalculateScore(g.checks);
    SnocFour(g.events, ApprovedEvent(runId, t0), StepEvent(runId, steps[8], t1),
             StepEvent(runId, steps[9], t2), CompleteEvent(runId, sc, t3));
  }

  lemma SnocFour<T>(xs: seq<T>, a: T, b: T, c: T, d: T)
    ensures xs + [a, b, c] + [d] == xs + [a, b, c, d]
  {
  }

  /** A whole run: start, seven ticks to the gate, approval, three ticks. The run ends
      completed with the links of step 7 still attached; the log gained exactly one event
      per processed step, the wait and the approval events around the gate, and one
      completion event, in that order; no timer of its own is left pending. */
  lemma WholeRun(s: Sim, steps: seq<RunStep>, report: ReportFn, runId: string,
                 startTimes: seq<Time>, resumeTimes: seq<Time>)
    requires StepTable(steps) && |startTimes| == 8 && |resumeTimes| == 4 && IndexOf(s.runs, runId).Some?
    ensures var i := IndexOf(s.runs, runId).value;
            var g := TickNewest(Start(s, steps, runId, startTimes[0]), steps, report, startTimes[1..]);
            var f := TickNewest(Resume(g, runId, resumeTimes[0]), steps, report, resumeTimes[1..]);
            var sc := Scoring.CalculateScore(s.checks);
            && f.runs == s.runs[i := CompletedRun(GateRun(s.runs[i], startTimes[0]), resumeTimes[3], sc, report(sc, s.checks))]
            && f.events == s.events + StepLog(runId, steps[..8], startTimes) + [WaitEvent(runId, startTimes[7])]
                           + [ApprovedEvent(runId, resumeTimes[0])]
                           + StepLog(runId, steps[8..], resumeTimes[1..3])
                           + [CompleteEvent(runId, sc, resumeTimes[3])]
            && f.timers == s.timers
  {
    var i := IndexOf(s.runs, runId).value;
    StartedRunWaitsAtGate(s, steps, report, runId, startTimes);
    var g := TickNewest(Start(s, steps, runId, startTimes[0]), steps, report, startTimes[1..]);
    GateToEnd(g, s, steps, report, runId, i, startTimes, resumeTimes);
  }

  /** The second half of a whole run, from a simulator waiting at the gate. */
  lemma GateToEnd(g: Sim, s: Sim, steps: seq<RunStep>, report: ReportFn, runId: string, i: nat,
                  startTimes: seq<Time>, resumeTimes: seq<Time>)
    requires StepTable(steps) && AtGate(g, s, steps, runId, i, startTimes) && |resumeTimes| == 4
    ensures var f := TickNewest(Resume(g, runId, resumeTimes[0]), steps, report, resumeTimes[1..]);
            var sc := Scoring.CalculateScore(s.checks);
            && f.runs == s.runs[i := CompletedRun(GateRun(s.runs[i], startTimes[0]), resumeTimes[3], sc, report(sc, s.checks))]
            && f.events == s.events + StepLog(runId, steps[..8], startTimes) + [WaitEvent(runId, startTimes[7])]
                           + [ApprovedEvent(runId, resumeTimes[0])]
                           + StepLog(runId, steps[8..], resumeTimes[1..3])
                           + [CompleteEvent(runId, sc, resumeTimes[3])]
            && f.timers == s.timers
  {
    IndexOfUpdate(s.runs, i, GateRun(s.runs[i], startTimes[0]), runId);
    ApprovedRunCompletes(g, steps, report, runId, resumeTimes);
    GateLogExtended(TickNewest(Resume(g, runId, resumeTimes[0]), steps, report, resumeTimes[1..]),
                    g, s, steps, report, runId, i, startTimes, resumeTimes);
  }

  /** The bookkeeping of GateToEnd, on plain values. */
  lemma GateLogExtended(f: Sim, g: Sim, s: Sim, steps: seq<RunStep>, report: ReportFn, runId: string, i: nat,
                        startTimes: seq<Time>, resumeTimes: seq<Time>)
    requires AtGate(g, s, steps, runId, i, startTimes) && |steps| == 10 && |resumeTimes| == 4
    requires var sc := Scoring.CalculateScore(g.checks);
             && f.runs == g.runs[i := CompletedRun(g.runs[i], resumeTimes[3], sc, report(sc, g.checks))]
             && f.events == g.events + [ApprovedEvent(runId, resumeTimes[0]), StepEvent(runId, steps[8], resumeTimes[1]),
                                        StepEvent(runId, steps[9], resumeTimes[2]), CompleteEvent(runId, sc, resumeTimes[3])]
             && f.timers == g.timers
    ensures var sc := Scoring.CalculateScore(s.checks);
            && f.runs == s.runs[i := CompletedRun(GateRun(s.runs[i], startTimes[0]), resumeTimes[3], sc, report(sc, s.checks))]
            && f.events == s.events + StepLog(runId, steps[..8], startTimes) + [WaitEvent(runId, startTimes[7])]
                           + [ApprovedEvent(runId, resumeTimes[0])]
                           + StepLog(runId, steps[8..], resumeTimes[1..3])
                           + [CompleteEvent(runId, sc, resumeTimes[3])]
            && f.timers == s.timers
  {
    var sc := Scoring.CalculateScore(s.checks);
    var tail := StepLog(runId, steps[8..], resumeTimes[1..3]);
    assert tail == [StepEvent(runId, steps[8], resumeTimes[1]), StepEvent(runId, steps[9], resumeTimes[2])];
    var a, c := ApprovedEvent(runId, resumeTimes[0]), CompleteEvent(runId, sc, resumeTimes[3]);
    assert [a] + tail + [c] == [a, tail[0], tail[1], c];
    assert g.events + [a] + tail + [c] == g.events + ([a] + tail + [c]);
  }

  /** startRunSimulation of a known run schedules step 2 under a fresh handle, which
      becomes the active one. */
  lemma StartSchedulesStepTwo(s: Sim, steps: seq<RunStep>, runId: string, now: Time)
    requires StepTable(steps) && IndexOf(s.runs, runId).Some?
    ensures var r := Start(s, steps, runId, now);
            && r.timers == s.timers + [Timer(s.nextHandle, StartChain(runId, 1), steps[0].duration)]
            && r.active == Some(s.nextHandle)
            && r.nextHandle == s.nextHandle + 1
  {
    var i := IndexOf(s.runs, runId).value;
    IndexOfUpdate(s.runs, i, s.runs[i].(status := Running, startedAt := Some(now), currentStep := Some(1)), runId);
  }

  /** Cancelling a handle that only the newest timer carries removes exactly that timer. */
  lemma {:induction false} WithoutFreshHandle(ts: seq<Timer>, t: Timer)
    requires forall k :: 0 <= k < |ts| ==> ts[k].handle != t.handle
    ensures WithoutHandle(ts + [t], t.handle) == ts
  {
    if ts == [] {
      assert ([] + [t])[1..] == [];
    } else {
      assert (ts + [t])[1..] == ts[1..] + [t];
      WithoutFreshHandle(ts[1..], t);
      assert [ts[0]] + ts[1..] == ts;
    }
  }

  /** Starting the same run twice leaves two start chains pending; stopSimulation then
      cancels only the second, so the first keeps advancing the run. */
  lemma DoubleStartOutlivesStop(s: Sim, steps: seq<RunStep>, runId: string, t1: Time, t2: Time)
    requires StepTable(steps) && Wellformed(s) && IndexOf(s.runs, runId).Some?
    ensures var r := Stop(Start(Start(s, steps, runId, t1), steps, runId, t2));
            && r.timers == s.timers + [Timer(s.nextHandle, StartChain(runId, 1), steps[0].duration)]
            && r.active == None
  {
    var i := IndexOf(s.runs, runId).value;
    StartSchedulesStepTwo(s, steps, runId, t1);
    var r1 := Start(s, steps, runId, t1);
    StartKeepsWellformed(s, steps, runId, t1);
    StartEntersChain(s, steps, runId, [t1]);
    StartSchedulesStepTwo(r1, steps, runId, t2);
    var r2 := Start(r1, steps, runId, t2);
    WithoutFreshHandle(r1.timers, Timer(r1.nextHandle, StartChain(runId, 1), steps[0].duration));
  }

  /** Once the last step has run, the finalisation timer is not the active one:
      stopSimulation cannot cancel it, and the run still completes. */
  lemma FinalisationSurvivesStop(g: Sim, steps: seq<RunStep>, report: ReportFn, runId: string, times: seq<Time>)
    requires StepTable(steps) && Wellformed(g) && |times| == 3 && IndexOf(g.runs, runId).Some?
    ensures var r := TickNewest(Resume(g, runId, times[0]), steps, report, times[1..]);
            && |r.timers| == |g.timers| + 1
            && r.timers[|g.timers|].action.ResumeChain?
            && r.timers[|g.timers|].action.cursor == |steps|
            && Stop(r).timers == r.timers
  {
    LastStepLeavesStaleHandle(g, steps, report, runId, times);
    var r := TickNewest(Resume(g, runId, times[0]), steps, report, times[1..]);
    RunSimulationProperties.WithoutHandleDropsAtMostOne(r.timers, r.active.value);
  }

  /** After steps 9 and 10 the active handle is still that of step 9's timer, which has
      fired: no pending timer carries it. */
  lemma LastStepLeavesStaleHandle(g: Sim, steps: seq<RunStep>, report: ReportFn, runId: string, times: seq<Time>)
    requires StepTable(steps) && Wellformed(g) && |times| == 3 && IndexOf(g.runs, runId).Some?
    ensures var r := TickNewest(Resume(g, runId, times[0]), steps, report, times[1..]);
            && |r.timers| == |g.timers| + 1
            && r.timers[|g.timers|].action.ResumeChain?
            && r.timers[|g.timers|].action.cursor == |steps|
            && r.active.Some? && HandlesIncrease(r.timers)
            && forall k :: 0 <= k < |r.timers| ==> r.timers[k].handle != r.active.value
  {
    var i := IndexOf(g.runs, runId).value;
    var log0 := g.events + [ApprovedEvent(runId, times[0])];
    var log1 := log0 + [StepEvent(runId, steps[8], times[1])];
    ApprovalEntersResume(g, runId, times[0]);
    var r0 := Resume(g, runId, times[0]);
    ResumeKeepsWellformed(g, runId, times[0]);
    ResumeAdvances(r0, g, steps, report, runId, i, 8, log0, g.runs[i].currentStep, times[1]);
    var r1 := Fire(r0, steps, report, |r0.timers| - 1, times[1]);
    FireKeepsWellformed(r0, steps, report, |r0.timers| - 1, times[1]);
    ResumeAdvances(r1, g, steps, report, runId, i, 9, log1, Some(9), times[2]);
    var r2 := Fire(r1, steps, report, |r1.timers| - 1, times[2]);
    FireKeepsWellformed(r1, steps, report, |r1.timers| - 1, times[2]);
    TickNewestOnce(r0, steps, report, times[1..]);
    TickNewestOnce(r1, steps, report, times[2..]);
    assert times[1..][1..] == times[2..] && times[2..][1..] == [];
    NewestReplacedHandleGone(r1.timers, r2.timers, |g.timers|);
  }

  /** When the newest of a list of timers with increasing handles is replaced by one with
      a larger handle, no timer carries the replaced handle any more. */
  lemma NewestReplacedHandleGone(before: seq<Timer>, after: seq<Timer>, n: nat)
    requires |before| == n + 1 && HandlesIncrease(before)
    requires |after| == n + 1 && after[..n] == before[..n] && after[n].handle > before[n].handle
    ensures forall k :: 0 <= k < |after| ==> after[k].handle != before[n].handle
  {
    forall k | 0 <= k < |after|
      ensures after[k].handle != before[n].handle
    {
      if k < n {
        assert after[k] == before[..n][k];
      }
    }
  }
}
