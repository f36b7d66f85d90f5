/** The repository detail page: starting a new run (a queued run appended to the stored
    runs, with the stored event log cleared) and the list of this repository's runs,
    newest first. */
module RepoDetailPage {
  import opened Domain
  import opened RunSimulation
  import RunScenario
  import RunDetailPage

  /** `run-${Date.now()}`: the id of a run created at `now`; the digits read back as `now`. */
  function RunIdAt(now: Time): (id: string)
    ensures |id| > 4 && id[..4] == "run-" && AllDigits(id[4..]) && DecimalValue(id[4..]) == now
  {
    DecimalRoundTrip(now);
    var id := "run-" + Decimal(now);
    assert id[4..] == Decimal(now);
    id
  }

  /** Runs created at different times get different ids. */
  lemma RunIdInjective(a: Time, b: Time)
    ensures RunIdAt(a) == RunIdAt(b) <==> a == b
  {
  }

  /** The run handleStartRun creates: queued, for `repoId`, with no step, timestamps other
      than its creation, links, score or report. */
  function NewRun(repoId: string, now: Time): (r: Run)
    ensures r.id == RunIdAt(now) && r.repoId == repoId && r.status == Queued && r.createdAt == now
    ensures r.currentStep.None? && r.startedAt.None? && r.finishedAt.None?
    ensures r.prUrl.None? && r.ciUrl.None? && r.previewUrl.None? && r.score.None? && r.reportMd.None?
  {
    Run(RunIdAt(now), repoId, Queued, None, now, None, None, None, None, None, None, None)
  }

  /** What handleStartRun saves, and the run it navigates to. */
  datatype Started = Started(runs: seq<Run>, events: seq<Event>, target: string)

  /** handleStartRun: `runs` is the list the page last loaded. */
  function HandleStartRun(runs: seq<Run>, repo: Repo, now: Time): (r: Started)
    ensures |r.runs| == |runs| + 1 && r.runs[..|runs|] == runs
    ensures r.runs[|runs|] == NewRun(repo.id, now)
    ensures r.events == []
    ensures r.target == RunIdAt(now)
  {
    var created := NewRun(repo.id, now);
    Started(runs + [created], [], created.id)
  }

  /** When no loaded run has the new id, the run the page navigates to is found at the
      end of the stored list, and the run page's start trigger fires for it. */
  lemma NewRunIsStartable(runs: seq<Run>, repo: Repo, now: Time)
    requires forall k :: 0 <= k < |runs| ==> runs[k].id != RunIdAt(now)
    ensures var r := HandleStartRun(runs, repo, now);
            && IndexOf(r.runs, r.target) == Some(|runs|)
            && RunDetailPage.StartTriggered(Some(r.runs[|runs|]), Some(r.target))
  {
    var r := HandleStartRun(runs, repo, now);
    assert r.runs[|runs|].id == r.target;
  }

  /** Since the log was cleared, once the new run has reached the gate the stored log holds
      this run's events only: its eight step events and the wait event. */
  lemma FreshLogHoldsOnlyNewRun(runs: seq<Run>, repo: Repo, now: Time, checks: seq<Check>,
                                steps: seq<RunStep>, report: ReportFn, times: seq<Time>)
    requires forall k :: 0 <= k < |runs| ==> runs[k].id != RunIdAt(now)
    requires RunScenario.StepTable(steps) && |times| == 8
    ensures var r := HandleStartRun(runs, repo, now);
            var s := Sim(r.runs, r.events, checks, [], None, FIRST_HANDLE, []);
            var g := RunScenario.TickNewest(Start(s, steps, r.target, times[0]), steps, report, times[1..]);
            && |g.events| == GATE_STEP + 1
            && forall k :: 0 <= k < |g.events| ==> g.events[k].runId == r.target
  {
    var r := HandleStartRun(runs, repo, now);
    NewRunIsStartable(runs, repo, now);
    var s := Sim(r.runs, r.events, checks, [], None, FIRST_HANDLE, []);
    RunScenario.StartedRunWaitsAtGate(s, steps, report, r.target, times);
    var g := RunScenario.TickNewest(Start(s, steps, r.target, times[0]), steps, report, times[1..]);
    GateLogOfOneRun(g, s, steps, r.target, |runs|, times);
  }

  /** Starting from an empty log, the log at the gate holds nine events, all of this run. */
  lemma GateLogOfOneRun(g: Sim, s: Sim, steps: seq<RunStep>, runId: string, i: nat, times: seq<Time>)
    requires RunScenario.AtGate(g, s, steps, runId, i, times) && s.events == []
    ensures |g.events| == GATE_STEP + 1
    ensures forall k :: 0 <= k < |g.events| ==> g.events[k].runId == runId
  {
    var log := RunScenario.StepLog(runId, steps[..8], times);
    assert g.events == log + [WaitEvent(runId, times[7])];
    forall k | 0 <= k < |g.events|
      ensures g.events[k].runId == runId
    {
      if k < 8 {
        assert g.events[k] == log[k];
      }
    }
  }

  /** The clear does not hold against a resumed chain of an earlier run that is still
      pending: when its timer fires it stores the array it captured at approval, plus its
      own event, over the cleared log. */
  lemma PendingResumeUndoesClear(s: Sim, repo: Repo, created: Time, steps: seq<RunStep>, report: ReportFn,
                                 k: nat, now: Time)
    requires k < |s.timers| && s.timers[k].action.ResumeChain?
    ensures var r := HandleStartRun(s.runs, repo, created);
            var f := Fire(s.(runs := r.runs, events := r.events), steps, report, k, now);
            var log := s.timers[k].action.log;
            IndexOf(r.runs, s.timers[k].action.runId).Some? ==>
              |f.events| == |log| + 1 && f.events[..|log|] == log
  {
  }

  /** runs.filter(r => r.repo_id === repoId), in stored order. */
  function ForRepo(runs: seq<Run>, repoId: string): (r: seq<Run>)
    ensures |r| <= |runs|
    ensures forall x :: x in r <==> x in runs && x.repoId == repoId
  {
    if runs == [] then []
    else if runs[0].repoId == repoId then [runs[0]] + ForRepo(runs[1..], repoId)
    else ForRepo(runs[1..], repoId)
  }

  function Reversed<T>(xs: seq<T>): (r: seq<T>)
    ensures |r| == |xs|
    ensures forall k :: 0 <= k < |xs| ==> r[k] == xs[|xs| - 1 - k]
  {
    if xs == [] then [] else Reversed(xs[1..]) + [xs[0]]
  }

  /** repoRuns: the repository's runs, newest first. */
  function RepoRuns(runs: seq<Run>, repoId: string): (r: seq<Run>)
    ensures r == Reversed(ForRepo(runs, repoId))
    ensures forall x :: x in r <==> x in runs && x.repoId == repoId
  {
    var mine := ForRepo(runs, repoId);
    var r := Reversed(mine);
    assert forall x :: x in r <==> x in mine by {
      forall x | x in mine ensures x in r {
        var k :| 0 <= k < |mine| && mine[k] == x;
        assert r[|mine| - 1 - k] == x;
      }
    }
    r
  }

  lemma {:induction false} ForRepoAppend(runs: seq<Run>, run: Run, repoId: string)
    ensures ForRepo(runs + [run], repoId) == ForRepo(runs, repoId) + (if run.repoId == repoId then [run] else [])
  {
    if runs != [] {
      assert (runs + [run])[1..] == runs[1..] + [run];
      ForRepoAppend(runs[1..], run, repoId);
    }
  }

  lemma ReversedAppend<T>(xs: seq<T>, ys: seq<T>)
    ensures Reversed(xs + ys) == Reversed(ys) + Reversed(xs)
  {
    var a, b := Reversed(xs + ys), Reversed(ys) + Reversed(xs);
    assert |a| == |b|;
    forall k | 0 <= k < |a| ensures a[k] == b[k] {
      if k < |ys| {
        assert b[k] == Reversed(ys)[k];
      } else {
        assert b[k] == Reversed(xs)[k - |ys|];
      }
    }
  }

  /** A run started from this repository's page heads its list; the rest keep their order. */
  lemma NewRunListedFirst(runs: seq<Run>, repo: Repo, now: Time)
    ensures RepoRuns(HandleStartRun(runs, repo, now).runs, repo.id) == [NewRun(repo.id, now)] + RepoRuns(runs, repo.id)
  {
    var created := NewRun(repo.id, now);
    assert HandleStartRun(runs, repo, now).runs == runs + [created];
    ForRepoAppend(runs, created, repo.id);
    ReversedAppend(ForRepo(runs, repo.id), [created]);
  }

  /** Starting a run for one repository leaves every other repository's list as it was. */
  lemma OtherRepoListsUnchanged(runs: seq<Run>, repo: Repo, now: Time, other: string)
    requires other != repo.id
    ensures RepoRuns(HandleStartRun(runs, repo, now).runs, other) == RepoRuns(runs, other)
  {
    var created := NewRun(repo.id, now);
    assert HandleStartRun(runs, repo, now).runs == runs + [created];
    ForRepoAppend(runs, created, other);
    assert ForRepo(runs, other) + [] == ForRepo(runs, other);
  }
}
