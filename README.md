# ShipDojo pipeline run simulator, in Dafny

This project models the engine of the ShipDojo demo: the run simulator that moves a
stored pipeline run through a table of ten steps, one step per timer. The engine works
as follows:

- The PR and CI links are attached at step 7.
- The run stops at the Dojo Gate (step 8) until it is approved.
- After approval it processes steps 9 and 10, then completes the run with a
  check-coverage score and a report.

Around the engine the project models the page operations that drive it or read it:

- switching checks on and off, where required checks are locked;
- the onboarding wizard's demo repository and progress list;
- the run page's timeline, its event list and its start and approve triggers;
- the repository page's "start run" and its newest-first list of runs.

Layout, one module per file:

- `domain.dfy` (`Domain`): runs, events, checks, the step table, and the decimal text
  that ids and messages are built from, with its round trip.
- `checks.dfy` (`ChecksPage`): the guarded toggle and the enabled count.
- `scoring.dfy` (`Scoring`): calculateScore, with `Math.round` as exact round-half-up.
- `run_simulation.dfy` (`RunSimulation`):
  - The simulator state `Sim` holds the stored runs, the stored event log, the stored
    checks, the pending timers, the `activeSimulation` handle and the callbacks made so far.
  - One transition function per entry point and per timer firing says what it does to
    that state.
  - Class `Simulator` performs the same steps in place. Each method is proved to reach
    exactly the state its transition function gives, and to keep the handle invariant.
- `run_simulation_properties.dfy` (`RunSimulationProperties`): what one call does.
- `run_scenario.dfy` (`RunScenario`): whole runs, made of a start, seven ticks to the
  gate, approval, and three ticks to completion. It also covers the two hazards of the
  single shared timer handle.
- `onboarding.dfy` (`OnboardingPage`), `run_detail.dfy` (`RunDetailPage`) and
  `repo_detail.dfy` (`RepoDetailPage`): the pages.

How the environment is modelled:

- **Timers.** Each `setTimeout` adds a `Timer` with a fresh, increasing handle.
  - A timer fires only when `Simulator.Tick` (the function `Fire`) is called for it.
  - The closure a timer runs is data. A start-chain timer carries its cursor. A
    resume-chain timer carries its cursor and the event array the closure captured at
    approval.
  - Timers whose handle is assigned to `activeSimulation` set `active`. The finalisation
    timer (run-simulation.ts:195) does not.
- **Callbacks.** `onRunUpdate` and `onEvent` become entries appended to `outbox`, in the
  order the source makes the calls.
- **Clock.** Every operation receives the current time `now`.
- **Step table and report.** The step table and the report generator are parameters.

Points of the code's own behaviour that the model keeps as they are:

- `startRunSimulation` does not check that the run is queued. The run page's effect
  checks that before calling it.
- `continueAfterApproval` does not check that the run awaits approval.
- A step with zero delay ends automatic progression.
- With no checks the score is NaN, not a number in 0..100.
- `stopSimulation` cannot cancel the finalisation timer.
- A second start of the same run leaves two start chains running. Stopping cancels only
  the newer chain.

## Model

| member | source | states |
|---|---|---|
| Domain.DecimalRoundTrip | src/lib/run-simulation.ts:46 | the decimal text used in ids reads back as the number it was made from |
| Domain.DecimalInjective | src/lib/run-simulation.ts:46 | different numbers have different decimal texts, so ids made at different times differ |
| ChecksPage.Toggle | src/pages/Checks.tsx:15-24 | same length; a required check or one with another id is unchanged; the matching optional check has only `enabled` flipped |
| ChecksPage.ToggleTwice | src/pages/Checks.tsx:16-21 | toggling the same id twice gives back the original list |
| ChecksPage.ToggleLocked | src/pages/Checks.tsx:17-20 | an id carried only by required checks, or by no check, leaves the list unchanged |
| ChecksPage.ToggleMovesCountByOne | src/pages/Checks.tsx:15-26 | with unique ids, toggling an optional check moves the enabled count by exactly one, up if it was off and down if it was on |
| ChecksPage.EnabledCount | src/pages/Checks.tsx:26 | the count is the number of positions holding a check that is on; so it is at most the list length, equals it iff every check is on, and is 0 iff none is on |
| ChecksPage.EnabledChecks | src/pages/RepoDetail.tsx:68 | exactly the checks that are on, no more than the whole list; all kept iff all are on |
| ChecksPage.EnabledChecksMultiset | src/lib/run-simulation.ts:205 | the filter keeps each check that is on as many times as it occurs and drops every check that is off |
| ChecksPage.EnabledChecksCountsPositions | src/pages/Checks.tsx:26 | filtering the checks from position m on keeps as many as there are enabled positions from m on |
| Scoring.RoundHalfUp | src/lib/run-simulation.ts:209 | the result is the nearest integer to num/den, with halves rounded up |
| Scoring.RoundMonotone | src/lib/run-simulation.ts:209 | a larger ratio never rounds lower |
| Scoring.CalculateScore | src/lib/run-simulation.ts:203-215 | NaN exactly when there are no checks; otherwise between 30 and 100 |
| Scoring.ScoreIsCoveragePlusBonus | src/lib/run-simulation.ts:209-214 | the score is round(70 * enabled / total) + 30; the cap at 100 never changes it |
| Scoring.ScoreAllEnabled | src/lib/run-simulation.ts:203-215 | all checks on scores 100 |
| Scoring.ScoreNoneEnabled | src/lib/run-simulation.ts:203-215 | no check on scores 30 |
| Scoring.ScoreMonotone | src/lib/run-simulation.ts:205-214 | for lists of equal length, more enabled checks never score lower |
| Scoring.EnablingNeverLowersScore | src/lib/run-simulation.ts:205-214 | switching on an optional check never lowers the score |
| Scoring.ScoreTwoOfThree | src/lib/run-simulation.ts:209-214 | three checks with two on score 77 |
| RunSimulation.StepEvent | src/lib/run-simulation.ts:45-52 | an info event of the run, at the time given, carrying the step's number and the message `name...`; definition; its ids are compared in RunSimulationProperties.EventIdsDistinct |
| RunSimulation.WaitEvent | src/lib/run-simulation.ts:75-82 | a warn event of the run at step 8 carrying the waiting-for-approval message; definition; its properties are lemmas RunSimulationProperties.GateStepEffect and EventIdsDistinct |
| RunSimulation.ApprovedEvent | src/lib/run-simulation.ts:118-125 | an info event of the run at step 8 carrying the approval message; definition; its properties are lemmas RunSimulationProperties.ResumeEffect and EventIdsDistinct |
| RunSimulation.CompleteEvent | src/lib/run-simulation.ts:150-157 | an info event of the run at step 10 whose message quotes the score out of 100; definition; its properties are lemmas RunSimulationProperties.FinaliseEffect and EventIdsDistinct |
| RunSimulation.Schedule | src/lib/run-simulation.ts:95 | `activeSimulation = setTimeout(...)`: one timer with the next handle is appended, it becomes the active handle, and nothing else changes; definition; its properties are lemmas ScheduleKeepsWellformed and RunScenario.StartSchedulesStepTwo |
| RunSimulation.ScheduleUntracked | src/lib/run-simulation.ts:195 | a bare `setTimeout(...)`: one timer with the next handle is appended and the active handle is left as it was; definition; its properties are lemmas ScheduleKeepsWellformed and RunScenario.FinalisationSurvivesStop |
| RunSimulation.RemoveAt | src/lib/run-simulation.ts:95 | a firing leaves one timer fewer pending: every timer other than the fired one stays, in its order |
| RunSimulation.RemoveAtDropsFired | src/lib/run-simulation.ts:95 | with unique increasing handles, the fired timer's handle is no longer among the pending ones |
| RunSimulation.Start | src/lib/run-simulation.ts:18-101 | an unknown id changes nothing; only the run with the id changes, and keeps its id; the checks stay; events, timers and callbacks are only added, each new event being this run's; definition; its properties are lemmas RunSimulationProperties.StartNoopIffUnknown, StartFirstReportsStepOne, StartIgnoresPriorStatus and RunScenario.StartEntersChain |
| RunSimulation.StartProcessStep | src/lib/run-simulation.ts:36-97 | past the table, or with the run gone, nothing changes; otherwise the same frame as Start; definition; its properties are lemmas RunSimulationProperties.OrdinaryStepEffect, GateStepEffect and RunScenario.ChainAdvances |
| RunSimulation.Resume | src/lib/run-simulation.ts:103-200 | an unknown id changes nothing; for a known run one event is appended and one timer, tracked as active, carries step 9's cursor, 500 ms and the log as it now stands; the same frame as Start; definition; its properties are lemmas RunSimulationProperties.ResumeNoopIffUnknown, ResumeEffect and RunScenario.ApprovalEntersResume |
| RunSimulation.ResumeProcessStep | src/lib/run-simulation.ts:135-197 | with the run gone nothing changes; otherwise the stored log becomes the captured array plus one event of this run, whatever was stored before; timers only added; the same run frame as Start; definition; its properties are lemmas RunSimulationProperties.FinaliseEffect, ResumeStepSchedules and RunScenario.ResumeAdvances |
| RunSimulation.Fire | src/lib/run-simulation.ts:191-200 | the fired timer leaves the pending list and the others keep their order ahead of any new one (through RemoveAt's pointwise contract and RemoveAtDropsFired); only its run changes; the active handle stays or becomes the new timer's; definition; its properties are lemmas FireKeepsWellformed and RunSimulationProperties.MissingRunTickIsNoop, LinksOnlyAtPrStep |
| RunSimulation.Stop | src/lib/run-simulation.ts:217-222 | the handle is null afterwards; exactly the timers not carrying the old active handle remain; runs, events, checks and callbacks are untouched; definition; its properties are lemmas RunSimulationProperties.StopIdempotent and StopCancelsOnlyActive |
| RunSimulation.IndexOf | src/lib/run-simulation.ts:24 | the position of the first run with the id, or none iff no run has it |
| RunSimulation.IndexOfUpdate | src/lib/run-simulation.ts:41 | replacing a run with one of the same id moves no lookup |
| RunSimulation.WithoutHandle | src/lib/run-simulation.ts:219 | clearTimeout keeps exactly the pending timers with another handle, in order |
| RunSimulation.FireKeepsWellformed | src/lib/run-simulation.ts:95 | a timer firing keeps handles unique and increasing |
| RunSimulation.Simulator.constructor | src/lib/run-simulation.ts:16 | the simulator starts with no pending timer and a null `activeSimulation` |
| RunSimulation.Simulator.ScheduleTimer | src/lib/run-simulation.ts:192-195 | a new timer with a fresh handle is appended; only a tracked one becomes the active handle |
| RunSimulation.Simulator.StartRunSimulation | src/lib/run-simulation.ts:18-101 | the new state is `Start` of the old one; the handle invariant is kept |
| RunSimulation.Simulator.ProcessStartStep | src/lib/run-simulation.ts:36-97 | the new state is `StartProcessStep` of the old one; the handle invariant is kept |
| RunSimulation.Simulator.ContinueAfterApproval | src/lib/run-simulation.ts:103-133 | the new state is `Resume` of the old one; the handle invariant is kept |
| RunSimulation.Simulator.ProcessResumeStep | src/lib/run-simulation.ts:135-197 | the new state is `ResumeProcessStep` of the old one; the handle invariant is kept |
| RunSimulation.Simulator.FinaliseRun | src/lib/run-simulation.ts:136-162 | the new state is `ResumeProcessStep` past the end of the table; the handle invariant is kept |
| RunSimulation.Simulator.Tick | src/lib/run-simulation.ts:95 | a pending timer fires: it leaves the list and its closure runs; the handle invariant is kept |
| RunSimulation.Simulator.StopSimulation | src/lib/run-simulation.ts:217-222 | the new state is `Stop` of the old one; the handle invariant is kept |
| RunSimulationProperties.StartNoopIffUnknown | src/lib/run-simulation.ts:23-25 | startRunSimulation saves nothing and calls no callback exactly when no stored run has the id |
| RunSimulationProperties.StartProcessStepOnlyAppends | src/lib/run-simulation.ts:57-90 | a start-chain step only adds to the callbacks already made |
| RunSimulationProperties.StartFirstReportsStepOne | src/lib/run-simulation.ts:27-32 | the first callback reports the run running, started now, at step 1 |
| RunSimulationProperties.StartIgnoresPriorStatus | src/lib/run-simulation.ts:27-30 | the outcome of a start does not depend on the run's prior status |
| RunSimulationProperties.OrdinaryStepEffect | src/lib/run-simulation.ts:39-96 | other runs are unchanged; one info event naming the step; `current_step` set; links exactly at step 7; next step scheduled iff steps remain and the delay is positive |
| RunSimulationProperties.GateStepEffect | src/lib/run-simulation.ts:69-87 | at step 8 the run awaits approval, a warn event follows the step event, and nothing is scheduled |
| RunSimulationProperties.EventIdSuffix | src/lib/run-simulation.ts:45-157 | ids made at the same instant are equal iff their suffixes are |
| RunSimulationProperties.EventIdsDistinct | src/lib/run-simulation.ts:45-157 | events made at the same instant have different ids: two step events iff their steps differ, and the step, wait, approval and completion events pairwise |
| RunSimulationProperties.MissingRunTickIsNoop | src/lib/run-simulation.ts:40-42 | a firing whose run is gone changes nothing, in either chain and at finalisation |
| RunSimulationProperties.LinksOnlyAtPrStep | src/lib/run-simulation.ts:63-66 | a firing changes a run's PR or CI link only if it processes step 7 of a start chain |
| RunSimulationProperties.ResumeNoopIffUnknown | src/lib/run-simulation.ts:108-110 | continueAfterApproval changes nothing exactly when no stored run has the id |
| RunSimulationProperties.ResumeEffect | src/lib/run-simulation.ts:112-133 | the run is set running, one info step-8 approval event is logged, and step 9 is scheduled after 500 ms as the active timer |
| RunSimulationProperties.FinaliseEffect | src/lib/run-simulation.ts:136-162 | completed, finish time, preview link, the score of the stored checks, a non-empty report, and one step-10 event naming the score |
| RunSimulationProperties.ResumeStepSchedules | src/lib/run-simulation.ts:165-196 | a resumed step logs onto the captured array; the next firing is tracked while steps remain, and the finalisation after the last step is untracked |
| RunSimulationProperties.StopIdempotent | src/lib/run-simulation.ts:217-222 | stopping twice equals stopping once; the handle is null afterwards; with no handle it is a no-op; runs, events and callbacks are untouched |
| RunSimulationProperties.WithoutHandleDropsAtMostOne | src/lib/run-simulation.ts:219 | clearTimeout removes at most one timer, and none when no timer has that handle |
| RunSimulationProperties.StopCancelsOnlyActive | src/lib/run-simulation.ts:217-222 | every pending timer other than the active one survives a stop |
| RunScenario.StepLog | src/lib/run-simulation.ts:45-57 | the step events of a stretch of the table, one per step, in order |
| RunScenario.StartEntersChain | src/lib/run-simulation.ts:27-100 | after the start, step 1 is logged and step 2 is pending |
| RunScenario.ChainAdvances | src/lib/run-simulation.ts:92-96 | each tick before the gate logs one more step and leaves the next pending |
| RunScenario.ChainReachesGate | src/lib/run-simulation.ts:69-87 | the seventh tick logs step 8 and the wait event, and the run awaits approval with nothing pending |
| RunScenario.GateFromChain | src/lib/run-simulation.ts:69-87 | after step 7, the gate step's effect leaves the run held at the gate with eight step events and the wait event |
| RunScenario.ChainTick | src/lib/run-simulation.ts:92-96 | one tick of the start chain either advances it or reaches the gate |
| RunScenario.StartedRunWaitsAtGate | src/lib/run-simulation.ts:18-101 | start plus seven ticks: eight step events and the wait event in order, links attached, run at the gate, no timer of its own left |
| RunScenario.ApprovalEntersResume | src/lib/run-simulation.ts:112-200 | approval logs the approval event and leaves step 9 pending under the active handle |
| RunScenario.ResumeAdvances | src/lib/run-simulation.ts:165-192 | each resumed tick logs one step on the captured array and leaves the next firing pending |
| RunScenario.ResumeFinalises | src/lib/run-simulation.ts:136-162 | the firing past the table completes the run and stores the captured array plus the completion event |
| RunScenario.LastTickCompletes | src/lib/run-simulation.ts:136-162 | the firing past the table, as one tick of the newest timer, completes the run |
| RunScenario.ResumeThreeTicks | src/lib/run-simulation.ts:103-201 | approval and three named ticks: steps 9 and 10 logged, then completed with one completion event; no timer left |
| RunScenario.TickNewestSplit | src/lib/run-simulation.ts:95 | ticking over two stretches of time one after the other equals ticking over both together |
| RunScenario.ApprovedRunReachesLastStep | src/lib/run-simulation.ts:103-197 | approval and two ticks log steps 9 and 10, and leave the finalisation pending |
| RunScenario.ApprovedRunCompletes | src/lib/run-simulation.ts:103-201 | approval and three ticks: steps 9 and 10, then completed with the score of the stored checks and one completion event; no timer left |
| RunScenario.WholeRun | src/lib/run-simulation.ts:18-201 | a whole run ends completed; the log has each step event, the wait and approval events, and one completion event, in order |
| RunScenario.GateToEnd | src/lib/run-simulation.ts:103-201 | from a run waiting at the gate, approval and three ticks complete it and finish its log in order |
| RunScenario.GateLogExtended | src/lib/run-simulation.ts:103-201 | the completed run and its log, stated from before the start |
| RunScenario.StartSchedulesStepTwo | src/lib/run-simulation.ts:94-95 | a start schedules step 2 under a fresh handle that becomes the active one |
| RunScenario.WithoutFreshHandle | src/lib/run-simulation.ts:219 | cancelling the newest timer's handle removes exactly that timer |
| RunScenario.DoubleStartOutlivesStop | src/lib/run-simulation.ts:16-101 | after two starts and a stop, the first chain's timer is still pending and the handle is null |
| RunScenario.LastStepLeavesStaleHandle | src/lib/run-simulation.ts:191-196 | after step 10 the active handle is step 9's, which no pending timer carries any more |
| RunScenario.NewestReplacedHandleGone | src/lib/run-simulation.ts:191-196 | when the newest timer is replaced by one with a larger handle, no timer carries the old handle |
| RunScenario.FinalisationSurvivesStop | src/lib/run-simulation.ts:193-196 | after step 10 the finalisation timer is pending, and stopSimulation leaves it in place |
| OnboardingPage.ProgressView | src/pages/Onboarding.tsx:69-71 | one entry per wizard step; completed iff the step's id is below `currentStep`, current iff equal |
| OnboardingPage.ProgressIsOrdered | src/pages/Onboarding.tsx:70-71 | no entry is both completed and current; at most one is current; everything before a completed or current entry is completed |
| OnboardingPage.WizardShowsOneCurrent | src/pages/Onboarding.tsx:19-24 | inside the wizard exactly one entry is current, and exactly those before it are completed |
| OnboardingPage.WithDemoRepo | src/pages/Onboarding.tsx:34-38 | a list that was empty gains exactly the demo repository; any other list is unchanged |
| OnboardingPage.DemoRepoOnlyOnce | src/pages/Onboarding.tsx:34-38 | asking again never adds a second repository |
| OnboardingPage.Wizard.constructor | src/pages/Onboarding.tsx:28-29 | the wizard opens at step 1 with the stored checks |
| OnboardingPage.Wizard.HandleCreateDemoRepo | src/pages/Onboarding.tsx:33-40 | the stored list gains the demo repository only when it was empty; the wizard is at step 3 either way |
| OnboardingPage.Wizard.HandleToggleCheck | src/pages/Onboarding.tsx:42-51 | the checks become the guarded toggle of the old ones; nothing else changes |
| RunDetailPage.GetStepStatus | src/pages/RunDetail.tsx:100-108 | pending throughout without a truthy current step; completed iff below it; awaiting iff it is step 8 and the run awaits approval; running iff it is another current step; pending iff above it |
| RunDetailPage.Timeline | src/pages/RunDetail.tsx:168-169 | one status per row of the step table |
| RunDetailPage.TimelineIsOrdered | src/pages/RunDetail.tsx:100-108 | at most one row is running or awaiting; every row before a non-pending row is completed |
| RunDetailPage.GateTimeline | src/pages/RunDetail.tsx:103-104 | a run held at the gate shows steps 1-7 completed, step 8 awaiting, and steps 9-10 pending |
| RunDetailPage.ChainTimeline | src/pages/RunDetail.tsx:102-107 | between steps, the last processed step shows running, with completed rows before it and pending rows after |
| RunDetailPage.CompletedTimeline | src/pages/RunDetail.tsx:102-105 | a completed run shows steps 1-9 completed and step 10 still running |
| RunDetailPage.HandleNewEvent | src/pages/RunDetail.tsx:51-53 | the event is appended at the end and the earlier events are unchanged |
| RunDetailPage.Received | src/pages/RunDetail.tsx:46-53 | delivering callbacks only appends to the page's list |
| RunDetailPage.ReceivedAppend | src/pages/RunDetail.tsx:51-53 | delivering two batches of callbacks one after the other equals delivering them together |
| RunDetailPage.StartStepMirrored | src/pages/RunDetail.tsx:51-53 | after one start-chain step, the page's list grows by exactly the events the step stored |
| RunDetailPage.StartMirrored | src/pages/RunDetail.tsx:56-60 | after a start, the page's list grows by exactly the events the start stored |
| RunDetailPage.ResumeStepMirroredIffCurrent | src/lib/run-simulation.ts:127-186 | a resumed step leaves the page and the store agreeing exactly when the captured array is still the stored log |
| RunDetailPage.StartEffect | src/pages/RunDetail.tsx:56-60 | the simulator is started exactly when the loaded run is queued and the id is truthy; otherwise nothing changes |
| RunDetailPage.HandleApprove | src/pages/RunDetail.tsx:76-80 | continueAfterApproval runs exactly when the id is truthy; otherwise nothing changes |
| RunDetailPage.StartStepNeverQueues | src/lib/run-simulation.ts:60-89 | a start-chain step never returns a run to the queue |
| RunDetailPage.StartedRunNotRetriggered | src/pages/RunDetail.tsx:56-60 | once started, the reloaded run no longer triggers the start effect |
| RepoDetailPage.RunIdAt | src/pages/RepoDetail.tsx:54 | the id is `run-` followed by digits that read back as the creation time |
| RepoDetailPage.RunIdInjective | src/pages/RepoDetail.tsx:54 | runs created at different times get different ids |
| RepoDetailPage.NewRun | src/pages/RepoDetail.tsx:53-58 | queued, for the repository, created now, with no step, start or finish time, link, score or report |
| RepoDetailPage.HandleStartRun | src/pages/RepoDetail.tsx:51-66 | the new run is appended after all previous runs, in order; the whole event log is cleared; the page navigates to the new run |
| RepoDetailPage.NewRunIsStartable | src/pages/RepoDetail.tsx:60-65 | with a fresh id, the new run is found at the end of the list and the run page's start trigger fires for it |
| RepoDetailPage.FreshLogHoldsOnlyNewRun | src/pages/RepoDetail.tsx:62 | starting from a simulator with no pending timer, once the new run reaches the gate the stored log holds its nine events and no other run's |
| RepoDetailPage.GateLogOfOneRun | src/pages/RepoDetail.tsx:62 | from an empty log, the log at the gate holds nine events, all of the run |
| RepoDetailPage.PendingResumeUndoesClear | src/pages/RepoDetail.tsx:62 | when an earlier run's resumed chain is still pending, its next firing stores the array it captured, plus one event, over the cleared log |
| RepoDetailPage.ForRepo | src/pages/RepoDetail.tsx:26 | exactly the runs of the repository |
| RepoDetailPage.Reversed | src/pages/RepoDetail.tsx:26 | the same elements in reverse order |
| RepoDetailPage.RepoRuns | src/pages/RepoDetail.tsx:26 | the repository's runs in reverse order of creation (the reversal of the repository filter), and exactly the runs whose repository id matches |
| RepoDetailPage.ForRepoAppend | src/pages/RepoDetail.tsx:26 | filtering a list with one more run adds that run at the end iff it belongs to the repository |
| RepoDetailPage.ReversedAppend | src/pages/RepoDetail.tsx:26 | the reverse of a concatenation is the concatenation of the reverses, swapped |
| RepoDetailPage.NewRunListedFirst | src/pages/RepoDetail.tsx:26 | a run started from the page heads its repository's list; the older runs follow in their previous order |
| RepoDetailPage.OtherRepoListsUnchanged | src/pages/RepoDetail.tsx:26 | starting a run leaves every other repository's list unchanged |

## Left out

- Real timers. Delays are recorded on each pending timer, but nothing orders firings by
  due time. Which timer fires next is the caller's choice of `Tick(k)`.
- Interleaving with the run page's 1-second poller and the repository page's 2-second
  poller. The pages' reload effects are not modelled.
- localStorage. The stored runs, events and checks are fields of the simulator state.
  Reads and writes are immediate. Malformed stored JSON is not modelled.
- `RUN_STEPS` and `generateReportMarkdown`, which live in `src/lib/demo-data.ts`. That
  file is not part of this model. The step table is a parameter; the whole-run lemmas
  require steps numbered 1 to 10 with positive delays. The report generator is any
  function that returns a non-empty string.
- `createDemoRepo` (also in `src/lib/demo-data.ts`), and the organisation read from
  localStorage that it is given. The demo repository is a parameter.
- Domain.Decimal: JavaScript writes integers from 10^21 on in exponent notation; the model
  writes every number in plain digits.
- Date and time. ISO timestamps and `Date.now()` are the one value `now` handed to each
  operation. Two clock readings within one call are taken to be equal.
- Scoring.CalculateScore: floating-point `enabled / total * 70` is modelled as the exact
  ratio. A ratio that sits within rounding error of a half could round differently in
  floating point.
- The two callbacks go to one `outbox` shared by all callers. The callbacks a finished
  run's closure makes to a page that has since unmounted are not distinguished.
- The copies of the run that `onRunUpdate` receives are values here, so aliasing between
  the stored run and a page's copy is not modelled.
- The wizard's other step changes (the Next and Back buttons) and `handleFinish`, which
  only navigate. The rest of the page rendering is not modelled either.
- The Dashboard average score, the Runs and Reports list filters, the landing pages,
  Login, Settings, Billing, ReportDetail, the sidebar, the layout and the routing: these
  are presentation.
- The `failed` status, which the simulator never sets.
