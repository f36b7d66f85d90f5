/** The onboarding wizard: the progress list beside the wizard, creating the demo
    repository, and the guarded check switch of the configuration step. */
module OnboardingPage {
  import opened Domain
  import ChecksPage

  datatype WizardStep = WizardStep(id: int, title: string)

  /** The four wizard steps, numbered from 1. */
  const WIZARD_STEPS: seq<WizardStep> :=
    [WizardStep(1, "Welcome"), WizardStep(2, "Connect Repo"), WizardStep(3, "Configure Checks"),
     WizardStep(4, "Start Run")]

  /** The wizard step shown once the demo repository exists. */
  const CONFIGURE_CHECKS: int := 3

  /** How one entry of the progress list is drawn. */
  datatype Progress = Progress(id: int, completed: bool, current: bool)

  /** The progress list for the wizard at `currentStep`. */
  function ProgressView(currentStep: int, steps: seq<WizardStep>): (r: seq<Progress>)
    ensures |r| == |steps|
    ensures forall k :: 0 <= k < |steps| ==> r[k].id == steps[k].id
    ensures forall k :: 0 <= k < |steps| ==> (r[k].completed <==> steps[k].id < currentStep)
    ensures forall k :: 0 <= k < |steps| ==> (r[k].current <==> steps[k].id == currentStep)
  {
    if steps == [] then []
    else [Progress(steps[0].id, currentStep > steps[0].id, currentStep == steps[0].id)]
         + ProgressView(currentStep, steps[1..])
  }

  predicate IncreasingIds(steps: seq<WizardStep>)
  {
    forall a, b :: 0 <= a < b < |steps| ==> steps[a].id < steps[b].id
  }

  /** With increasing ids the list reads completed, then at most one current, then
      untouched: no entry is both, at most one is current, and everything before a
      completed or current entry is completed. */
  lemma ProgressIsOrdered(currentStep: int, steps: seq<WizardStep>)
    requires IncreasingIds(steps)
    ensures var r := ProgressView(currentStep, steps);
            && (forall k :: 0 <= k < |r| ==> !(r[k].completed && r[k].current))
            && (forall a, b :: 0 <= a < b < |r| ==> !(r[a].current && r[b].current))
            && (forall a, b :: 0 <= a < b < |r| && (r[b].completed || r[b].current) ==> r[a].completed)
  {
  }

  /** Inside the wizard (steps 1 to 4) exactly one entry is current, the one numbered
      `currentStep`, and exactly the entries before it are completed. */
  lemma WizardShowsOneCurrent(currentStep: int)
    requires 1 <= currentStep <= |WIZARD_STEPS|
    ensures var r := ProgressView(currentStep, WIZARD_STEPS);
            && r[currentStep - 1].current
            && (forall k :: 0 <= k < |r| && k != currentStep - 1 ==> !r[k].current)
            && (forall k :: 0 <= k < |r| ==> (r[k].completed <==> k < currentStep - 1))
  {
    assert forall k :: 0 <= k < |WIZARD_STEPS| ==> WIZARD_STEPS[k].id == k + 1;
  }

  /** The stored repository list after the demo repository was asked for: `demo` is
      added only when the list is empty. */
  function WithDemoRepo(repos: seq<Repo>, demo: Repo): (r: seq<Repo>)
    ensures r != []
    ensures repos != [] ==> r == repos
    ensures repos == [] ==> r == [demo]
  {
    if |repos| == 0 then [demo] else repos
  }

  /** Asking for the demo repository again never adds a second one. */
  lemma DemoRepoOnlyOnce(repos: seq<Repo>, first: Repo, second: Repo)
    ensures WithDemoRepo(WithDemoRepo(repos, first), second) == WithDemoRepo(repos, first)
    ensures |WithDemoRepo(repos, first)| == if repos == [] then 1 else |repos|
  {
  }

  /** The wizard page: its step, its copy of the check list, and the stored repositories. */
  class Wizard {
    var currentStep: int
    var checks: seq<Check>
    var repos: seq<Repo>

    constructor (checks: seq<Check>, repos: seq<Repo>)
      ensures currentStep == 1 && this.checks == checks && this.repos == repos
    {
      currentStep := 1;
      this.checks := checks;
      this.repos := repos;
    }

    /** handleCreateDemoRepo: `demo` is the repository createDemoRepo would build. */
    method HandleCreateDemoRepo(demo: Repo)
      modifies this
      ensures repos == WithDemoRepo(old(repos), demo)
      ensures currentStep == CONFIGURE_CHECKS
      ensures checks == old(checks)
    {
      if |repos| == 0 {
        repos := [demo];
      }
      currentStep := CONFIGURE_CHECKS;
    }

    /** handleToggleCheck: the same guarded switch as the checks page, saved at once. */
    method HandleToggleCheck(id: string)
      modifies this
      ensures checks == ChecksPage.Toggle(old(checks), id)
      ensures repos == old(repos) && currentStep == old(currentStep)
    {
      checks := ChecksPage.Toggle(checks, id);
    }
  }
}
