/** Records shared by the run simulator and the pages that drive it: runs, events,
    checks, the step table, and the decimal text the source builds ids and messages from. */
module Domain {

  datatype Option<T> = None | Some(value: T)

  /** A reading of the wall clock (milliseconds); every operation is handed the current one. */
  type Time = nat

  datatype Status = Queued | Running | AwaitingApproval | Completed | Failed

  datatype Level = Info | Warn | Error

  /** The check-coverage score of a finished run: a whole number, or NaN when the
      check list was empty and the ratio divided by zero. */
  datatype Score = Points(n: nat) | NotANumber

  /** One execution of the pipeline against a repository. Optional fields are absent
      until the simulator fills them in. */
  datatype Run = Run(
    id: string,
    repoId: string,
    status: Status,
    currentStep: Option<int>,
    createdAt: Time,
    startedAt: Option<Time>,
    finishedAt: Option<Time>,
    prUrl: Option<string>,
    ciUrl: Option<string>,
    previewUrl: Option<string>,
    score: Option<Score>,
    reportMd: Option<string>)

  /** An entry of the append-only event log. */
  datatype Event = Event(id: string, runId: string, ts: Time, level: Level, step: nat, message: string)

  /** A productionization policy; a required check cannot be switched. */
  datatype Check = Check(id: string, name: string, description: string, enabled: bool, required: bool)

  /** One row of the step table: its number, its name and the delay before the next step. */
  datatype RunStep = RunStep(step: nat, name: string, duration: int)

  datatype Repo = Repo(id: string, name: string)

  predicate IsDigit(c: char) { '0' <= c <= '9' }

  predicate AllDigits(s: string) { forall k :: 0 <= k < |s| ==> IsDigit(s[k]) }

  function Digit(d: nat): (c: char)
    requires d < 10
    ensures IsDigit(c) && c as int - '0' as int == d
  {
    ('0' as int + d) as char
  }

  /** The decimal text of a number, as JavaScript writes a non-negative integer below
      10^21 (from there on it switches to exponent notation, which is not modelled). */
  function Decimal(n: nat): (s: string)
    ensures |s| >= 1 && AllDigits(s)
    ensures n >= 10 ==> s[0] != '0'
    decreases n
  {
    if n < 10 then [Digit(n)] else Decimal(n / 10) + [Digit(n % 10)]
  }

  /** Reads a string of digits back as a number (the partner of Decimal). */
  function DecimalValue(s: string): nat
    requires AllDigits(s)
  {
    if s == [] then 0 else DecimalValue(s[..|s| - 1]) * 10 + (s[|s| - 1] as int - '0' as int)
  }

  lemma {:induction false} DecimalRoundTrip(n: nat)
    ensures DecimalValue(Decimal(n)) == n
    decreases n
  {
    if n >= 10 {
      var s := Decimal(n);
      assert s[..|s| - 1] == Decimal(n / 10);
      DecimalRoundTrip(n / 10);
    }
  }

  /** Different numbers have different decimal texts. */
  lemma DecimalInjective(a: nat, b: nat)
    ensures Decimal(a) == Decimal(b) ==> a == b
  {
    DecimalRoundTrip(a);
    DecimalRoundTrip(b);
  }
}
