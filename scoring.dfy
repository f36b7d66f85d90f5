/** calculateScore: the check-coverage score given to a run when it completes. */
module Scoring {
  import opened Domain
  import ChecksPage

  /** Share of the score earned by enabled checks. */
  const COVERAGE_WEIGHT: nat := 70
  /** Fixed completion bonus added to every score. */
  const BONUS: nat := 30
  const MAX_SCORE: nat := 100

  function Min(a: int, b: int): int { if a <= b then a else b }

  /** Math.round(num / den) for a non-negative ratio: the nearest whole number,
      halves rounded up. */
  function RoundHalfUp(num: nat, den: nat): (r: nat)
    requires den > 0
    ensures den * (2 * r) <= 2 * num + den
    ensures 2 * num + den < den * (2 * r + 2)
  {
    var q := (2 * num + den) / (2 * den);
    assert (2 * den) * q <= 2 * num + den < (2 * den) * (q + 1);
    q
  }

  /** Cancelling a positive factor from both sides of a product inequality. */
  lemma MulLeCancel(d: nat, x: int, y: int)
    requires d > 0 && d * x <= d * y
    ensures x <= y
  {
    assert d * y - d * x == d * (y - x);
  }

  lemma MulLtCancel(d: nat, x: int, y: int)
    requires d > 0 && d * x < d * y
    ensures x < y
  {
    assert d * y - d * x == d * (y - x);
  }

  /** Rounding is monotone: a larger ratio over the same denominator never rounds lower. */
  lemma RoundMonotone(a: nat, b: nat, den: nat)
    requires den > 0 && a <= b
    ensures RoundHalfUp(a, den) <= RoundHalfUp(b, den)
  {
    var ra, rb := RoundHalfUp(a, den), RoundHalfUp(b, den);
    MulLtCancel(den, 2 * ra, 2 * rb + 2);
  }

  /** Rounding `num / den` with num <= limit * den never exceeds `limit`. */
  lemma RoundBounded(num: nat, den: nat, limit: nat)
    requires den > 0 && num <= limit * den
    ensures RoundHalfUp(num, den) <= limit
  {
    var r := RoundHalfUp(num, den);
    assert den * (2 * limit + 1) == 2 * (limit * den) + den;
    MulLeCancel(den, 2 * r, 2 * limit + 1);
  }

  /** calculateScore: min(100, round(70 * enabled / total) + 30); NaN for an empty list. */
  function CalculateScore(checks: seq<Check>): (r: Score)
    ensures r == NotANumber <==> checks == []
    ensures r.Points? ==> BONUS <= r.n <= MAX_SCORE
  {
    if |checks| == 0 then NotANumber
    else
      var base := RoundHalfUp(COVERAGE_WEIGHT * ChecksPage.EnabledCount(checks), |checks|);
      RoundBounded(COVERAGE_WEIGHT * ChecksPage.EnabledCount(checks), |checks|, COVERAGE_WEIGHT);
      Points(Min(MAX_SCORE, base + BONUS))
  }

  /** The score is the rounded coverage share plus the bonus; the cap at 100 never bites,
      because the coverage share is at most 70. */
  lemma ScoreIsCoveragePlusBonus(checks: seq<Check>)
    requires checks != []
    ensures CalculateScore(checks) ==
            Points(RoundHalfUp(COVERAGE_WEIGHT * ChecksPage.EnabledCount(checks), |checks|) + BONUS)
  {
    RoundBounded(COVERAGE_WEIGHT * ChecksPage.EnabledCount(checks), |checks|, COVERAGE_WEIGHT);
  }

  /** Every check enabled earns the full 100. */
  lemma ScoreAllEnabled(checks: seq<Check>)
    requires checks != [] && forall k :: 0 <= k < |checks| ==> checks[k].enabled
    ensures CalculateScore(checks) == Points(MAX_SCORE)
  {
    var t := |checks|;
    var r := RoundHalfUp(COVERAGE_WEIGHT * t, t);
    RoundBounded(COVERAGE_WEIGHT * t, t, COVERAGE_WEIGHT);
    assert t * (2 * COVERAGE_WEIGHT + 1) == 2 * (COVERAGE_WEIGHT * t) + t;
    MulLtCancel(t, 2 * COVERAGE_WEIGHT + 1, 2 * r + 2);
  }

  /** No check enabled leaves only the bonus. */
  lemma ScoreNoneEnabled(checks: seq<Check>)
    requires checks != [] && forall k :: 0 <= k < |checks| ==> !checks[k].enabled
    ensures CalculateScore(checks) == Points(BONUS)
  {
    var t := |checks|;
    var r := RoundHalfUp(0, t);
    MulLeCancel(t, 2 * r, 1);
  }

  /** Over check lists of the same length, more enabled checks never score lower. */
  lemma ScoreMonotone(c1: seq<Check>, c2: seq<Check>)
    requires c1 != [] && |c1| == |c2|
    requires ChecksPage.EnabledCount(c1) <= ChecksPage.EnabledCount(c2)
    ensures CalculateScore(c1).n <= CalculateScore(c2).n
  {
    RoundMonotone(COVERAGE_WEIGHT * ChecksPage.EnabledCount(c1), COVERAGE_WEIGHT * ChecksPage.EnabledCount(c2), |c1|);
    ScoreIsCoveragePlusBonus(c1);
    ScoreIsCoveragePlusBonus(c2);
  }

  /** Switching on an optional check (ids unique) never lowers the score a run would get. */
  lemma EnablingNeverLowersScore(checks: seq<Check>, k: nat)
    requires k < |checks| && ChecksPage.UniqueIds(checks)
    requires !checks[k].required && !checks[k].enabled
    ensures CalculateScore(checks).n <= CalculateScore(ChecksPage.Toggle(checks, checks[k].id)).n
  {
    ChecksPage.ToggleMovesCountByOne(checks, k);
    ScoreMonotone(checks, ChecksPage.Toggle(checks, checks[k].id));
  }

  /** Three checks with two enabled: round(46.67) + 30 = 77. */
  lemma ScoreTwoOfThree(a: Check, b: Check, c: Check)
    requires a.enabled && b.enabled && !c.enabled
    ensures CalculateScore([a, b, c]) == Points(77)
  {
    var cs := [a, b, c];
    assert ChecksPage.EnabledChecks(cs) == [a, b];
  }
}
