/** The security score of a scan: 100 minus a weighted count of its
    vulnerabilities, never below 0. */
module Security {
  import opened Catalog

  const CriticalWeight: int := 10
  const HighWeight: int := 5
  const MediumWeight: int := 2
  const LowWeight: int := 1

  /** The weighted count of issues (`totalIssues`); the stated total is not used. */
  function WeightedIssues(s: VulnerabilitySummary): (n: int)
    ensures NonNegative(s) ==> n >= CriticalWeight * s.critical
    ensures NonNegative(s) ==>
      (n == 0 <==> s.critical == 0 && s.high == 0 && s.medium == 0 && s.low == 0)
  {
    s.critical * CriticalWeight + s.high * HighWeight + s.medium * MediumWeight + s.low * LowWeight
  }

  /** `calculateSecurityScore`: `Math.max(0, 100 - totalIssues)`, the least
      value that is at least 0 and at least `100 - totalIssues`. */
  function SecurityScore(s: VulnerabilitySummary): (score: int)
    ensures score >= 0 && score >= 100 - WeightedIssues(s)
    ensures score == 0 || score == 100 - WeightedIssues(s)
  {
    if 100 - WeightedIssues(s) > 0 then 100 - WeightedIssues(s) else 0
  }

  predicate NonNegative(s: VulnerabilitySummary) {
    s.critical >= 0 && s.high >= 0 && s.medium >= 0 && s.low >= 0
  }

  /** With non-negative counts the score lies in [0, 100]. */
  lemma ScoreBounds(s: VulnerabilitySummary)
    requires NonNegative(s)
    ensures 0 <= SecurityScore(s) <= 100
  {
  }

  /** The score exceeds 100 exactly when the weighted count is negative,
      which only a negative count can bring about. */
  lemma ScoreAboveHundredIff(s: VulnerabilitySummary)
    ensures SecurityScore(s) > 100 <==> WeightedIssues(s) < 0
    ensures SecurityScore(s) > 100 ==> !NonNegative(s)
  {
  }

  /** A scan without findings scores exactly 100, whatever total it states. */
  lemma ScoreOfCleanScan(total: int)
    ensures SecurityScore(VulnerabilitySummary(0, 0, 0, 0, total)) == 100
  {
  }

  /** With non-negative counts, 100 is reached only by a scan without findings. */
  lemma ScorePerfectIff(s: VulnerabilitySummary)
    requires NonNegative(s)
    ensures SecurityScore(s) == 100 <==> s.critical == 0 && s.high == 0 && s.medium == 0 && s.low == 0
  {
  }

  /** `s` has at least as many findings as `t` at every severity. */
  predicate AtLeastAsSevere(s: VulnerabilitySummary, t: VulnerabilitySummary) {
    s.critical >= t.critical && s.high >= t.high && s.medium >= t.medium && s.low >= t.low
  }

  /** More findings never raise the score (in particular raising any one count). */
  lemma ScoreMonotone(s: VulnerabilitySummary, t: VulnerabilitySummary)
    requires AtLeastAsSevere(s, t)
    ensures SecurityScore(s) <= SecurityScore(t)
  {
  }

  /** The score depends on the four counts only, not on the stated total. */
  lemma ScoreIgnoresTotal(s: VulnerabilitySummary, total: int)
    ensures SecurityScore(s.(total := total)) == SecurityScore(s)
  {
  }
}
