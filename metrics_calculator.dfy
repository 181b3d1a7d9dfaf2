/**
 * `MetricsCalculator`: quality score from issue density, tiered quantity
 * score relative to the cohort average, and the weighted final score.
 * Python floats are modelled as exact reals; `round(x, 2)` is not applied.
 */
module MetricsCalculator {

  /** issues per thousand lines, the same figure as a per-mille rate, and the quality score */
  datatype QualityMetrics = QualityMetrics(issuesPerKloc: real, issueRatePerKloc: real, qualityScore: real)

  function Max(a: real, b: real): real { if a >= b then a else b }

  /** `calculate_quality_metrics(total_issues, total_lines)` */
  function CalculateQualityMetrics(totalIssues: nat, totalLines: nat): (m: QualityMetrics)
    ensures totalLines == 0 ==> m == QualityMetrics(0.0, 0.0, 100.0)
    ensures totalLines > 0 ==> m.issuesPerKloc * totalLines as real == totalIssues as real * 1000.0
    ensures m.issueRatePerKloc == m.issuesPerKloc >= 0.0
    ensures m.qualityScore == Max(0.0, 100.0 - 2.0 * m.issuesPerKloc)
    ensures 0.0 <= m.qualityScore <= 100.0
  {
    if totalLines == 0 then QualityMetrics(0.0, 0.0, 100.0)
    else
      var issuesPerKloc := (totalIssues as real / totalLines as real) * 1000.0;
      var issueRatePerKloc := (totalIssues as real / totalLines as real) * 1000.0;
      var qualityScore := Max(0.0, 100.0 - issuesPerKloc * 2.0);
      QualityMetrics(issuesPerKloc, issueRatePerKloc, qualityScore)
  }

  lemma DivisionMonotone(x: real, y: real, d: real)
    requires d > 0.0 && x <= y
    ensures x / d <= y / d
  {
    assert y / d - x / d == (y - x) / d;
  }

  /** More issues over the same number of lines never raise the quality score. */
  lemma QualityNonIncreasing(fewer: nat, more: nat, totalLines: nat)
    requires fewer <= more
    ensures CalculateQualityMetrics(more, totalLines).qualityScore
         <= CalculateQualityMetrics(fewer, totalLines).qualityScore
  {
    if totalLines > 0 {
      DivisionMonotone(fewer as real, more as real, totalLines as real);
    }
  }

  /** No issues means a perfect score. */
  lemma NoIssuesPerfect(totalLines: nat)
    ensures CalculateQualityMetrics(0, totalLines).qualityScore == 100.0
  {
  }

  /** `calculate_quantity_score` maps a ratio to a tier by descending inclusive thresholds. */
  function Tier(ratio: real): real {
    if ratio >= 2.0 then 100.0
    else if ratio >= 1.5 then 90.0
    else if ratio >= 1.0 then 80.0
    else if ratio >= 0.8 then 70.0
    else if ratio >= 0.6 then 60.0
    else if ratio >= 0.4 then 50.0
    else if ratio >= 0.2 then 40.0
    else 30.0
  }

  /** The eight tier values. */
  predicate IsTierScore(s: real) {
    s == 30.0 || s == 40.0 || s == 50.0 || s == 60.0 || s == 70.0 || s == 80.0 || s == 90.0 || s == 100.0
  }

  /** `calculate_quantity_score(total_lines, avg_lines)` */
  function CalculateQuantityScore(totalLines: nat, avgLines: real): (s: real)
    ensures avgLines == 0.0 ==> s == 50.0
    ensures IsTierScore(s)
  {
    if avgLines == 0.0 then 50.0
    else Tier(totalLines as real / avgLines)
  }

  /** The threshold table read from the top: (lower bound of the band, score). */
  const Thresholds: seq<(real, real)> :=
    [(2.0, 100.0), (1.5, 90.0), (1.0, 80.0), (0.8, 70.0), (0.6, 60.0), (0.4, 50.0), (0.2, 40.0)]

  /** The score of the first band whose inclusive lower bound `ratio` reaches, or 30 below them all. */
  function FirstBand(ratio: real, bands: seq<(real, real)>): real {
    if bands == [] then 30.0
    else if ratio >= bands[0].0 then bands[0].1
    else FirstBand(ratio, bands[1..])
  }

  /** The if-chain agrees with the threshold table. */
  lemma TierIsFirstBand(ratio: real)
    ensures Tier(ratio) == FirstBand(ratio, Thresholds)
  {
    var t := Thresholds;
    assert t[1..] == [(1.5, 90.0), (1.0, 80.0), (0.8, 70.0), (0.6, 60.0), (0.4, 50.0), (0.2, 40.0)];
    assert t[2..] == t[1..][1..] == [(1.0, 80.0), (0.8, 70.0), (0.6, 60.0), (0.4, 50.0), (0.2, 40.0)];
    assert t[3..] == t[2..][1..] == [(0.8, 70.0), (0.6, 60.0), (0.4, 50.0), (0.2, 40.0)];
    assert t[4..] == t[3..][1..] == [(0.6, 60.0), (0.4, 50.0), (0.2, 40.0)];
    assert t[5..] == t[4..][1..] == [(0.4, 50.0), (0.2, 40.0)];
    assert t[6..] == t[5..][1..] == [(0.2, 40.0)];
    assert t[6..][1..] == [];
    assert FirstBand(ratio, t[6..]) == if ratio >= 0.2 then 40.0 else 30.0;
    assert FirstBand(ratio, t[5..]) == if ratio >= 0.4 then 50.0 else FirstBand(ratio, t[6..]);
    assert FirstBand(ratio, t[4..]) == if ratio >= 0.6 then 60.0 else FirstBand(ratio, t[5..]);
    assert FirstBand(ratio, t[3..]) == if ratio >= 0.8 then 70.0 else FirstBand(ratio, t[4..]);
    assert FirstBand(ratio, t[2..]) == if ratio >= 1.0 then 80.0 else FirstBand(ratio, t[3..]);
    assert FirstBand(ratio, t[1..]) == if ratio >= 1.5 then 90.0 else FirstBand(ratio, t[2..]);
  }

  /** A higher ratio never lands in a lower tier. */
  lemma TierMonotone(r1: real, r2: real)
    requires r1 <= r2
    ensures Tier(r1) <= Tier(r2)
  {
  }

  /** For a fixed positive average, more lines never lower the quantity score. */
  lemma QuantityScoreMonotone(fewer: nat, more: nat, avgLines: real)
    requires avgLines > 0.0 && fewer <= more
    ensures CalculateQuantityScore(fewer, avgLines) <= CalculateQuantityScore(more, avgLines)
  {
    DivisionMonotone(fewer as real, more as real, avgLines);
    TierMonotone(fewer as real / avgLines, more as real / avgLines);
  }

  /** Exactly average volume scores 80. */
  lemma AverageScoresEighty(totalLines: nat)
    requires totalLines > 0
    ensures CalculateQuantityScore(totalLines, totalLines as real) == 80.0
  {
    assert totalLines as real / totalLines as real == 1.0;
  }

  /** An author at or above a positive average scores at least 80. */
  lemma AtLeastAverageScoresEighty(totalLines: nat, avgLines: real)
    requires avgLines > 0.0 && totalLines as real >= avgLines
    ensures CalculateQuantityScore(totalLines, avgLines) >= 80.0
  {
    DivisionMonotone(avgLines, totalLines as real, avgLines);
    assert avgLines / avgLines == 1.0;
  }

  /** A ratio on a threshold takes the higher band. */
  lemma ThresholdsInclusive()
    ensures forall k :: 0 <= k < |Thresholds| ==> Tier(Thresholds[k].0) == Thresholds[k].1
  {
  }

  /** `calculate_final_score(quality, quantity)` before rounding. */
  function CalculateFinalScore(qualityScore: real, quantityScore: real): (r: real)
    ensures qualityScore <= quantityScore ==> qualityScore <= r <= quantityScore
    ensures quantityScore <= qualityScore ==> quantityScore <= r <= qualityScore
    ensures r - qualityScore == (quantityScore - qualityScore) / 5.0
  {
    qualityScore * 0.8 + quantityScore * 0.2
  }

  /** The final score is non-decreasing in both scores. */
  lemma FinalScoreMonotone(q1: real, n1: real, q2: real, n2: real)
    requires q1 <= q2 && n1 <= n2
    ensures CalculateFinalScore(q1, n1) <= CalculateFinalScore(q2, n2)
  {
  }

  /** Quality dominates: whatever the volume, the final score exceeds 80 % of quality by at most 20 points. */
  lemma QuantityCannotRescue(qualityScore: real, quantityScore: real)
    requires quantityScore <= 100.0
    ensures CalculateFinalScore(qualityScore, quantityScore) <= 0.8 * qualityScore + 20.0
  {
  }

  /** Three issues in 140 lines at the cohort average: quality 400/7 (57.14), quantity 80, final 432/7 (61.71). */
  lemma WorkedExample()
    ensures CalculateQualityMetrics(3, 140).qualityScore == 400.0 / 7.0
    ensures CalculateQuantityScore(140, 140.0) == 80.0
    ensures CalculateFinalScore(400.0 / 7.0, 80.0) == 432.0 / 7.0
  {
  }
}
