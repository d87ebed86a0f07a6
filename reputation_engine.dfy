/**
 * The fairness score of a moderator (src/mod-center/reputation.engine.ts),
 * computed in exact real arithmetic. `Math.round` is rounding half up,
 * i.e. `Floor(x + 0.5)`.
 */
module ReputationEngine {
  import opened ModTypes

  /** `Math.round(x)`: the nearest integer, halves rounded up. */
  function Round(x: real): (n: int)
    ensures n as real <= x + 0.5 < n as real + 1.0
  {
    (x + 0.5).Floor
  }

  /** Consistency: 100 minus two points per percent of reopened tickets, clamped at 0. */
  function Consistency(reopenRate: real): (c: real)
    ensures c >= 0.0
  {
    var c := 100.0 - reopenRate * 100.0 * 2.0;
    if c < 0.0 then 0.0 else c
  }

  /** Responsiveness: 100 up to five minutes, then one point less per minute, clamped at 0. */
  function Responsiveness(avgResponseTime: real): (r: real)
    ensures 0.0 <= r <= 100.0
  {
    if avgResponseTime > 300.0 then
      var penalised := 100.0 - (avgResponseTime - 300.0) / 60.0;
      if 0.0 > penalised then 0.0 else penalised
    else 100.0
  }

  const Reliability: real := 100.0
  const Sustainability: real := 100.0

  function CalculateReputation(stats: ModeratorStats): (score: ReputationScore)
    ensures score.reliability == 100.0 && score.sustainability == 100.0
    ensures score.consistency >= 0.0
    ensures 0.0 <= score.responsiveness <= 100.0
    ensures stats.reopenRate >= 0.0 ==> score.consistency <= 100.0 && 20 <= score.total <= 100
  {
    var consistency := Consistency(stats.reopenRate);
    var responsiveness := Responsiveness(stats.avgResponseTime);
    var total := consistency * 0.4 + responsiveness * 0.4 + Reliability * 0.2;
    ReputationScore(Round(total), consistency, Reliability, Sustainability, responsiveness)
  }

  /** Consistency is max(0, 100 - 200 * reopenRate) and never exceeds 100 for a non-negative rate. */
  lemma ConsistencyIsClampedLine(reopenRate: real)
    ensures Consistency(reopenRate) == if 100.0 - 200.0 * reopenRate < 0.0 then 0.0 else 100.0 - 200.0 * reopenRate
    ensures reopenRate >= 0.0 ==> Consistency(reopenRate) <= 100.0
  {
  }

  /** Responsiveness is full up to five minutes and never increases with a slower average. */
  lemma ResponsivenessNonIncreasing(a: real, b: real)
    requires a <= b
    ensures Responsiveness(b) <= Responsiveness(a)
    ensures a <= 300.0 ==> Responsiveness(a) == 100.0
  {
  }

  /** The total is the weighted sum 0.4 / 0.4 / 0.2 rounded to the nearest integer. */
  lemma TotalIsRoundedWeightedSum(stats: ModeratorStats)
    ensures var s := CalculateReputation(stats);
      var sum := 0.4 * s.consistency + 0.4 * s.responsiveness + 20.0;
      sum - 0.5 < s.total as real <= sum + 0.5
  {
  }

  /** A perfect moderator scores 100 in every part. */
  lemma PerfectScoreExample()
    ensures CalculateReputation(ModeratorStats(10, 0.0, 0.0, 0)) == ReputationScore(100, 100.0, 100.0, 100.0, 100.0)
  {
  }

  /** Half the tickets reopened and 65-minute responses: consistency 0, responsiveness 40, total 36. */
  lemma SlowAndReopenedExample()
    ensures CalculateReputation(ModeratorStats(10, 3900.0, 0.5, 0)) == ReputationScore(36, 0.0, 100.0, 100.0, 40.0)
  {
  }

  /** The normalisation step is the identity. */
  function NormalizeScores(allScores: seq<real>): (normalised: seq<real>)
    ensures normalised == allScores
  {
    allScores
  }
}
