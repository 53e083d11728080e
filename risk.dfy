/** The two risk scales the console colours by: the model's score as a
    fraction in 0..1 (tiers at 0.7 and 0.4), and the percentage stored on a
    graph node (thresholds at 70 and 85, and 40 on the mini graph). */
module Risk {
  import opened Base

  /** The three bands used by the transaction table, the detail modal and
      the graph builder. */
  datatype Tier = Low | Medium | High

  /** An ordering of the bands, lowest first. */
  function Rank(t: Tier): nat {
    match t
    case Low => 0
    case Medium => 1
    case High => 2
  }

  /** The band of a fractional score: at least 0.7 is high, at least 0.4 medium. */
  function TierOf(score: real): Tier {
    if score >= 0.7 then High else if score >= 0.4 then Medium else Low
  }

  /** A higher score never lands in a lower band, and the band boundaries
      sit exactly at 0.4 and 0.7. */
  lemma TierMonotone(x: real, y: real)
    requires x <= y
    ensures Rank(TierOf(x)) <= Rank(TierOf(y))
    ensures TierOf(x) == High ==> TierOf(y) == High
    ensures TierOf(y) == Low ==> TierOf(x) == Low
  {
  }

  /** `riskScore && riskScore > t` and `riskScore > t` on an optional node
      score: both are true exactly when a score is present and above `t`
      (an absent score compares false, and 0 is never above a positive `t`). */
  predicate Above(riskScore: Option<int>, t: nat) {
    riskScore.Some? && riskScore.value > t
  }

  /** `riskScore !== undefined && riskScore > 0`: a score worth showing. */
  predicate Shown(riskScore: Option<int>) {
    riskScore.Some? && riskScore.value > 0
  }

  /** The score as a percentage, as the graph builder stores it on nodes. */
  function RiskPct(score: real): (r: int)
    ensures 0.0 <= score <= 1.0 ==> 0 <= r <= 100
    ensures score >= 0.7 ==> r >= 70
  {
    Round(score * 100.0)
  }

  /** The percentage preserves the order of the underlying scores. */
  lemma RiskPctMonotone(x: real, y: real)
    requires x <= y
    ensures RiskPct(x) <= RiskPct(y)
  {
    RoundMonotone(x * 100.0, y * 100.0);
  }
}
