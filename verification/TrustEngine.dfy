/** backend/app/intelligence/trust_engine.py */
module TrustEngine {
  import opened Common
  import opened Models
  import AnomalyDetector

  datatype Trend = Increasing | Decreasing | Stable

  datatype TrustUpdate = TrustUpdate(trustScore: int, trend: Trend, delta: int)

  function Delta(anomalous: bool, score: int, decision: Decision, risk: int, violations: nat): int {
    (if Severe(decision) then -10 else if decision.Allow? && risk < 35 then 4 else 0)
    - (if anomalous then Max(4, score / 10) else 0)
    - (if violations > 0 then Min(12, violations * 2) else 0)
    + (if risk >= 80 then -8 else if risk <= 25 then 2 else 0)
  }

  function TrendOf(delta: int): Trend {
    if delta > 1 then Increasing else if delta < -1 then Decreasing else Stable
  }

  method UpdateTrust(current: int, anomaly: AnomalyDetector.AnomalyResult, decision: Decision, risk: int,
                     violations: nat)
    returns (u: TrustUpdate)
    ensures u.delta == Delta(anomaly.isAnomalous, anomaly.score, decision, risk, violations)
    ensures u.trustScore == Clamp(0, 100, current + u.delta)
    ensures u.trend == if u.delta >= 2 then Increasing else if u.delta <= -2 then Decreasing else Stable
  {
    var delta := 0;
    if Severe(decision) {
      delta := delta - 10;
    } else if decision.Allow? && risk < 35 {
      delta := delta + 4;
    }
    if anomaly.isAnomalous {
      var penalty := Max(4, anomaly.score / 10);
      delta := delta - penalty;
    }
    if violations > 0 {
      delta := delta - Min(12, violations * 2);
    }
    if risk >= 80 {
      delta := delta - 8;
    } else if risk <= 25 {
      delta := delta + 2;
    }
    u := TrustUpdate(Max(0, Min(100, current + delta)), TrendOf(delta), delta);
  }

  lemma DeltaBounds(anomalous: bool, score: int, decision: Decision, risk: int, violations: nat)
    requires score <= 100
    ensures -40 <= Delta(anomalous, score, decision, risk, violations) <= 6
  {
  }
}
