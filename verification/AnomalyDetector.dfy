/** backend/app/intelligence/anomaly_detector.py */
module AnomalyDetector {
  import opened Common
  import opened BehaviorEngine

  datatype AnomalyType = CriticalBehavioralAnomaly | BehavioralDrift | SuspiciousPattern | NoAnomaly

  datatype AnomalyResult = AnomalyResult(score: int, kind: AnomalyType, confidence: int, isAnomalous: bool)

  function AnomalyScore(b: BehaviorProfile, risk: int): int {
    Min(100,
        (if b.requestCount >= 40 then 20 else 0)
        + (if b.blockedCount >= 3 then 25 else 0)
        + (if b.externalCount >= 4 then 20 else 0)
        + Min(25, b.suspiciousSequenceScore / 2)
        + Min(20, b.driftScore / 2)
        + (if risk >= 75 then 15 else 0))
  }

  function KindOf(score: int): AnomalyType {
    if score >= 75 then CriticalBehavioralAnomaly
    else if score >= 55 then BehavioralDrift
    else if score >= 35 then SuspiciousPattern
    else NoAnomaly
  }

  method Detect(b: BehaviorProfile, risk: int) returns (r: AnomalyResult)
    ensures r.score == AnomalyScore(b, risk)
    ensures r.kind == if 75 <= r.score then CriticalBehavioralAnomaly else if 55 <= r.score then BehavioralDrift
                      else if 35 <= r.score then SuspiciousPattern else NoAnomaly
    ensures r.isAnomalous <==> 35 <= r.score
    ensures r.confidence == 65 + (if b.requestCount >= 40 then 7 else 0) + (if b.blockedCount >= 3 then 7 else 0)
                            + (if b.externalCount >= 4 then 7 else 0) + (if risk >= 75 then 7 else 0)
  {
    var score, reasons := 0, 0;
    if b.requestCount >= 40 {
      score, reasons := score + 20, reasons + 1;
    }
    if b.blockedCount >= 3 {
      score, reasons := score + 25, reasons + 1;
    }
    if b.externalCount >= 4 {
      score, reasons := score + 20, reasons + 1;
    }
    score := score + Min(25, b.suspiciousSequenceScore / 2);
    score := score + Min(20, b.driftScore / 2);
    if risk >= 75 {
      score, reasons := score + 15, reasons + 1;
    }
    score := Min(100, score);
    r := AnomalyResult(score, KindOf(score), Min(99, 65 + Min(30, reasons * 7)), score >= 35);
  }

  /** A profile that is worse on every axis never looks less anomalous. */
  lemma AnomalyMonotone(good: BehaviorProfile, goodRisk: int, bad: BehaviorProfile, badRisk: int)
    requires good.requestCount <= bad.requestCount && good.blockedCount <= bad.blockedCount
    requires good.externalCount <= bad.externalCount
    requires good.suspiciousSequenceScore <= bad.suspiciousSequenceScore && good.driftScore <= bad.driftScore
    requires goodRisk <= badRisk
    ensures AnomalyScore(good, goodRisk) <= AnomalyScore(bad, badRisk)
  {
  }
}
