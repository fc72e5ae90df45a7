/** backend/app/engine/risk_engine.py */
module RiskEngine {
  import opened Common
  import opened Models
  import Text

  /** The two metadata entries the engines read; `None` is an absent key. */
  datatype Metadata = Metadata(environment: Option<string>, source: Option<string>)

  datatype RiskAssessment = RiskAssessment(
    riskScore: int,
    confidenceScore: int,
    severity: ThreatSeverity)

  predicate IsProduction(m: Metadata) {
    m.environment.Some? && Text.Lower(m.environment.value) == "production"
  }

  predicate IsExternal(source: Option<string>) {
    source.Some? && Text.Contains(Text.Lower(source.value), "external")
  }

  function Weight(s: ThreatSeverity): (w: int) {
    match s
    case Low => 20
    case Medium => 45
    case High => 70
    case Critical => 90
  }

  function MaxWeight(findings: seq<ThreatSeverity>): (w: int)
    ensures 0 <= w <= 90
    ensures forall f :: f in findings ==> Weight(f) <= w
    ensures findings != [] ==> exists f :: f in findings && Weight(f) == w
    ensures findings == [] ==> w == 0
  {
    if findings == [] then 0
    else
      var rest := MaxWeight(findings[..|findings| - 1]);
      var last := findings[|findings| - 1];
      if |findings| > 1 && rest >= Weight(last) then rest else Weight(last)
  }

  function PolicyScore(matches: nat): int {
    Min(35, matches * 12)
  }

  function TrustPenaltyOf(trust: int): int {
    if trust < 80 then Min(30, (80 - trust) / 2) else 0
  }

  function MetadataScore(m: Metadata): int {
    (if IsProduction(m) then 8 else 0) + (if IsExternal(m.source) then 6 else 0)
  }

  function GeminiScore(level: Option<string>): int {
    if level.None? then 0
    else
      var n := Text.Upper(level.value);
      if n == "LOW" then 4 else if n == "MEDIUM" then 10
      else if n == "HIGH" then 18 else if n == "CRITICAL" then 25 else 0
  }

  /** The specification of the score: the clamped sum of five independent signals. */
  function RiskScore(findings: seq<ThreatSeverity>, matches: nat, trust: int, m: Metadata,
                     gemini: Option<string>): int {
    Clamp(0, 100,
          MaxWeight(findings) + PolicyScore(matches) + TrustPenaltyOf(trust) + MetadataScore(m) + GeminiScore(gemini))
  }

  function SeverityOf(risk: int): ThreatSeverity {
    if risk >= 85 then Critical else if risk >= 65 then High else if risk >= 40 then Medium else Low
  }

  function Confidence(signals: nat, geminiPresent: bool): int {
    var base := 60 + Min(35, signals * 7);
    Clamp(50, 99, if geminiPresent then Min(98, base + 5) else base)
  }

  method Assess(findings: seq<ThreatSeverity>, matches: nat, trust: int, m: Metadata, gemini: Option<string>)
    returns (r: RiskAssessment)
    ensures r.riskScore == RiskScore(findings, matches, trust, m, gemini)
    ensures r.severity == SeverityOf(r.riskScore)
    ensures r.confidenceScore == Confidence(|findings| + matches, gemini.Some? && gemini.value != "")
    ensures 50 <= r.confidenceScore <= 99 && 0 <= r.riskScore <= 100
  {
    var maxThreat := 0;
    if findings != [] {
      maxThreat := MaxWeight(findings);
    }
    var policyScore := Min(35, matches * 12);
    var trustPenalty := 0;
    if trust < 80 {
      trustPenalty := Min(30, (80 - trust) / 2);
    }
    var metadataScore := 0;
    if IsProduction(m) {
      metadataScore := metadataScore + 8;
    }
    if IsExternal(m.source) {
      metadataScore := metadataScore + 6;
    }
    var geminiScore := 0;
    var confidence := 60 + Min(35, (|findings| + matches) * 7);
    if gemini.Some? && gemini.value != "" {
      geminiScore := GeminiScore(gemini);
      confidence := Min(98, confidence + 5);
    }
    var risk := Max(0, Min(100, maxThreat + policyScore + trustPenalty + metadataScore + geminiScore));
    r := RiskAssessment(risk, Max(50, Min(99, confidence)), SeverityOf(risk));
  }

  /** Lower trust never lowers the score, whatever the other signals are. */
  lemma RiskAntitoneInTrust(findings: seq<ThreatSeverity>, matches: nat, lo: int, hi: int, m: Metadata,
                            g: Option<string>)
    requires lo <= hi
    ensures RiskScore(findings, matches, lo, m, g) >= RiskScore(findings, matches, hi, m, g)
  {
    assert TrustPenaltyOf(lo) >= TrustPenaltyOf(hi);
  }
}
