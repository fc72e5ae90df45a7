/** What each signal is worth by itself, in numbers, and how signals add up in the risk and anomaly scores. */
module SignalEffects {
  import opened Common
  import opened Models
  import opened RiskEngine
  import opened DecisionEngine
  import opened BehaviorEngine
  import opened AnomalyDetector
  import Text

  // ----- risk -----

  /** Findings count by the worst one, however many there are. */
  function FindingPoints(findings: seq<ThreatSeverity>): int {
    if Critical in findings then 90 else if High in findings then 70 else if Medium in findings then 45
    else if Low in findings then 20 else 0
  }

  lemma MaxWeightOfRepeated(findings: seq<ThreatSeverity>, f: ThreatSeverity)
    requires f in findings && forall x :: x in findings ==> Weight(x) <= Weight(f)
    ensures MaxWeight(findings) == Weight(f)
  {
    var x :| x in findings && Weight(x) == MaxWeight(findings);
  }

  lemma FindingsCount(findings: seq<ThreatSeverity>)
    ensures MaxWeight(findings) == FindingPoints(findings)
  {
    if findings != [] {
      var worst := if Critical in findings then Critical else if High in findings then High
                   else if Medium in findings then Medium else Low;
      if Critical !in findings && High !in findings && Medium !in findings {
        assert findings[0] == Low;
      }
      MaxWeightOfRepeated(findings, worst);
    }
  }

  /** Matched policies count 12 points each, up to 35. */
  function MatchPoints(matches: nat): int {
    if matches == 0 then 0 else if matches == 1 then 12 else if matches == 2 then 24 else 35
  }

  /** Trust below 80 counts half of what is missing to 80, rounded down, and 30 from trust 20 down. */
  ghost predicate TrustPoints(trust: int, points: int) {
    && (trust >= 80 ==> points == 0)
    && (20 <= trust < 80 ==> 2 * points <= 80 - trust < 2 * points + 2)
    && (trust <= 20 ==> points == 30)
  }

  ghost predicate Spells(entry: Option<string>, word: string) {
    entry.Some? && Text.SameLetters(entry.value, word)
  }

  ghost predicate WordAt(text: string, word: string, i: int) {
    0 <= i <= |text| - |word| && Text.SameLetters(text[i..i + |word|], word)
  }

  ghost predicate Mentions(entry: Option<string>, word: string) {
    entry.Some? && exists i :: WordAt(entry.value, word, i)
  }

  lemma WordIsSlice(s: string, word: string, i: int)
    requires Text.Lower(word) == word
    ensures Text.SliceAt(Text.Lower(s), word, i) <==> WordAt(s, word, i)
  {
    if 0 <= i <= |s| - |word| {
      assert Text.Lower(s)[i..i + |word|] == Text.Lower(s[i..i + |word|]);
      Text.FoldingIgnoresCase(s[i..i + |word|], word);
    }
  }

  lemma ProductionIsSpelled(m: Metadata)
    ensures IsProduction(m) <==> Spells(m.environment, "production")
  {
    if m.environment.Some? {
      LowerWord("production");
      Text.FoldingIgnoresCase(m.environment.value, "production");
    }
  }

  lemma LowerWord(word: string)
    requires forall i :: 0 <= i < |word| ==> 'a' <= word[i] <= 'z'
    ensures Text.Lower(word) == word
  {
  }

  lemma ExternalIsMentioned(source: Option<string>)
    ensures IsExternal(source) <==> Mentions(source, "external")
  {
    if source.Some? {
      var s, word := source.value, "external";
      LowerWord(word);
      Text.ContainsIsSlice(Text.Lower(s), word);
      if i :| Text.SliceAt(Text.Lower(s), word, i) {
        WordIsSlice(s, word, i);
      }
      if i :| WordAt(s, word, i) {
        WordIsSlice(s, word, i);
      }
    }
  }

  /** A production environment counts 8 points and a source that mentions "external" 6, in any case. */
  ghost function MetadataPoints(m: Metadata): int {
    (if Spells(m.environment, "production") then 8 else 0) + (if Mentions(m.source, "external") then 6 else 0)
  }

  lemma MetadataCounts(m: Metadata)
    ensures MetadataScore(m) == MetadataPoints(m)
  {
    ProductionIsSpelled(m);
    ExternalIsMentioned(m.source);
  }

  /** The Gemini levels count in any case, and anything else counts nothing. */
  ghost function GeminiPoints(gemini: Option<string>): int {
    if Spells(gemini, "LOW") then 4 else if Spells(gemini, "MEDIUM") then 10
    else if Spells(gemini, "HIGH") then 18 else if Spells(gemini, "CRITICAL") then 25 else 0
  }

  lemma UpperWords()
    ensures Text.Upper("LOW") == "LOW" && Text.Upper("MEDIUM") == "MEDIUM"
    ensures Text.Upper("HIGH") == "HIGH" && Text.Upper("CRITICAL") == "CRITICAL"
  {
  }

  lemma GeminiCounts(gemini: Option<string>)
    ensures GeminiScore(gemini) == GeminiPoints(gemini)
  {
    if gemini.Some? {
      UpperWords();
      Text.FoldingIgnoresCase(gemini.value, "LOW");
      Text.FoldingIgnoresCase(gemini.value, "MEDIUM");
      Text.FoldingIgnoresCase(gemini.value, "HIGH");
      Text.FoldingIgnoresCase(gemini.value, "CRITICAL");
    }
  }

  lemma PartsAddUp(findings: seq<ThreatSeverity>, matches: nat, trust: int, m: Metadata, gemini: Option<string>)
    ensures RiskScore(findings, matches, trust, m, gemini)
         == Min(100, MaxWeight(findings) + PolicyScore(matches) + TrustPenaltyOf(trust) + MetadataScore(m)
                     + GeminiScore(gemini))
  {
  }

  /** The risk score is the sum of the points of its five signals, up to 100. */
  lemma RiskInPoints(findings: seq<ThreatSeverity>, matches: nat, trust: int, m: Metadata, gemini: Option<string>,
                     trustPoints: int)
    requires TrustPoints(trust, trustPoints)
    ensures RiskScore(findings, matches, trust, m, gemini)
         == Min(100, FindingPoints(findings) + MatchPoints(matches) + trustPoints + MetadataPoints(m)
                     + GeminiPoints(gemini))
  {
    PartsAddUp(findings, matches, trust, m, gemini);
    FindingsCount(findings);
    MetadataCounts(m);
    GeminiCounts(gemini);
    assert PolicyScore(matches) == MatchPoints(matches) && TrustPenaltyOf(trust) == trustPoints;
  }

  /** Severity by score: critical from 85, high from 65, medium from 40. */
  lemma SeverityInPoints(risk: int)
    ensures SeverityOf(risk) == Critical <==> 85 <= risk
    ensures SeverityOf(risk) == High <==> 65 <= risk < 85
    ensures SeverityOf(risk) == Medium <==> 40 <= risk < 65
    ensures SeverityOf(risk) == Low <==> risk < 40
  {
  }

  /** Confidence is 60 and 7 more for each finding or match, up to 95, and 5 more with a Gemini level, up to 98. */
  lemma ConfidenceInPoints(signals: nat)
    ensures Confidence(signals, false) == if signals >= 5 then 95 else 60 + 7 * signals
    ensures Confidence(signals, true) == if signals >= 5 then 98 else 65 + 7 * signals
  {
  }

  /** Without an override the decision goes by the score; a matched policy or a stopped agent overrides it. */
  lemma DecisionInPoints(risk: int, matches: seq<PolicyMatch>, status: AgentStatus)
    ensures var d := Decide(risk, matches, status);
            && (status == Blocked ==> d == DecisionResult(Block, AlreadyBlocked))
            && (status == Quarantined ==> d == DecisionResult(Quarantine, CurrentlyQuarantined))
            && (status in {Operational, Warning} && matches == [] ==>
                  d == if 85 <= risk then DecisionResult(Block, CriticalRisk)
                       else if 65 <= risk then DecisionResult(Review, HighRisk)
                       else if 45 <= risk then DecisionResult(RateLimit, ElevatedRisk)
                       else DecisionResult(Allow, AcceptableRisk))
            && (status in {Operational, Warning} && matches != [] ==>
                  d.decision == StrongestAction(matches) && d.reason.PolicyMatched?)
  {
    if status in {Operational, Warning} && matches != [] {
      StrongestIsFirstInOrder(matches);
    }
  }

  ghost predicate Says(matches: seq<PolicyMatch>, d: Decision) {
    exists x :: x in matches && x.action == d
  }

  /** The first of BLOCK, QUARANTINE, RATE_LIMIT and REVIEW that some match says, and otherwise ALLOW. */
  ghost function StrongestAction(matches: seq<PolicyMatch>): Decision {
    if Says(matches, Block) then Block else if Says(matches, Quarantine) then Quarantine
    else if Says(matches, RateLimit) then RateLimit else if Says(matches, Review) then Review else Allow
  }

  lemma StrongestIsFirstInOrder(matches: seq<PolicyMatch>)
    requires matches != []
    ensures Strongest(matches).action == StrongestAction(matches)
  {
    var best := Strongest(matches);
    assert Says(matches, best.action);
    if x :| x in matches && x.action == StrongestAction(matches) {
      assert Precedence(x.action) <= Precedence(best.action);
    }
  }

  // ----- behaviour -----

  function Where(items: seq<Activity>, p: Activity -> bool): set<int> {
    set i | 0 <= i < |items| && p(items[i])
  }

  lemma WherePush(front: seq<Activity>, last: Activity, p: Activity -> bool)
    ensures Where(front + [last], p) == if p(last) then Where(front, p) + {|front|} else Where(front, p)
  {
    var all := front + [last];
    forall i ensures i in Where(all, p) <==> i in Where(front, p) || (i == |front| && p(last)) {
    }
  }

  lemma {:induction false} CountIsCardinality(items: seq<Activity>, p: Activity -> bool)
    ensures Count(items, p) == |Where(items, p)|
  {
    if items == [] {
      assert Where(items, p) == {};
    } else {
      var front, last := items[..|items| - 1], items[|items| - 1];
      assert items == front + [last];
      CountIsCardinality(front, p);
      WherePush(front, last, p);
      assert |front| !in Where(front, p);
    }
  }

  ghost predicate InLastHour(a: Activity, now: int) {
    a.timestamp.None? || now - a.timestamp.value <= 3_600_000_000
  }

  /**
   * The profile counts the items of the last hour, those of them that were stopped, and those from
   * an external source, the current request's own source included.
   */
  lemma ProfileCounts(items: seq<Activity>, m: Metadata, now: int)
    ensures var p := Profile(items, m, now);
            && p.requestCount == |set i | 0 <= i < |items| && InLastHour(items[i], now)|
            && p.blockedCount
               == |set i | 0 <= i < |items| && InLastHour(items[i], now) && items[i].decision in {Block, Quarantine}|
            && p.externalCount
               == |set i | 0 <= i < |items| && InLastHour(items[i], now) && Mentions(items[i].source, "external")|
                  + if Mentions(m.source, "external") then 1 else 0
  {
    CountIsCardinality(items, IsRequest(now));
    CountIsCardinality(items, IsBlocked(now));
    CountIsCardinality(items, IsFromOutside(now));
    ExternalIsMentioned(m.source);
    forall i | 0 <= i < |items|
      ensures IsRequest(now)(items[i]) <==> InLastHour(items[i], now)
      ensures IsBlocked(now)(items[i]) <==> InLastHour(items[i], now) && items[i].decision in {Block, Quarantine}
      ensures IsFromOutside(now)(items[i]) <==> InLastHour(items[i], now) && Mentions(items[i].source, "external")
    {
      ExternalIsMentioned(items[i].source);
    }
    assert Where(items, IsRequest(now))
        == set i | 0 <= i < |items| && InLastHour(items[i], now);
    assert Where(items, IsBlocked(now))
        == set i | 0 <= i < |items| && InLastHour(items[i], now) && items[i].decision in {Block, Quarantine};
    assert Where(items, IsFromOutside(now))
        == set i | 0 <= i < |items| && InLastHour(items[i], now) && Mentions(items[i].source, "external");
  }

  function Total(risks: seq<int>): int {
    if risks == [] then 0 else Total(risks[..|risks| - 1]) + risks[|risks| - 1]
  }

  function Risks(items: seq<Activity>): (risks: seq<int>)
    ensures |risks| == |items|
  {
    seq(|items|, i requires 0 <= i < |items| => items[i].riskScore)
  }

  lemma {:induction false} RiskSumIsTotal(items: seq<Activity>)
    ensures RiskSum(items) == Total(Risks(items))
  {
    if items != [] {
      RiskSumIsTotal(items[..|items| - 1]);
      assert Risks(items)[..|items| - 1] == Risks(items[..|items| - 1]);
    }
  }

  /** The baseline is elevated when the twenty items at the end of the list average 60 points or more. */
  ghost predicate HarshEnd(items: seq<Activity>) {
    if |items| > 20 then Total(Risks(items[|items| - 20..])) >= 1200
    else items != [] && Total(Risks(items)) >= 60 * |items|
  }

  /** The six anomaly signals of a history and a request. */
  datatype Signals = Signals(spike: bool, blocked: bool, external: bool, baseline: bool, path: bool, risk: bool)

  ghost function SignalsOf(items: seq<Activity>, m: Metadata, now: int, risk: int): Signals {
    var p := Profile(items, m, now);
    Signals(p.requestCount >= 40, p.blockedCount >= 3, p.externalCount >= 4, HarshEnd(items),
            Spells(m.environment, "production") && Mentions(m.source, "external"), risk >= 75)
  }

  /** Points for one signal alone: repeated ones count once as themselves and again as a suspicious sequence. */
  function Alone(s: Signals): int {
    (if s.spike then 20 else 0) + (if s.blocked then 25 else 0) + (if s.external then 20 else 0)
    + (if s.risk then 15 else 0)
  }

  function Sequence(s: Signals): int {
    if s.spike && (s.blocked || s.external) then 25
    else if s.blocked && s.external then 25
    else if s.spike then 15
    else if s.blocked || s.external then 12 else 0
  }

  function Drift(s: Signals): int {
    if s.baseline && s.path then 20 else if s.baseline then 12 else if s.path then 10 else 0
  }

  lemma DriftIsScored(items: seq<Activity>, m: Metadata)
    ensures ElevatedBaseline(items) <==> HarshEnd(items)
  {
    RiskSumIsTotal(Baseline(items));
  }

  /** The two scores of a profile: 25, 25 and 30 for repeated signals, 25 and 20 for drift. */
  lemma ProfileInPoints(items: seq<Activity>, m: Metadata, now: int)
    ensures var p := Profile(items, m, now);
            && p.suspiciousSequenceScore == (if p.blockedCount >= 3 then 25 else 0)
                                            + (if p.externalCount >= 4 then 25 else 0)
                                            + (if p.requestCount >= 40 then 30 else 0)
            && p.driftScore == (if HarshEnd(items) then 25 else 0)
                               + (if Spells(m.environment, "production") && Mentions(m.source, "external")
                                  then 20 else 0)
  {
    DriftIsScored(items, m);
    ProductionIsSpelled(m);
    ExternalIsMentioned(m.source);
  }

  /** The anomaly score of a request on a loaded history, from its six signals. */
  lemma AnomalyFromSignals(items: seq<Activity>, m: Metadata, now: int, risk: int)
    ensures var s := SignalsOf(items, m, now, risk);
            AnomalyScore(Profile(items, m, now), risk) == Min(100, Alone(s) + Sequence(s) + Drift(s))
  {
    DriftIsScored(items, m);
    ProductionIsSpelled(m);
    ExternalIsMentioned(m.source);
  }
}
