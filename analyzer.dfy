/** The combined analyser: the 0-100 health score of a report, the
    resource-type test of a quick lookup, and the flags of a prefix check.
    The sub-analysers' results are parameters. */
module Analyzer {
  import opened Wrappers
  import opened AnalysisModels
  import Text

  // ---- the health score ----

  function MinReal(a: real, b: real): real { if a <= b then a else b }
  function MaxReal(a: real, b: real): real { if a >= b then a else b }

  /** The RPKI deduction: 30 for invalid prefixes, otherwise 20 when there
      are no ROAs, otherwise a tenth of the uncovered percentage. With a
      coverage in [0,100] the three causes are told apart by the amount. */
  function RpkiDeduction(r: RpkiStatus): (d: real)
    ensures 0.0 <= r.coveragePercent ==> d <= 30.0
    ensures r.coveragePercent <= 100.0 ==> d >= 0.0
    ensures 0.0 <= r.coveragePercent ==> (d == 30.0 <==> r.invalidPrefixes > 0)
    ensures 0.0 <= r.coveragePercent ==> (d == 20.0 <==> r.invalidPrefixes <= 0 && !r.hasRoas)
    ensures 0.0 <= r.coveragePercent ==> (d <= 10.0 <==> r.invalidPrefixes <= 0 && r.hasRoas)
  {
    if r.invalidPrefixes > 0 then 30.0
    else if !r.hasRoas then 20.0
    else if r.coveragePercent < 100.0 then (100.0 - r.coveragePercent) * 0.1
    else 0.0
  }

  /** 15 for fewer than two upstreams plus 10 for no exchange. */
  function ConnectivityDeduction(p: AsnProfile): (d: real)
    ensures 0.0 <= d <= 25.0
    ensures d == 0.0 <==> p.footprint.upstreamCount >= 2 && p.connectivity.ixCount != 0
  {
    (if p.footprint.upstreamCount < 2 then 15.0 else 0.0) + (if p.connectivity.ixCount == 0 then 10.0 else 0.0)
  }

  /** 30, 20 or 10 for a CRITICAL, HIGH or MEDIUM anomaly risk; nothing for
      LOW or when there is no anomaly report. */
  function AnomalyDeduction(anomalies: Option<AnomalyReport>): (d: real)
    ensures anomalies.Some? ==> d == 10.0 * Rank(anomalies.value.riskLevel) as real
    ensures anomalies.None? ==> d == 0.0
    ensures 0.0 <= d <= 30.0
  {
    if anomalies.None? then 0.0
    else match anomalies.value.riskLevel
      case CriticalRisk => 30.0
      case High => 20.0
      case Medium => 10.0
      case Low => 0.0
  }

  /** A CRITICAL status caps the score at 40, a WARNING at 70. */
  function StatusCap(score: real, h: HealthStatus): (c: real)
    ensures c <= score
    ensures h == Critical ==> c <= 40.0
    ensures h == Warning ==> c <= 70.0
    ensures h != Critical && h != Warning ==> c == score
  {
    if h == Critical then MinReal(score, 40.0)
    else if h == Warning then MinReal(score, 70.0)
    else score
  }

  /** The score `_calculate_health_score` returns. */
  function HealthScore(report: AnalysisReport): (s: real)
    ensures report.profile.None? ==> s == 50.0
    ensures 0.0 <= s <= 100.0
  {
    match report.profile
    case None => 50.0
    case Some(p) =>
      var raw := 100.0 - RpkiDeduction(p.rpki) - ConnectivityDeduction(p) - AnomalyDeduction(report.anomalies);
      MaxReal(0.0, MinReal(100.0, StatusCap(raw, p.health)))
  }

  /** `_calculate_health_score`: 50 without a profile; otherwise 100 less
      the RPKI, connectivity and anomaly deductions, capped by the health
      status and clamped to [0,100]. */
  method CalculateHealthScore(report: AnalysisReport) returns (score: real)
    ensures score == HealthScore(report)
    ensures 0.0 <= score <= 100.0
  {
    score := 100.0;
    if report.profile.None? {
      return 50.0;
    }
    var p := report.profile.value;
    if p.rpki.invalidPrefixes > 0 {
      score := score - 30.0;
    } else if !p.rpki.hasRoas {
      score := score - 20.0;
    } else if p.rpki.coveragePercent < 100.0 {
      score := score - (100.0 - p.rpki.coveragePercent) * 0.1;
    }
    if p.footprint.upstreamCount < 2 {
      score := score - 15.0;
    }
    if p.connectivity.ixCount == 0 {
      score := score - 10.0;
    }
    if report.anomalies.Some? {
      var risk := report.anomalies.value.riskLevel;
      if risk == CriticalRisk {
        score := score - 30.0;
      } else if risk == High {
        score := score - 20.0;
      } else if risk == Medium {
        score := score - 10.0;
      }
    }
    if p.health == Critical {
      score := MinReal(score, 40.0);
    } else if p.health == Warning {
      score := MinReal(score, 70.0);
    }
    score := MaxReal(0.0, MinReal(100.0, score));
  }

  /** The status caps: a CRITICAL profile never scores above 40, a WARNING
      one never above 70. */
  lemma HealthScoreCaps(report: AnalysisReport)
    requires report.profile.Some?
    ensures report.profile.value.health == Critical ==> HealthScore(report) <= 40.0
    ensures report.profile.value.health == Warning ==> HealthScore(report) <= 70.0
  {
  }

  /** With a coverage in [0,100] the deductions total at most 85, so the
      lower clamp never bites: the score is at least 15. */
  lemma HealthScoreFloor(report: AnalysisReport)
    requires report.profile.Some?
    requires 0.0 <= report.profile.value.rpki.coveragePercent <= 100.0
    ensures HealthScore(report) >= 15.0
  {
    var p := report.profile.value;
    var raw := 100.0 - RpkiDeduction(p.rpki) - ConnectivityDeduction(p) - AnomalyDeduction(report.anomalies);
    assert raw >= 15.0;
    assert StatusCap(raw, p.health) >= 15.0;
  }

  /** A profile with no RPKI gap, two upstreams, an exchange, no anomaly
      risk and no adverse status scores the full 100. */
  lemma PerfectScore(report: AnalysisReport)
    requires report.profile.Some?
    requires report.profile.value.rpki.invalidPrefixes <= 0 && report.profile.value.rpki.hasRoas
    requires report.profile.value.rpki.coveragePercent >= 100.0
    requires report.profile.value.footprint.upstreamCount >= 2 && report.profile.value.connectivity.ixCount != 0
    requires report.anomalies.None? || report.anomalies.value.riskLevel == Low
    requires report.profile.value.health == Healthy
    ensures HealthScore(report) == 100.0
  {
  }

  /** A higher anomaly risk never raises the score. */
  lemma ScoreFallsWithRisk(report: AnalysisReport, a: AnomalyReport, b: AnomalyReport)
    requires Rank(a.riskLevel) <= Rank(b.riskLevel)
    ensures HealthScore(report.(anomalies := Some(b))) <= HealthScore(report.(anomalies := Some(a)))
  {
    if report.profile.Some? {
      var p := report.profile.value;
      var base := 100.0 - RpkiDeduction(p.rpki) - ConnectivityDeduction(p);
      assert AnomalyDeduction(Some(a)) <= AnomalyDeduction(Some(b));
      CapMonotone(base - AnomalyDeduction(Some(b)), base - AnomalyDeduction(Some(a)), p.health);
    }
  }

  lemma CapMonotone(x: real, y: real, h: HealthStatus)
    requires x <= y
    ensures StatusCap(x, h) <= StatusCap(y, h)
  {
  }

  // ---- quick lookup ----

  datatype Resource = AsnResource(asn: int) | PrefixResource(prefix: string)

  /** The resource test of `lookup`: the trimmed, upper-cased text is an
      ASN when it starts with "AS" or is all digits, and a prefix
      otherwise. Reading the ASN raises (`Failure`) when what is left after
      deleting every "AS" is not an integer. */
  function ClassifyResource(resource: string): (r: Result<Resource>)
    ensures var t := Text.Upper(Text.Strip(resource));
            (Text.StartsWith(t, "AS") || Text.IsDigits(t)) <==> !(r.Success? && r.value.PrefixResource?)
    ensures r.Success? && r.value.PrefixResource? ==> r.value.prefix == Text.Upper(Text.Strip(resource))
    ensures r.Success? && r.value.AsnResource? ==> Text.NormalizeAsn(resource) == Some(r.value.asn)
    ensures r.Failure? ==> Text.NormalizeAsn(resource).None?
  {
    var t := Text.Upper(Text.Strip(resource));
    if Text.StartsWith(t, "AS") || Text.IsDigits(t) then
      match Text.ParseInt(Text.RemoveAll(t, "AS"))
      case Some(asn) => Success(AsnResource(asn))
      case None => Failure("ValueError")
    else Success(PrefixResource(t))
  }

  /** Text that reads as an ASN and normalises to `n` is the ASN `n`. */
  lemma AsnClassified(resource: string, n: int)
    requires var t := Text.Upper(Text.Strip(resource)); Text.StartsWith(t, "AS") || Text.IsDigits(t)
    requires Text.NormalizeAsn(resource) == Some(n)
    ensures ClassifyResource(resource) == Success(AsnResource(n))
  {
  }

  lemma LookupPlainDigits(d: string)
    requires Text.IsDigits(d)
    ensures ClassifyResource(d) == Success(AsnResource(Text.DigitsValue(d)))
  {
    Text.NormalizeDigits(d);
    Text.DigitForms(d);
    AsnClassified(d, Text.DigitsValue(d));
  }

  lemma LookupUpperAs(d: string)
    requires Text.IsDigits(d)
    ensures ClassifyResource("AS" + d) == Success(AsnResource(Text.DigitsValue(d)))
  {
    var w := "AS" + d;
    Text.NormalizeDigits(d);
    Text.DigitForms(d);
    assert Text.StartsWith(w, "AS");
    AsnClassified(w, Text.DigitsValue(d));
  }

  lemma LookupLowerAs(d: string)
    requires Text.IsDigits(d)
    ensures ClassifyResource("as" + d) == Success(AsnResource(Text.DigitsValue(d)))
  {
    var l := "as" + d;
    Text.NormalizeDigits(d);
    Text.LowerAsForm(d);
    Text.NormalizeIgnoresCase(l);
    assert Text.StartsWith(Text.Upper(Text.Strip(l)), "AS");
    AsnClassified(l, Text.DigitsValue(d));
  }

  /** A plain number and an "AS"-prefixed one in either case are the same ASN. */
  lemma LookupAsnForms(d: string)
    requires Text.IsDigits(d)
    ensures ClassifyResource(d) == Success(AsnResource(Text.DigitsValue(d)))
    ensures ClassifyResource("AS" + d) == Success(AsnResource(Text.DigitsValue(d)))
    ensures ClassifyResource("as" + d) == Success(AsnResource(Text.DigitsValue(d)))
  {
    LookupPlainDigits(d);
    LookupUpperAs(d);
    LookupLowerAs(d);
  }

  // ---- prefix check ----

  datatype PrefixCheck = PrefixCheck(
    prefix: string, originAsns: seq<int>, isMoas: bool, pathCount: int,
    avgPathLength: real, anomalyCount: nat, riskLevel: RiskLevel, isHealthy: bool)

  /** `check_prefix` over a path analysis and an anomaly report of the same
      prefix: several origins make a MOAS prefix, and a prefix is healthy
      exactly when no anomaly was reported. */
  function CheckPrefix(prefix: string, analysis: PathAnalysis, anomalies: AnomalyReport): (c: PrefixCheck)
    ensures c.isMoas <==> |analysis.originAsns| > 1
    ensures c.isHealthy <==> anomalies.anomalies == []
    ensures c.isHealthy ==> CriticalCount(anomalies) == 0
    ensures c.anomalyCount == |anomalies.anomalies| && c.riskLevel == anomalies.riskLevel
    ensures c.originAsns == analysis.originAsns && c.pathCount == analysis.pathCount
  {
    PrefixCheck(prefix, analysis.originAsns, |analysis.originAsns| > 1, analysis.pathCount,
                analysis.avgPathLength, AnomalyCount(anomalies), anomalies.riskLevel,
                AnomalyCount(anomalies) == 0)
  }
}
