/** The scoring inside the command-line commands: the five-category peer
    risk assessment and its risk level, the stability score, the winner of
    a side-by-side comparison and the duration argument. Every fetch the
    commands make is a parameter. */
module Commands {
  import opened Wrappers
  import Seqs
  import Text
  import PeeringDbModels

  // ---- duration argument ----

  datatype Span = Hours(hours: int) | Days(days: int)

  /** The duration argument of `investigate` and `backtest`: with an "h"
      anywhere it counts hours, otherwise with a "d" anywhere it counts
      days, each read after deleting every such letter (`Failure` when the
      rest is not an integer); with neither letter the command's default
      number of hours applies. */
  function ParseDuration(duration: string, defaultHours: int): (r: Result<Span>)
    ensures 'h' !in duration && 'd' !in duration ==> r == Success(Hours(defaultHours))
    ensures r.Success? && r.value.Days? ==> 'h' !in duration && 'd' in duration
    ensures r.Failure? ==> 'h' in duration || 'd' in duration
  {
    if 'h' in duration then
      match Text.ParseInt(Text.RemoveAll(duration, "h"))
      case Some(n) => Success(Hours(n))
      case None => Failure("ValueError")
    else if 'd' in duration then
      match Text.ParseInt(Text.RemoveAll(duration, "d"))
      case Some(n) => Success(Days(n))
      case None => Failure("ValueError")
    else Success(Hours(defaultHours))
  }

  /** A number followed by "h" or "d" is that many hours or days. */
  lemma DurationWithUnit(digits: string, defaultHours: int)
    requires Text.IsDigits(digits)
    ensures ParseDuration(digits + "h", defaultHours) == Success(Hours(Text.DigitsValue(digits)))
    ensures ParseDuration(digits + "d", defaultHours) == Success(Days(Text.DigitsValue(digits)))
  {
    Text.AllDigitsMeans(digits);
    assert 'h' !in digits && 'd' !in digits;
    Text.RemoveTrailing(digits, 'h');
    Text.RemoveTrailing(digits, 'd');
    Text.ParseDigits(digits);
    assert 'h' in digits + "h" && 'd' in digits + "d";
    assert 'h' !in digits + "d";
  }

  /** Mixed units are not understood: "1d2h" raises. */
  lemma MixedUnitsRaise()
    ensures ParseDuration("1d2h", 1).Failure?
  {
    assert Text.RemoveAll("1d2h", "h") == "1d2";
    assert Text.ParseInt("1d2") == None;
  }

  // ---- comparison ----

  datatype Outcome = Tie | FirstWins | SecondWins

  /** `winner` in the comparison table: equal values tie; otherwise the
      larger value wins, or the smaller one when lower is better. */
  function Winner(v1: int, v2: int, higherBetter: bool): (w: Outcome)
    ensures w == Tie <==> v1 == v2
    ensures higherBetter ==> (w == FirstWins <==> v1 > v2)
    ensures !higherBetter ==> (w == FirstWins <==> v1 < v2)
  {
    if v1 == v2 then Tie
    else if higherBetter then (if v1 > v2 then FirstWins else SecondWins)
    else (if v1 < v2 then FirstWins else SecondWins)
  }

  function Swapped(w: Outcome): Outcome {
    match w
    case Tie => Tie
    case FirstWins => SecondWins
    case SecondWins => FirstWins
  }

  /** Listing the two networks the other way round swaps the winner, and
      "lower is better" is "higher is better" with the networks swapped. */
  lemma WinnerSymmetry(v1: int, v2: int, higherBetter: bool)
    ensures Winner(v2, v1, higherBetter) == Swapped(Winner(v1, v2, higherBetter))
    ensures Winner(v1, v2, false) == Winner(v2, v1, true)
  {
  }

  // ---- peer risk ----

  /** What the peer-risk command fetched. `myAsn` is 0 when no own ASN was
      given; the target's connections are asked for only after its network
      was found, and the own connections only after that. */
  datatype PeerRiskFacts = PeerRiskFacts(
    network: Fetch<PeeringDbModels.Network>,
    targetIxlans: Fetch<seq<PeeringDbModels.NetIxLan>>,
    myAsn: int,
    myIxlans: Fetch<seq<PeeringDbModels.NetIxLan>>,
    updateCount: Option<nat>,
    upstreamCount: Option<nat>,
    days: int)

  /** The part of `risk_data["network"]` the later sections read: the
      policy (absent when the entry was replaced after a failure) and the
      IRR as-set when it was recorded. */
  datatype NetworkEntry = NetworkEntry(policy: Option<string>, irrAsSet: string)

  datatype PeerRiskScores = PeerRiskScores(maturity: int, stability: int, incident: int, policy: int, security: int)

  /** `len(set(c.ix_id for c in ixlans))`: exchanges, not ports. */
  function DistinctIxCount(ixlans: seq<PeeringDbModels.NetIxLan>): nat {
    |set c | c in ixlans :: c.ixId|
  }

  /** The exchange-presence tier: 7, 5 or 2 points for at least 10, 5 or 1 exchanges. */
  function IxTier(n: nat): (t: int)
    ensures 0 <= t <= 7
    ensures t == 0 <==> n == 0
  {
    if n >= 10 then 7 else if n >= 5 then 5 else if n >= 1 then 2 else 0
  }

  lemma IxTierMonotone(m: nat, n: nat)
    requires m <= n
    ensures IxTier(m) <= IxTier(n)
  {
  }

  /** The network entry survives only when every PeeringDB call succeeded;
      any failure after the network was found replaces it by a bare name. */
  predicate EntryKept(f: PeerRiskFacts) {
    f.network.Ok? && f.targetIxlans.Ok? && (f.myAsn == 0 || f.myIxlans.Ok?)
  }

  /** The churn deduction of the peer-risk stability section, for `count`
      updates over `days` days (at least one): up to 25 above 100 updates a
      day, up to 15 above 50, up to 5 above 10. `count / (k * d)` is the
      integer part of the per-day rate divided by `k`. */
  function ChurnPenalty(count: nat, days: int): (p: nat)
    ensures p <= 25
    ensures count <= 10 * Seqs.Max(days, 1) ==> p == 0
  {
    var d := Seqs.Max(days, 1);
    if count > 100 * d then Seqs.Min(25, count / (20 * d))
    else if count > 50 * d then Seqs.Min(15, count / (10 * d))
    else if count > 10 * d then Seqs.Min(5, count / (5 * d))
    else 0
  }

  /** More churn can cost fewer points: 100 updates in a day cost 10,
      101 cost only 5. */
  lemma ChurnPenaltyNotMonotone()
    ensures ChurnPenalty(100, 1) == 10 && ChurnPenalty(101, 1) == 5
  {
  }

  /** The policy section: 10 for "open", 7 for "selective", 3 for
      "restrictive" in any letter case, 0 for an empty policy and 5 for any
      other text. */
  function PolicyScore(policy: string): (n: int)
    ensures n == 0 <==> policy == ""
    ensures n == 10 <==> Text.Lower(policy) == "open"
    ensures n == 7 <==> Text.Lower(policy) == "selective"
    ensures n == 3 <==> Text.Lower(policy) == "restrictive"
    ensures n in {0, 3, 5, 7, 10}
  {
    if policy == "" then 0
    else if Text.Lower(policy) == "open" then 10
    else if Text.Lower(policy) == "selective" then 7
    else if Text.Lower(policy) == "restrictive" then 3
    else 5
  }

  /** Section 1, network maturity: points for a PeeringDB entry, an IRR
      as-set, a policy URL and the exchange count; also the network entry
      the later sections read, which a failed IX lookup discards. */
  method MaturitySection(f: PeerRiskFacts) returns (maturity: int, entry: NetworkEntry)
    ensures !f.network.Ok? ==> maturity == 0
    ensures f.network.Ok? ==>
              maturity == 5 + (if f.network.value.irrAsSet != "" then 5 else 0)
                          + (if f.network.value.policyUrl != "" then 3 else 0)
                          + (if f.targetIxlans.Ok? then IxTier(DistinctIxCount(f.targetIxlans.value)) else 0)
    ensures 0 <= maturity <= 20
    ensures EntryKept(f) ==> entry == NetworkEntry(Some(f.network.value.policyGeneral), f.network.value.irrAsSet)
    ensures !EntryKept(f) ==> entry == NetworkEntry(None, "")
  {
    maturity := 0;
    entry := NetworkEntry(None, "");
    match f.network {
      case Ok(net) =>
        entry := NetworkEntry(Some(net.policyGeneral), "");
        maturity := maturity + 5;
        if net.irrAsSet != "" {
          maturity := maturity + 5;
          entry := entry.(irrAsSet := net.irrAsSet);
        }
        if net.policyUrl != "" {
          maturity := maturity + 3;
        }
        match f.targetIxlans {
          case Ok(ixlans) =>
            var ixCount := DistinctIxCount(ixlans);
            if ixCount >= 10 {
              maturity := maturity + 7;
            } else if ixCount >= 5 {
              maturity := maturity + 5;
            } else if ixCount >= 1 {
              maturity := maturity + 2;
            }
            if f.myAsn != 0 && !f.myIxlans.Ok? {
              entry := NetworkEntry(None, "");
            }
          case _ =>
            entry := NetworkEntry(None, "");
        }
      case _ =>
    }
  }

  /** Section 2, routing stability: 30 less the churn penalty, never below 0. */
  method StabilitySection(updateCount: Option<nat>, days: int) returns (stability: int)
    ensures updateCount.None? ==> stability == 30
    ensures updateCount.Some? ==> stability == 30 - ChurnPenalty(updateCount.value, days)
    ensures 5 <= stability <= 30
  {
    stability := 30;
    if updateCount.Some? {
      var count := updateCount.value;
      var d := Seqs.Max(days, 1);
      if count > 100 * d {
        stability := stability - Seqs.Min(25, count / (20 * d));
      } else if count > 50 * d {
        stability := stability - Seqs.Min(15, count / (10 * d));
      } else if count > 10 * d {
        stability := stability - Seqs.Min(5, count / (5 * d));
      }
    }
    stability := Seqs.Max(0, stability);
  }

  /** Section 3, incident history: a single upstream costs 5 points. */
  method IncidentSection(upstreamCount: Option<nat>) returns (incident: int)
    ensures incident == 25 <==> upstreamCount == Some(1)
    ensures incident == 25 || incident == 30
  {
    incident := 30;
    if upstreamCount == Some(1) {
      incident := incident - 5;
    }
    incident := Seqs.Max(0, incident);
  }

  /** Section 5, security posture: a base of 5, 3 for an IRR as-set in the
      network entry, 2 for at least two upstreams, capped at 10. */
  method SecuritySection(entry: NetworkEntry, upstreamCount: Option<nat>) returns (security: int)
    ensures security == 5 + (if entry.irrAsSet != "" then 3 else 0)
                          + (if upstreamCount.Some? && upstreamCount.value >= 2 then 2 else 0)
    ensures security in {5, 7, 8, 10}
  {
    security := 5;
    if entry.irrAsSet != "" {
      security := security + 3;
    }
    if upstreamCount.Some? && upstreamCount.value >= 2 {
      security := security + 2;
    }
    security := Seqs.Min(10, security);
  }

  /** The five section scores `run_peer_risk` computes from the facts, in
      order: maturity, stability, incident history, policy compatibility and
      security posture. */
  ghost predicate SectionsOf(f: PeerRiskFacts, s: PeerRiskScores) {
    && (!f.network.Ok? ==> s.maturity == 0)
    && (f.network.Ok? ==>
          s.maturity == 5 + (if f.network.value.irrAsSet != "" then 5 else 0)
                          + (if f.network.value.policyUrl != "" then 3 else 0)
                          + (if f.targetIxlans.Ok? then IxTier(DistinctIxCount(f.targetIxlans.value)) else 0))
    && (f.updateCount.None? ==> s.stability == 30)
    && (f.updateCount.Some? ==> s.stability == 30 - ChurnPenalty(f.updateCount.value, f.days))
    && (s.incident == 25 <==> f.upstreamCount == Some(1))
    && (s.incident == 25 || s.incident == 30)
    && (EntryKept(f) ==> s.policy == PolicyScore(f.network.value.policyGeneral))
    && (!EntryKept(f) ==> s.policy == 5)
    && s.security == 5 + (if EntryKept(f) && f.network.value.irrAsSet != "" then 3 else 0)
                       + (if f.upstreamCount.Some? && f.upstreamCount.value >= 2 then 2 else 0)
  }

  /** The five sections of `run_peer_risk`, in order. */
  method ScorePeerRisk(f: PeerRiskFacts) returns (s: PeerRiskScores)
    ensures SectionsOf(f, s)
    ensures 0 <= s.maturity <= 20
    ensures 5 <= s.stability <= 30
    ensures s.security in {5, 7, 8, 10}
  {
    var maturity, entry := MaturitySection(f);
    var stability := StabilitySection(f.updateCount, f.days);
    var incident := IncidentSection(f.upstreamCount);
    // 4. policy compatibility
    var policyScore := PolicyScore(entry.policy.GetOr("Unknown"));
    var security := SecuritySection(entry, f.upstreamCount);
    s := PeerRiskScores(maturity, stability, incident, policyScore, security);
  }

  function Total(s: PeerRiskScores): int {
    s.maturity + s.stability + s.incident + s.policy + s.security
  }

  datatype PeerRisk = LowRisk | ModerateRisk | ElevatedRisk | HighRisk
  datatype Verdict = Recommended | Acceptable | Caution | NotRecommended

  /** The risk level of a total score: LOW from 80, MODERATE from 60,
      ELEVATED from 40, HIGH below. */
  function RiskFor(total: int): (r: PeerRisk)
    ensures r == LowRisk <==> total >= 80
    ensures r == ModerateRisk <==> 60 <= total < 80
    ensures r == ElevatedRisk <==> 40 <= total < 60
    ensures r == HighRisk <==> total < 40
  {
    if total >= 80 then LowRisk
    else if total >= 60 then ModerateRisk
    else if total >= 40 then ElevatedRisk
    else HighRisk
  }

  /** The recommendation printed with each risk level. */
  function VerdictFor(r: PeerRisk): Verdict {
    match r
    case LowRisk => Recommended
    case ModerateRisk => Acceptable
    case ElevatedRisk => Caution
    case HighRisk => NotRecommended
  }

  function RiskRank(r: PeerRisk): nat {
    match r
    case LowRisk => 0
    case ModerateRisk => 1
    case ElevatedRisk => 2
    case HighRisk => 3
  }

  /** A higher total never gives a higher risk, and each threshold splits
      its neighbours: 80/79, 60/59 and 40/39 land on different levels. */
  lemma RiskThresholds(t1: int, t2: int)
    requires t1 <= t2
    ensures RiskRank(RiskFor(t2)) <= RiskRank(RiskFor(t1))
    ensures RiskFor(80) != RiskFor(79) && RiskFor(60) != RiskFor(59) && RiskFor(40) != RiskFor(39)
  {
  }

  datatype PeerRiskResult = PeerRiskResult(scores: PeerRiskScores, total: int, risk: PeerRisk, verdict: Verdict)

  /** The sections never total less than 40: a network PeeringDB knows
      earns at least 5 maturity points, one it does not know (or whose entry
      is dropped) gets the neutral 5 policy points, and the other three
      sections give at least 5, 25 and 5. So the HIGH level and its "not
      recommended" verdict are never given. */
  lemma NeverHighRisk(f: PeerRiskFacts, s: PeerRiskScores)
    requires SectionsOf(f, s)
    ensures Total(s) >= 40
    ensures RiskFor(Total(s)) != HighRisk && VerdictFor(RiskFor(Total(s))) != NotRecommended
  {
    if f.updateCount.Some? {
      assert ChurnPenalty(f.updateCount.value, f.days) <= 25;
    }
    if f.network.Ok? {
      assert s.maturity >= 5;
    } else {
      assert !EntryKept(f) && s.policy == 5;
    }
  }

  /** The scoring of `run_peer_risk`: the total of the five sections is
      between 40 and 100, so the HIGH level is never reached, and its level
      and recommendation follow the thresholds. */
  method RunPeerRisk(f: PeerRiskFacts) returns (r: PeerRiskResult)
    ensures SectionsOf(f, r.scores)
    ensures r.total == Total(r.scores)
    ensures 40 <= r.total <= 100
    ensures r.risk == RiskFor(r.total) && r.verdict == VerdictFor(r.risk)
    ensures r.risk != HighRisk && r.verdict != NotRecommended
    ensures !f.network.Ok? && f.upstreamCount.None? ==> r.total == 70 - ChurnPenalty(f.updateCount.GetOr(0), f.days)
  {
    var scores := ScorePeerRisk(f);
    NeverHighRisk(f, scores);
    var total := Total(scores);
    var risk := RiskFor(total);
    r := PeerRiskResult(scores, total, risk, VerdictFor(risk));
  }

  /** A network PeeringDB does not know, with no update count and a single
      upstream, scores 0 + 30 + 25 + 5 + 5 = 65: MODERATE, acceptable. */
  lemma UnknownSingleHomed(f: PeerRiskFacts, s: PeerRiskScores)
    requires SectionsOf(f, s)
    requires !f.network.Ok? && f.updateCount.None? && f.upstreamCount == Some(1)
    ensures Total(s) == 65
    ensures RiskFor(Total(s)) == ModerateRisk && VerdictFor(RiskFor(Total(s))) == Acceptable
  {
  }

  // ---- stability command ----

  /** The update-rate deduction of the stability command: up to 30 above
      100 updates a day, up to 15 above 10. */
  function RatePenalty(count: nat, days: int): (p: nat)
    ensures p <= 30
    ensures count <= 10 * Seqs.Max(days, 1) ==> p == 0
  {
    var d := Seqs.Max(days, 1);
    if count > 100 * d then Seqs.Min(30, count / (10 * d))
    else if count > 10 * d then Seqs.Min(15, count / (2 * d))
    else 0
  }

  /** Here too more churn can cost less: 100 updates in a day cost 15,
      101 cost 10. */
  lemma RatePenaltyNotMonotone()
    ensures RatePenalty(100, 1) == 15 && RatePenalty(101, 1) == 10
  {
  }

  datatype Grade = Excellent | Good | Fair | Poor

  /** The assessment printed with a stability score. */
  function GradeFor(score: int): (g: Grade)
    ensures g == Excellent <==> score >= 90
    ensures g == Good <==> 70 <= score < 90
    ensures g == Fair <==> 50 <= score < 70
  {
    if score >= 90 then Excellent
    else if score >= 70 then Good
    else if score >= 50 then Fair
    else Poor
  }

  /** `run_stability`: 100 less the update-rate deduction (a failed fetch
      counts as no updates), clamped to [0,100]. The deduction is at most
      30, so the score never drops below 70 and the grades "Fair" and
      "Poor" are never given. */
  method RunStability(updateCount: Option<nat>, days: int) returns (score: int, grade: Grade)
    ensures score == 100 - RatePenalty(updateCount.GetOr(0), days)
    ensures 70 <= score <= 100
    ensures updateCount.None? ==> score == 100
    ensures grade == GradeFor(score)
    ensures grade == Excellent || grade == Good
  {
    var count := updateCount.GetOr(0);
    score := 100;
    var d := Seqs.Max(days, 1);
    if count > 100 * d {
      score := score - Seqs.Min(30, count / (10 * d));
    } else if count > 10 * d {
      score := score - Seqs.Min(15, count / (2 * d));
    }
    score := Seqs.Max(0, Seqs.Min(100, score));
    grade := GradeFor(score);
  }
}
