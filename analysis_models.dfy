/** The result records of the analysis layer: profiles, paths, anomalies,
    peering candidates, recommendations and the combined report. */
module AnalysisModels {
  import opened Wrappers
  import Seqs

  datatype HealthStatus = Healthy | Warning | Critical | Unknown

  datatype RiskLevel = Low | Medium | High | CriticalRisk

  /** The order of risk levels: LOW < MEDIUM < HIGH < CRITICAL. */
  function Rank(r: RiskLevel): nat {
    match r
    case Low => 0
    case Medium => 1
    case High => 2
    case CriticalRisk => 3
  }

  /** The more severe of two risk levels. */
  function MaxRisk(a: RiskLevel, b: RiskLevel): (m: RiskLevel)
    ensures Rank(m) >= Rank(a) && Rank(m) >= Rank(b)
    ensures m == a || m == b
  {
    if Rank(a) >= Rank(b) then a else b
  }

  datatype AnomalyType =
    | PrefixHijack | RouteLeak | PathChange | VisibilityDrop
    | RpkiInvalid | Moas | SubprefixHijack | UnusualPathLength

  datatype RecommendationType = PeerWith | JoinIx | DeployRpki | AddUpstream | MonitorPrefix | UpdateIrr

  // ---- ASN profile facets ----

  datatype Identity = Identity(asn: int, name: string, orgName: string, country: string, rir: string,
                               networkType: string, website: string)

  /** `ipv4Addresses` is kept as a real: the estimate adds `2 ** (32 - len)`,
      which Python evaluates to a fraction for a mask longer than 32. */
  datatype RoutingFootprint = RoutingFootprint(
    ipv4Prefixes: int, ipv6Prefixes: int, totalPrefixes: int, ipv4Addresses: real,
    upstreamCount: int, downstreamCount: int, peerCount: int)

  /** A footprint built with no fields: every counter 0. */
  const DefaultFootprint := RoutingFootprint(0, 0, 0, 0.0, 0, 0, 0)

  datatype RpkiStatus = RpkiStatus(hasRoas: bool, validPrefixes: int, invalidPrefixes: int,
                                   notFoundPrefixes: int, coveragePercent: real)

  /** An RPKI status built with no fields: no ROAs, every counter 0. */
  const DefaultRpki := RpkiStatus(false, 0, 0, 0, 0.0)

  /** `RPKIStatus.is_deployed`: ROAs exist and more than half of the
      prefixes are covered by them. */
  function IsDeployed(r: RpkiStatus): (b: bool)
    ensures b <==> r.hasRoas && r.coveragePercent > 50.0
  {
    r.hasRoas && r.coveragePercent > 50.0
  }

  /** Half coverage is not deployment: the threshold is strict. */
  lemma DeploymentThreshold(valid: int, invalid: int, notFound: int)
    ensures !IsDeployed(RpkiStatus(true, valid, invalid, notFound, 50.0))
    ensures IsDeployed(RpkiStatus(true, valid, invalid, notFound, 50.5))
    ensures !IsDeployed(DefaultRpki)
  {
  }

  datatype ConnectivityProfile = ConnectivityProfile(
    ixCount: int, facilityCount: int, peeringPolicy: string,
    hasLookingGlass: bool, hasRouteServer: bool, irrAsSet: string,
    ixes: seq<string>, topUpstreams: seq<int>)

  const DefaultConnectivity := ConnectivityProfile(0, 0, "", false, false, "", [], [])

  datatype AsnProfile = AsnProfile(identity: Identity, footprint: RoutingFootprint, rpki: RpkiStatus,
                                   connectivity: ConnectivityProfile, health: HealthStatus)

  /** A profile as first assembled, before its health is assessed. */
  function NewProfile(identity: Identity, footprint: RoutingFootprint, rpki: RpkiStatus,
                      connectivity: ConnectivityProfile): (p: AsnProfile)
    ensures p.health == Unknown
    ensures p.identity == identity && p.footprint == footprint && p.rpki == rpki && p.connectivity == connectivity
  {
    AsnProfile(identity, footprint, rpki, connectivity, Unknown)
  }

  // ---- path analysis ----

  datatype PathHop = PathHop(asn: int, position: int, isOrigin: bool, isDestination: bool)

  datatype AsPath = AsPath(path: seq<int>, hops: seq<PathHop>, length: int, originAsn: int,
                           hasPrepending: bool, prependCount: int)

  /** The `ASPath` constructor: a non-empty path fills in a length and an
      origin that were given as 0 from the path itself; any other given
      value is kept. */
  function NewAsPath(path: seq<int>, hops: seq<PathHop>, length: int, originAsn: int,
                     hasPrepending: bool, prependCount: int): (p: AsPath)
    ensures p.path == path && p.hops == hops
    ensures p.hasPrepending == hasPrepending && p.prependCount == prependCount
    ensures p.length == if path != [] && length == 0 then |path| else length
    ensures p.originAsn == if path != [] && originAsn == 0 then path[|path| - 1] else originAsn
    ensures path == [] ==> p.length == length && p.originAsn == originAsn
  {
    var len := if path != [] && length == 0 then |path| else length;
    var origin := if path != [] && originAsn == 0 then path[|path| - 1] else originAsn;
    AsPath(path, hops, len, origin, hasPrepending, prependCount)
  }

  /** The constructor's filling-in is settled: building a path again from
      the fields of a built one changes nothing, and a non-empty path given
      with no length and no origin gets its own length and last AS. */
  lemma NewAsPathSettled(path: seq<int>, hops: seq<PathHop>, length: int, originAsn: int,
                         hasPrepending: bool, prependCount: int)
    ensures var p := NewAsPath(path, hops, length, originAsn, hasPrepending, prependCount);
            NewAsPath(p.path, p.hops, p.length, p.originAsn, p.hasPrepending, p.prependCount) == p
    ensures path != [] ==> NewAsPath(path, hops, 0, 0, hasPrepending, prependCount).length == |path|
                           && NewAsPath(path, hops, 0, 0, hasPrepending, prependCount).originAsn == path[|path| - 1]
  {
  }

  datatype PathAnalysis = PathAnalysis(
    destination: string, pathCount: int, uniquePaths: seq<AsPath>,
    avgPathLength: real, minPathLength: int, maxPathLength: int,
    commonTransit: seq<int>, originAsns: seq<int>)

  /** A path analysis built from a destination only: every statistic 0, every list empty. */
  function EmptyPathAnalysis(destination: string): (a: PathAnalysis)
    ensures a.destination == destination && a.pathCount == 0 && a.uniquePaths == []
    ensures a.avgPathLength == 0.0 && a.minPathLength == 0 && a.maxPathLength == 0
    ensures a.commonTransit == [] && a.originAsns == []
  {
    PathAnalysis(destination, 0, [], 0.0, 0, 0, [], [])
  }

  // ---- anomalies ----

  /** The `details` an anomaly carries, by the check that raised it. */
  datatype AnomalyDetails =
    | NoDetails
    | OriginDetails(originAsns: seq<int>, pathCount: int)
    | RpkiDetails(status: string)
    | LengthDetails(maxLength: int, avgLength: real)
    | PrependDetails(path: seq<int>, prependCount: int)

  /** A detected anomaly; the free-form description is left out. */
  datatype Anomaly = Anomaly(kind: AnomalyType, severity: RiskLevel, resource: string,
                             expectedOrigin: Option<int>, observedOrigin: Option<int>,
                             details: AnomalyDetails)

  /** `Anomaly.is_critical` */
  function IsCritical(a: Anomaly): (b: bool)
    ensures b <==> a.severity == CriticalRisk
  {
    a.severity.CriticalRisk?
  }

  datatype AnomalyReport = AnomalyReport(resource: string, anomalies: seq<Anomaly>, riskLevel: RiskLevel)

  /** A report built from a resource only: no anomalies, risk LOW. */
  function NewAnomalyReport(resource: string): (r: AnomalyReport)
    ensures r.riskLevel == Low && r.anomalies == [] && r.resource == resource
  {
    AnomalyReport(resource, [], Low)
  }

  /** `AnomalyReport.anomaly_count` */
  function AnomalyCount(r: AnomalyReport): (n: nat)
    ensures n == |r.anomalies|
  {
    |r.anomalies|
  }

  /** `AnomalyReport.critical_count`: how many anomalies are critical. */
  function CriticalCount(r: AnomalyReport): (n: nat)
    ensures n <= AnomalyCount(r)
    ensures n == 0 <==> forall i :: 0 <= i < |r.anomalies| ==> !IsCritical(r.anomalies[i])
    ensures n == AnomalyCount(r) <==> forall i :: 0 <= i < |r.anomalies| ==> IsCritical(r.anomalies[i])
  {
    CountCritical(r.anomalies)
  }

  function CountCritical(s: seq<Anomaly>): (n: nat)
    ensures n <= |s|
    ensures n == 0 <==> forall i :: 0 <= i < |s| ==> !IsCritical(s[i])
    ensures n == |s| <==> forall i :: 0 <= i < |s| ==> IsCritical(s[i])
  {
    if s == [] then 0
    else
      assert forall i :: 1 <= i < |s| ==> s[i] == s[1..][i - 1];
      (if IsCritical(s[0]) then 1 else 0) + CountCritical(s[1..])
  }

  // ---- peering ----

  datatype PeeringCandidate = PeeringCandidate(
    asn: int, name: string, peeringPolicy: string, commonIxCount: int,
    commonIxes: seq<string>, trafficRatio: string, score: real)

  /** `PeeringCandidate.can_peer_at_ix` */
  function CanPeerAtIx(c: PeeringCandidate): (b: bool)
    ensures b <==> c.commonIxCount > 0
  {
    c.commonIxCount >= 1
  }

  datatype IxRecommendation = IxRecommendation(
    ixId: int, ixName: string, country: string, city: string,
    memberCount: int, potentialPeers: int, score: real, reason: IxReason)

  /** The recommendation's reason text, by its content: how many upstreams
      are present, and the member count when it is mentioned. */
  datatype IxReason = IxReason(upstreamsPresent: int, mentionedMembers: Option<int>)

  datatype PeeringReport = PeeringReport(
    asn: int, name: string, currentIxCount: int, currentPeerCount: int,
    candidates: seq<PeeringCandidate>, ixRecommendations: seq<IxRecommendation>,
    estimatedTrafficShift: real)

  // ---- recommendations and the report ----

  datatype Recommendation = Recommendation(kind: RecommendationType, priority: RiskLevel)

  datatype AnalysisReport = AnalysisReport(
    asn: int, profile: Option<AsnProfile>, pathAnalysis: Option<PathAnalysis>,
    anomalies: Option<AnomalyReport>, peering: Option<PeeringReport>,
    recommendations: seq<Recommendation>, healthScore: real)

  datatype Summary = Summary(asn: int, healthScore: real, anomalyCount: int,
                             recommendationCount: int, peeringOpportunities: int)

  /** `AnalysisReport.summary`: a missing anomaly report or peering report
      counts as zero anomalies or zero opportunities. */
  function ReportSummary(r: AnalysisReport): (s: Summary)
    ensures s.asn == r.asn && s.healthScore == r.healthScore
    ensures s.anomalyCount == (if r.anomalies.Some? then |r.anomalies.value.anomalies| else 0)
    ensures s.recommendationCount == |r.recommendations|
    ensures s.peeringOpportunities == (if r.peering.Some? then |r.peering.value.candidates| else 0)
    ensures s.anomalyCount >= 0 && s.peeringOpportunities >= 0
  {
    Summary(r.asn, r.healthScore,
            match r.anomalies { case Some(a) => AnomalyCount(a) case None => 0 },
            |r.recommendations|,
            match r.peering { case Some(p) => |p.candidates| case None => 0 })
  }
}
