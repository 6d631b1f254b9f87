/** The ASN profiler: the facet builders over the providers' answers, the
    issue count behind an ASN's health status, and the ordered list of
    recommendations derived from a profile.

    Every provider call is a parameter: `Option` where the source swallows
    every exception, `Fetch` where it tells PeeringDB's "not found" apart
    from other failures. */
module Asn {
  import opened Wrappers
  import opened AnalysisModels
  import Seqs
  import Text
  import RipestatModels
  import PeeringDbModels

  // ---- identity ----

  /** `overview.holder or ""`: a missing or empty holder gives "". */
  function HolderName(overview: Option<RipestatModels.AsOverview>): string {
    if overview.Some? then overview.value.holder.GetOr("") else ""
  }

  /** `overview.rir or ""` */
  function RirName(overview: Option<RipestatModels.AsOverview>): string {
    if overview.Some? then overview.value.rir.GetOr("") else ""
  }

  /** The identity `get_identity` builds from its answers: the RIPEstat
      holder names the network and PeeringDB's name is used only when the
      holder is missing or empty; the RIR comes from RIPEstat alone; the type
      and website come from the PeeringDB network; the organisation's name
      and country are used only when the network has a non-zero org id and
      the organisation could be fetched. */
  predicate IdentityFrom(asn: int, overview: Option<RipestatModels.AsOverview>,
                         network: Fetch<PeeringDbModels.Network>, org: Option<PeeringDbModels.Organization>,
                         id: Identity)
  {
    && id.asn == asn
    && id.rir == RirName(overview)
    && (HolderName(overview) != "" ==> id.name == HolderName(overview))
    && (HolderName(overview) == "" && network.Ok? ==> id.name == network.value.name)
    && (network.NotFound? ==> id.name == HolderName(overview) && id.networkType == "" && id.website == "")
    && (network.Ok? ==> id.networkType == network.value.infoType && id.website == network.value.website)
    && (network.Ok? && network.value.orgId != 0 && org.Some? ==>
          id.orgName == org.value.name && id.country == org.value.country)
    && (!(network.Ok? && network.value.orgId != 0 && org.Some?) ==> id.orgName == "" && id.country == "")
  }

  /** `get_identity`. A PeeringDB failure other than "not found" is not
      caught and escapes as `Failure`; otherwise the identity is the one
      `IdentityFrom` describes. */
  method GetIdentity(asn: int, overview: Option<RipestatModels.AsOverview>,
                     network: Fetch<PeeringDbModels.Network>, org: Option<PeeringDbModels.Organization>)
    returns (r: Result<Identity>)
    ensures r.Failure? <==> network.Failed?
    ensures r.Success? ==> IdentityFrom(asn, overview, network, org, r.value)
  {
    var identity := Identity(asn, "", "", "", "", "", "");
    if overview.Some? {
      identity := identity.(name := overview.value.holder.GetOr(""), rir := overview.value.rir.GetOr(""));
    }
    match network {
      case Failed =>
        return Failure("PeeringDBError");
      case NotFound =>
      case Ok(net) =>
        if identity.name == "" {
          identity := identity.(name := net.name);
        }
        identity := identity.(networkType := net.infoType, website := net.website);
        if net.orgId != 0 && org.Some? {
          identity := identity.(orgName := org.value.name, country := org.value.country);
        }
    }
    r := Success(identity);
  }

  // ---- routing footprint ----

  function Pow2(n: nat): (p: nat)
    ensures p >= 1
  {
    if n == 0 then 1 else 2 * Pow2(n - 1)
  }

  lemma {:induction false} Pow2Monotone(m: nat, n: nat)
    requires m <= n
    ensures Pow2(m) <= Pow2(n)
  {
    if m < n {
      Pow2Monotone(m, n - 1);
    }
  }

  /** `2 ** (32 - prefix_len)`: a whole power of two for a mask of at most
      32 bits, a fraction `1 / 2 ** (len - 32)` for a longer one. */
  function BlockSize(len: int): (b: real)
    ensures b > 0.0
    ensures len <= 32 ==> b >= 1.0
    ensures len > 32 ==> b < 1.0
  {
    if len <= 32 then Pow2(32 - len) as real
    else
      var d := Pow2(len - 32);
      assert d >= 2;
      1.0 / d as real
  }

  /** `int(p.split("/")[1])`, or `None` where that raises. */
  function MaskOf(p: string): Option<int> {
    var parts := Text.Split(p, '/');
    if |parts| < 2 then None else Text.ParseInt(parts[1])
  }

  /** What one prefix adds to the estimate: its block size, or nothing
      when its mask part is missing or does not parse. */
  function AddressesOf(p: string): real {
    match MaskOf(p)
    case Some(len) => BlockSize(len)
    case None => 0.0
  }

  /** The address estimate of a list of IPv4 prefixes. */
  function AddressTotal(ps: seq<string>): real {
    Seqs.SumOf(ps, AddressesOf)
  }

  /** The estimate adds up across a split of the prefix list. */
  lemma AddressTotalAppend(a: seq<string>, b: seq<string>)
    ensures AddressTotal(a + b) == AddressTotal(a) + AddressTotal(b)
  {
    Seqs.SumOfAppend(a, b, AddressesOf);
  }

  /** A prefix whose mask is missing or malformed contributes nothing. */
  lemma MalformedSkipped(ps: seq<string>, p: string)
    requires MaskOf(p).None?
    ensures AddressTotal(ps + [p]) == AddressTotal(ps)
  {
    assert (ps + [p])[..|ps|] == ps;
  }

  /** A mask between 0 and 32 stands for between 1 and 2^32 addresses. */
  predicate WellMasked(p: string) {
    MaskOf(p).Some? && 0 <= MaskOf(p).value <= 32
  }

  /** The size of the IPv4 address space, 2^32. */
  const AddressSpace: real := 4294967296.0

  lemma {:induction false} Pow2Add(m: nat, n: nat)
    ensures Pow2(m + n) == Pow2(m) * Pow2(n)
  {
    if n > 0 {
      Pow2Add(m, n - 1);
    }
  }

  lemma AddressSpaceIsPow2()
    ensures Pow2(32) as real == AddressSpace
  {
    assert Pow2(4) == 16;
    Pow2Add(4, 4);
    Pow2Add(8, 8);
    Pow2Add(16, 16);
  }

  lemma WellMaskedBlock(p: string)
    requires WellMasked(p)
    ensures 1.0 <= AddressesOf(p) <= AddressSpace
  {
    Pow2Monotone(32 - MaskOf(p).value, 32);
    AddressSpaceIsPow2();
  }

  /** With every mask between 0 and 32 each prefix adds at least one and at
      most 2^32 addresses. */
  lemma AddressTotalBounds(ps: seq<string>)
    requires forall i :: 0 <= i < |ps| ==> WellMasked(ps[i])
    ensures |ps| as real <= AddressTotal(ps) <= |ps| as real * AddressSpace
  {
    forall i | 0 <= i < |ps|
      ensures 1.0 <= AddressesOf(ps[i]) <= AddressSpace
    {
      WellMaskedBlock(ps[i]);
    }
    Seqs.SumOfBounds(ps, AddressesOf, 1.0, AddressSpace);
  }

  /** The `total_ips` loop of `get_routing_footprint`. */
  method EstimateIpv4Addresses(prefixes: seq<string>) returns (total: real)
    ensures total == AddressTotal(prefixes)
    ensures total >= 0.0
  {
    total := 0.0;
    for i := 0 to |prefixes|
      invariant total == AddressTotal(prefixes[..i])
      invariant total >= 0.0
    {
      assert prefixes[..i + 1][..i] == prefixes[..i];
      assert AddressTotal(prefixes[..i + 1]) == total + AddressesOf(prefixes[i]);
      var parts := Text.Split(prefixes[i], '/');
      if |parts| >= 2 {
        var len := Text.ParseInt(parts[1]);
        if len.Some? {
          total := total + BlockSize(len.value);
        }
      }
    }
    assert prefixes[..|prefixes|] == prefixes;
  }

  /** The footprint `get_routing_footprint` builds from its two independent
      fetches: the prefix counts by family, all prefixes, and the address
      estimate over the IPv4 prefixes; the neighbour counts, peers being the
      left and right neighbours together; a failed fetch leaves its counters
      at 0. */
  predicate FootprintFrom(prefixes: Option<RipestatModels.AnnouncedPrefixes>,
                          neighbours: Option<RipestatModels.ASNeighbours>, f: RoutingFootprint)
  {
    && (prefixes.Some? ==>
          && f.ipv4Prefixes == |RipestatModels.Ipv4Prefixes(prefixes.value)|
          && f.ipv6Prefixes == |RipestatModels.Ipv6Prefixes(prefixes.value)|
          && f.totalPrefixes == |prefixes.value.prefixes|
          && f.ipv4Addresses == AddressTotal(RipestatModels.Ipv4Prefixes(prefixes.value)))
    && (prefixes.None? ==>
          f.ipv4Prefixes == 0 && f.ipv6Prefixes == 0 && f.totalPrefixes == 0 && f.ipv4Addresses == 0.0)
    && (neighbours.Some? ==>
          && f.upstreamCount == |neighbours.value.upstreams|
          && f.downstreamCount == |neighbours.value.downstreams|
          && f.peerCount == |neighbours.value.left| + |neighbours.value.right|)
    && (neighbours.None? ==> f.upstreamCount == 0 && f.downstreamCount == 0 && f.peerCount == 0)
  }

  /** `get_routing_footprint`. */
  method GetRoutingFootprint(prefixes: Option<RipestatModels.AnnouncedPrefixes>,
                             neighbours: Option<RipestatModels.ASNeighbours>)
    returns (f: RoutingFootprint)
    ensures FootprintFrom(prefixes, neighbours, f)
    ensures f.ipv4Addresses >= 0.0
  {
    f := DefaultFootprint;
    if prefixes.Some? {
      var v4 := RipestatModels.Ipv4Prefixes(prefixes.value);
      f := f.(ipv4Prefixes := |v4|,
              ipv6Prefixes := |RipestatModels.Ipv6Prefixes(prefixes.value)|,
              totalPrefixes := RipestatModels.PrefixCount(prefixes.value));
      var total := EstimateIpv4Addresses(v4);
      f := f.(ipv4Addresses := total);
    }
    if neighbours.Some? {
      var n := neighbours.value;
      f := f.(upstreamCount := |n.upstreams|, downstreamCount := |n.downstreams|,
              peerCount := |n.left| + |n.right|);
    }
  }

  // ---- RPKI status ----

  /** The sizes of the "valid", "invalid" and "not_found" lists of an RPKI check. */
  datatype RpkiCounts = RpkiCounts(valid: nat, invalid: nat, notFound: nat)

  /** `(valid / total) * 100`: the valid share of the checked prefixes, in percent. */
  function CoveragePercent(valid: nat, total: nat): (c: real)
    requires valid <= total && total > 0
    ensures c * total as real == 100.0 * valid as real
    ensures 0.0 <= c <= 100.0
    ensures c > 0.0 <==> valid > 0
    ensures c == 100.0 <==> valid == total
  {
    var share := valid as real / total as real;
    Seqs.DivUpper(valid as real, total as real, 1.0);
    assert share * total as real == valid as real;
    assert valid == total ==> share == 1.0;
    share * 100.0
  }

  /** The RPKI status `get_rpki_status` builds: the defaults when the check
      fails; otherwise the three counts, ROAs exactly when some prefix is
      valid, and the valid share in percent (0 when nothing was checked). */
  predicate RpkiFrom(data: Option<RpkiCounts>, s: RpkiStatus) {
    && (data.None? ==> s == DefaultRpki)
    && (data.Some? ==>
          && s.validPrefixes == data.value.valid
          && s.invalidPrefixes == data.value.invalid
          && s.notFoundPrefixes == data.value.notFound
          && (s.hasRoas <==> data.value.valid > 0))
    && (data.Some? && data.value.valid + data.value.invalid + data.value.notFound > 0 ==>
          s.coveragePercent == CoveragePercent(data.value.valid, data.value.valid + data.value.invalid + data.value.notFound))
    && (data.Some? && data.value.valid + data.value.invalid + data.value.notFound == 0 ==> s.coveragePercent == 0.0)
  }

  /** The status counts as deployed exactly when more than half of the
      checked prefixes are valid. */
  lemma DeployedIffMajorityValid(data: Option<RpkiCounts>, s: RpkiStatus)
    requires RpkiFrom(data, s)
    ensures data.None? ==> !IsDeployed(s)
    ensures data.Some? ==>
              (IsDeployed(s) <==> 2 * data.value.valid > data.value.valid + data.value.invalid + data.value.notFound)
  {
    if data.Some? {
      var v, t := data.value.valid, data.value.valid + data.value.invalid + data.value.notFound;
      if t > 0 {
        MajorityShare(CoveragePercent(v, t), v as real, t as real);
        assert 2 * v > t <==> 2.0 * v as real > t as real;
      }
    }
  }

  /** A share of `c` percent of `t` that makes up `v` is above one half
      exactly when `v` is more than half of `t`. */
  lemma MajorityShare(c: real, v: real, t: real)
    requires t > 0.0 && c * t == 100.0 * v
    ensures c > 50.0 <==> 2.0 * v > t
  {
    assert (c - 50.0) * t == 100.0 * v - 50.0 * t;
    if c > 50.0 {
      assert (c - 50.0) * t > 0.0;
    } else {
      assert (50.0 - c) * t >= 0.0;
    }
  }

  /** `get_rpki_status`. The coverage is the valid share of all checked
      prefixes, in percent, and stays 0 when nothing was checked; ROAs are
      present exactly when some prefix is valid. */
  method GetRpkiStatus(data: Option<RpkiCounts>) returns (s: RpkiStatus)
    ensures RpkiFrom(data, s)
    ensures 0.0 <= s.coveragePercent <= 100.0
    ensures s.hasRoas <==> s.coveragePercent > 0.0
    ensures s.coveragePercent == 100.0 <==> s.hasRoas && s.invalidPrefixes == 0 && s.notFoundPrefixes == 0
  {
    s := DefaultRpki;
    if data.Some? {
      var valid := data.value.valid;
      var invalid := data.value.invalid;
      var notFound := data.value.notFound;
      var total := valid + invalid + notFound;
      s := s.(validPrefixes := valid, invalidPrefixes := invalid, notFoundPrefixes := notFound,
              hasRoas := valid > 0);
      if total > 0 {
        s := s.(coveragePercent := CoveragePercent(valid, total));
      }
    }
  }

  // ---- connectivity ----

  /** The connectivity profile `get_connectivity_profile` builds: the
      presence counts and the first ten exchange names; the network's
      policy, IRR as-set, looking glass and route server, only when both
      the presence and the network were fetched; the first five upstreams. */
  predicate ConnectivityFrom(presence: Option<PeeringDbModels.NetworkPresence>,
                             network: Option<PeeringDbModels.Network>, upstreams: Option<seq<int>>,
                             c: ConnectivityProfile)
  {
    && (presence.Some? ==>
          && c.ixCount == presence.value.ixCount
          && c.facilityCount == presence.value.facilityCount
          && |c.ixes| == Seqs.Min(10, |presence.value.exchanges|)
          && (forall i :: 0 <= i < |c.ixes| ==> c.ixes[i] == presence.value.exchanges[i].name))
    && (presence.None? ==> c.ixCount == 0 && c.facilityCount == 0 && c.ixes == [])
    && (presence.Some? && network.Some? ==>
          && c.peeringPolicy == network.value.policyGeneral
          && c.irrAsSet == network.value.irrAsSet
          && (c.hasLookingGlass <==> network.value.lookingGlass != "")
          && (c.hasRouteServer <==> network.value.routeServer != ""))
    && (presence.None? || network.None? ==>
          c.peeringPolicy == "" && c.irrAsSet == "" && !c.hasLookingGlass && !c.hasRouteServer)
    && (upstreams.Some? ==> c.topUpstreams == Seqs.Take(upstreams.value, 5))
    && (upstreams.None? ==> c.topUpstreams == [])
  }

  /** `get_connectivity_profile`. The presence fetch and the network fetch
      share one handler: when the presence fails the network is not asked
      for; the upstream list is fetched on its own. At most ten exchange
      names and five upstreams are kept. */
  method GetConnectivityProfile(presence: Option<PeeringDbModels.NetworkPresence>,
                                network: Option<PeeringDbModels.Network>,
                                upstreams: Option<seq<int>>)
    returns (c: ConnectivityProfile)
    ensures ConnectivityFrom(presence, network, upstreams, c)
  {
    c := DefaultConnectivity;
    if presence.Some? {
      var p := presence.value;
      var shown := Seqs.Take(p.exchanges, 10);
      c := c.(ixCount := p.ixCount, facilityCount := p.facilityCount,
              ixes := seq(|shown|, i requires 0 <= i < |shown| => shown[i].name));
      if network.Some? {
        var net := network.value;
        c := c.(peeringPolicy := net.policyGeneral, hasLookingGlass := net.lookingGlass != "",
                hasRouteServer := net.routeServer != "", irrAsSet := net.irrAsSet);
      }
    }
    if upstreams.Some? {
      c := c.(topUpstreams := Seqs.Take(upstreams.value, 5));
    }
  }

  // ---- health ----

  /** The issues `_assess_health` counts: two for invalid prefixes or else
      one for no ROAs at all, one for fewer than two upstreams, and one for
      a presence at a single exchange, or at none while prefixes are
      announced. */
  function IssueCount(f: RoutingFootprint, r: RpkiStatus, c: ConnectivityProfile): (n: nat)
    ensures n <= 4
    ensures n == 0 <==> r.invalidPrefixes <= 0 && r.hasRoas && f.upstreamCount >= 2
                        && c.ixCount != 1 && !(c.ixCount == 0 && f.totalPrefixes > 0)
    ensures r.invalidPrefixes > 0 ==> n >= 2
  {
    (if r.invalidPrefixes > 0 then 2 else if !r.hasRoas then 1 else 0)
    + (if f.upstreamCount < 2 then 1 else 0)
    + (if c.ixCount == 1 || (c.ixCount == 0 && f.totalPrefixes > 0) then 1 else 0)
  }

  /** How bad a status is: HEALTHY < WARNING < CRITICAL. */
  function Severity(h: HealthStatus): nat {
    match h
    case Healthy => 0
    case Warning => 1
    case Critical => 2
    case Unknown => 3
  }

  /** The status an issue count maps to. */
  function StatusFor(issues: nat): (h: HealthStatus)
    ensures h != Unknown
    ensures h == Healthy <==> issues == 0
    ensures h == Critical <==> issues >= 3
  {
    if issues >= 3 then Critical
    else if issues >= 2 then Warning
    else if issues == 0 then Healthy
    else Warning
  }

  /** More issues never give a healthier status. */
  lemma StatusMonotone(m: nat, n: nat)
    requires m <= n
    ensures Severity(StatusFor(m)) <= Severity(StatusFor(n))
  {
  }

  /** `_assess_health`: counts the issues one check at a time and maps the
      count to a status; the result is never UNKNOWN. */
  method AssessHealth(f: RoutingFootprint, r: RpkiStatus, c: ConnectivityProfile) returns (h: HealthStatus)
    ensures h == StatusFor(IssueCount(f, r, c))
    ensures h != Unknown
    ensures r.invalidPrefixes > 0 ==> h != Healthy
  {
    var issues := 0;
    if r.invalidPrefixes > 0 {
      issues := issues + 2;
    } else if !r.hasRoas {
      issues := issues + 1;
    }
    if f.upstreamCount < 2 {
      issues := issues + 1;
    }
    if c.ixCount == 1 {
      issues := issues + 1;
    } else if c.ixCount == 0 && f.totalPrefixes > 0 {
      issues := issues + 1;
    }
    if issues >= 3 {
      h := Critical;
    } else if issues >= 2 {
      h := Warning;
    } else if issues == 0 {
      h := Healthy;
    } else {
      h := Warning;
    }
  }

  /** The provider answers `get_profile` gathers. The identity and the
      connectivity profile each ask PeeringDB for the network separately. */
  datatype ProfileSources = ProfileSources(
    overview: Option<RipestatModels.AsOverview>,
    identityNetwork: Fetch<PeeringDbModels.Network>,
    organization: Option<PeeringDbModels.Organization>,
    prefixes: Option<RipestatModels.AnnouncedPrefixes>,
    neighbours: Option<RipestatModels.ASNeighbours>,
    rpki: Option<RpkiCounts>,
    presence: Option<PeeringDbModels.NetworkPresence>,
    connectivityNetwork: Option<PeeringDbModels.Network>,
    upstreams: Option<seq<int>>)

  /** `get_profile`: builds the four facets from their answers, each as its
      builder does, and assesses the health. Only the identity can fail, when
      PeeringDB fails other than with "not found". */
  method GetProfile(asn: int, src: ProfileSources) returns (r: Result<AsnProfile>)
    ensures r.Failure? <==> src.identityNetwork.Failed?
    ensures r.Success? ==> IdentityFrom(asn, src.overview, src.identityNetwork, src.organization, r.value.identity)
    ensures r.Success? ==> FootprintFrom(src.prefixes, src.neighbours, r.value.footprint)
    ensures r.Success? ==> RpkiFrom(src.rpki, r.value.rpki)
    ensures r.Success? ==> ConnectivityFrom(src.presence, src.connectivityNetwork, src.upstreams, r.value.connectivity)
    ensures r.Success? ==> r.value.health == StatusFor(IssueCount(r.value.footprint, r.value.rpki, r.value.connectivity))
    ensures r.Success? ==> r.value.health != Unknown
    ensures r.Success? ==> 0.0 <= r.value.rpki.coveragePercent <= 100.0
  {
    var identity := GetIdentity(asn, src.overview, src.identityNetwork, src.organization);
    if identity.Failure? {
      return Failure(identity.error);
    }
    var footprint := GetRoutingFootprint(src.prefixes, src.neighbours);
    var rpki := GetRpkiStatus(src.rpki);
    var connectivity := GetConnectivityProfile(src.presence, src.connectivityNetwork, src.upstreams);
    var health := AssessHealth(footprint, rpki, connectivity);
    r := Success(NewProfile(identity.value, footprint, rpki, connectivity).(health := health));
  }

  // ---- recommendations ----

  /** The position of each recommendation kind in the list
      `get_recommendations` builds. */
  function KindRank(k: RecommendationType): nat {
    match k
    case DeployRpki => 0
    case AddUpstream => 1
    case JoinIx => 2
    case UpdateIrr => 3
    case PeerWith => 4
    case MonitorPrefix => 5
  }

  predicate HasKind(recs: seq<Recommendation>, k: RecommendationType) {
    exists i :: 0 <= i < |recs| && recs[i].kind == k
  }

  /** The kinds appear in the order of their rank, so each at most once. */
  predicate Ordered(recs: seq<Recommendation>) {
    forall i, j :: 0 <= i < j < |recs| ==> KindRank(recs[i].kind) < KindRank(recs[j].kind)
  }

  /** `[item]` when `cond` holds, otherwise nothing. */
  function ItemIf(cond: bool, item: Recommendation): (r: seq<Recommendation>)
    ensures |r| <= 1
  {
    if cond then [item] else []
  }

  /** The RPKI item: invalid prefixes first, then missing ROAs, then partial coverage. */
  function RpkiItem(r: RpkiStatus): (items: seq<Recommendation>)
    ensures |items| <= 1
  {
    if r.invalidPrefixes > 0 then [Recommendation(DeployRpki, High)]
    else if !r.hasRoas then [Recommendation(DeployRpki, Medium)]
    else if r.coveragePercent < 100.0 then [Recommendation(DeployRpki, Low)]
    else []
  }

  /** The list `get_recommendations` builds for a profile. */
  function Recommendations(p: AsnProfile): seq<Recommendation> {
    RpkiItem(p.rpki)
    + ItemIf(p.footprint.upstreamCount < 2, Recommendation(AddUpstream, High))
    + ItemIf(p.connectivity.ixCount == 0 && p.footprint.totalPrefixes > 10, Recommendation(JoinIx, Medium))
    + ItemIf(p.connectivity.irrAsSet == "", Recommendation(UpdateIrr, Low))
  }

  lemma HasKindAppend(a: seq<Recommendation>, b: seq<Recommendation>, k: RecommendationType)
    ensures HasKind(a + b, k) <==> HasKind(a, k) || HasKind(b, k)
  {
    if HasKind(a, k) {
      var i :| 0 <= i < |a| && a[i].kind == k;
      assert (a + b)[i] == a[i];
    }
    if HasKind(b, k) {
      var i :| 0 <= i < |b| && b[i].kind == k;
      assert (a + b)[|a| + i] == b[i];
    }
  }

  lemma ItemIfKinds(cond: bool, item: Recommendation, k: RecommendationType)
    ensures HasKind(ItemIf(cond, item), k) <==> cond && k == item.kind
  {
    if cond {
      assert ItemIf(cond, item)[0].kind == item.kind;
    }
  }

  lemma RpkiItemKinds(r: RpkiStatus, k: RecommendationType)
    ensures HasKind(RpkiItem(r), k) <==>
              k == DeployRpki && (r.invalidPrefixes > 0 || !r.hasRoas || r.coveragePercent < 100.0)
  {
    if RpkiItem(r) != [] {
      assert RpkiItem(r)[0].kind == DeployRpki;
    }
  }

  /** Every item's rank lies in `[lo, hi)`. */
  predicate RanksIn(recs: seq<Recommendation>, lo: nat, hi: nat) {
    forall i :: 0 <= i < |recs| ==> lo <= KindRank(recs[i].kind) < hi
  }

  /** Appending items of a higher rank than every present item keeps the order. */
  lemma OrderedAppend(a: seq<Recommendation>, b: seq<Recommendation>, lo: nat, mid: nat, hi: nat)
    requires lo <= mid <= hi
    requires Ordered(a) && Ordered(b) && RanksIn(a, lo, mid) && RanksIn(b, mid, hi)
    ensures Ordered(a + b) && RanksIn(a + b, lo, hi)
  {
    var ab := a + b;
    assert forall i :: 0 <= i < |a| ==> ab[i] == a[i];
    assert forall i :: |a| <= i < |ab| ==> ab[i] == b[i - |a|];
  }

  /** Four pieces of ranks 0, 1, 2 and 3, in that order. */
  lemma ChainOrdered(r: seq<Recommendation>, u: seq<Recommendation>, x: seq<Recommendation>, q: seq<Recommendation>)
    requires Ordered(r) && Ordered(u) && Ordered(x) && Ordered(q)
    requires RanksIn(r, 0, 1) && RanksIn(u, 1, 2) && RanksIn(x, 2, 3) && RanksIn(q, 3, 4)
    ensures Ordered(r + u + x + q) && RanksIn(r + u + x + q, 0, 4)
  {
    OrderedAppend(r, u, 0, 1, 2);
    OrderedAppend(r + u, x, 0, 2, 3);
    OrderedAppend(r + u + x, q, 0, 3, 4);
  }

  lemma ItemRanked(cond: bool, item: Recommendation)
    ensures Ordered(ItemIf(cond, item))
    ensures RanksIn(ItemIf(cond, item), KindRank(item.kind), KindRank(item.kind) + 1)
  {
  }

  lemma RpkiItemRanked(r: RpkiStatus)
    ensures Ordered(RpkiItem(r)) && RanksIn(RpkiItem(r), 0, 1)
  {
  }

  /** Every kind is emitted exactly under its condition. */
  lemma RecommendationConditions(p: AsnProfile)
    ensures HasKind(Recommendations(p), DeployRpki) <==>
              p.rpki.invalidPrefixes > 0 || !p.rpki.hasRoas || p.rpki.coveragePercent < 100.0
    ensures HasKind(Recommendations(p), AddUpstream) <==> p.footprint.upstreamCount < 2
    ensures HasKind(Recommendations(p), JoinIx) <==> p.connectivity.ixCount == 0 && p.footprint.totalPrefixes > 10
    ensures HasKind(Recommendations(p), UpdateIrr) <==> p.connectivity.irrAsSet == ""
  {
    var r := RpkiItem(p.rpki);
    var u := ItemIf(p.footprint.upstreamCount < 2, Recommendation(AddUpstream, High));
    var x := ItemIf(p.connectivity.ixCount == 0 && p.footprint.totalPrefixes > 10, Recommendation(JoinIx, Medium));
    var q := ItemIf(p.connectivity.irrAsSet == "", Recommendation(UpdateIrr, Low));
    forall k: RecommendationType
      ensures HasKind(Recommendations(p), k) <==> HasKind(r, k) || HasKind(u, k) || HasKind(x, k) || HasKind(q, k)
    {
      HasKindAppend(r, u, k);
      HasKindAppend(r + u, x, k);
      HasKindAppend(r + u + x, q, k);
    }
    RpkiItemKinds(p.rpki, DeployRpki);
    RpkiItemKinds(p.rpki, AddUpstream);
    RpkiItemKinds(p.rpki, JoinIx);
    RpkiItemKinds(p.rpki, UpdateIrr);
    ItemIfKinds(p.footprint.upstreamCount < 2, Recommendation(AddUpstream, High), DeployRpki);
    ItemIfKinds(p.footprint.upstreamCount < 2, Recommendation(AddUpstream, High), AddUpstream);
    ItemIfKinds(p.footprint.upstreamCount < 2, Recommendation(AddUpstream, High), JoinIx);
    ItemIfKinds(p.footprint.upstreamCount < 2, Recommendation(AddUpstream, High), UpdateIrr);
    ItemIfKinds(p.connectivity.ixCount == 0 && p.footprint.totalPrefixes > 10, Recommendation(JoinIx, Medium), DeployRpki);
    ItemIfKinds(p.connectivity.ixCount == 0 && p.footprint.totalPrefixes > 10, Recommendation(JoinIx, Medium), AddUpstream);
    ItemIfKinds(p.connectivity.ixCount == 0 && p.footprint.totalPrefixes > 10, Recommendation(JoinIx, Medium), JoinIx);
    ItemIfKinds(p.connectivity.ixCount == 0 && p.footprint.totalPrefixes > 10, Recommendation(JoinIx, Medium), UpdateIrr);
    ItemIfKinds(p.connectivity.irrAsSet == "", Recommendation(UpdateIrr, Low), DeployRpki);
    ItemIfKinds(p.connectivity.irrAsSet == "", Recommendation(UpdateIrr, Low), AddUpstream);
    ItemIfKinds(p.connectivity.irrAsSet == "", Recommendation(UpdateIrr, Low), JoinIx);
    ItemIfKinds(p.connectivity.irrAsSet == "", Recommendation(UpdateIrr, Low), UpdateIrr);
  }

  /** The kinds come in the fixed order RPKI, upstream, exchange, IRR, so
      there are at most four items. */
  lemma RecommendationOrder(p: AsnProfile)
    ensures Ordered(Recommendations(p))
    ensures RanksIn(Recommendations(p), 0, 4)
    ensures |Recommendations(p)| <= 4
  {
    var r := RpkiItem(p.rpki);
    var u := ItemIf(p.footprint.upstreamCount < 2, Recommendation(AddUpstream, High));
    var x := ItemIf(p.connectivity.ixCount == 0 && p.footprint.totalPrefixes > 10, Recommendation(JoinIx, Medium));
    var q := ItemIf(p.connectivity.irrAsSet == "", Recommendation(UpdateIrr, Low));
    RpkiItemRanked(p.rpki);
    ItemRanked(p.footprint.upstreamCount < 2, Recommendation(AddUpstream, High));
    ItemRanked(p.connectivity.ixCount == 0 && p.footprint.totalPrefixes > 10, Recommendation(JoinIx, Medium));
    ItemRanked(p.connectivity.irrAsSet == "", Recommendation(UpdateIrr, Low));
    ChainOrdered(r, u, x, q);
  }

  /** The priorities: the RPKI item's follows its cause; the others are fixed. */
  lemma RecommendationPriorities(p: AsnProfile)
    ensures forall rec :: rec in Recommendations(p) && rec.kind == DeployRpki ==>
              && (rec.priority == High <==> p.rpki.invalidPrefixes > 0)
              && (rec.priority == Medium <==> p.rpki.invalidPrefixes <= 0 && !p.rpki.hasRoas)
              && (rec.priority == Low <==> p.rpki.invalidPrefixes <= 0 && p.rpki.hasRoas)
    ensures forall rec :: rec in Recommendations(p) && rec.kind == AddUpstream ==> rec.priority == High
    ensures forall rec :: rec in Recommendations(p) && rec.kind == JoinIx ==> rec.priority == Medium
    ensures forall rec :: rec in Recommendations(p) && rec.kind == UpdateIrr ==> rec.priority == Low
  {
    var r := RpkiItem(p.rpki);
    var u := ItemIf(p.footprint.upstreamCount < 2, Recommendation(AddUpstream, High));
    var x := ItemIf(p.connectivity.ixCount == 0 && p.footprint.totalPrefixes > 10, Recommendation(JoinIx, Medium));
    var q := ItemIf(p.connectivity.irrAsSet == "", Recommendation(UpdateIrr, Low));
    forall rec | rec in Recommendations(p)
      ensures rec in r || rec in u || rec in x || rec in q
    {
      assert Recommendations(p) == r + u + x + q;
    }
  }

  /** `get_recommendations` on a fetched profile: appends the RPKI item,
      then the upstream, exchange and IRR items, each under its own
      condition. */
  method GetRecommendations(p: AsnProfile) returns (recs: seq<Recommendation>)
    ensures recs == Recommendations(p)
  {
    recs := [];
    if p.rpki.invalidPrefixes > 0 {
      recs := recs + [Recommendation(DeployRpki, High)];
    } else if !p.rpki.hasRoas {
      recs := recs + [Recommendation(DeployRpki, Medium)];
    } else if p.rpki.coveragePercent < 100.0 {
      recs := recs + [Recommendation(DeployRpki, Low)];
    }
    assert recs == RpkiItem(p.rpki);
    if p.footprint.upstreamCount < 2 {
      recs := recs + [Recommendation(AddUpstream, High)];
    }
    if p.connectivity.ixCount == 0 && p.footprint.totalPrefixes > 10 {
      recs := recs + [Recommendation(JoinIx, Medium)];
    }
    if p.connectivity.irrAsSet == "" {
      recs := recs + [Recommendation(UpdateIrr, Low)];
    }
  }
}
