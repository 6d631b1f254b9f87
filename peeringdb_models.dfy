/** PeeringDB records (networks, exchanges, IX connections) and their
    derived properties. Only the fields the analysers read are kept. */
module PeeringDbModels {
  import opened Wrappers
  import Text

  /** A `net` record. */
  datatype Network = Network(
    id: int,
    orgId: int,
    name: string,
    website: string,
    asn: int,
    lookingGlass: string,
    routeServer: string,
    irrAsSet: string,
    infoType: string,
    infoPrefixes4: Option<int>,
    infoPrefixes6: Option<int>,
    infoRatio: string,
    policyUrl: string,
    policyGeneral: string)

  /** An `org` record (only the fields copied into an ASN identity). */
  datatype Organization = Organization(id: int, name: string, country: string)

  /** `Network.is_open_peering`: the general policy is "open" in any letter case. */
  function IsOpenPeering(n: Network): (b: bool)
    ensures b <==> Text.Lower(n.policyGeneral) == "open"
    ensures b ==> |n.policyGeneral| == 4
  {
    Text.Lower(n.policyGeneral) == "open"
  }

  /** `Network.total_prefixes`: a missing (or zero) count contributes 0. */
  function TotalPrefixes(n: Network): (t: int)
    ensures n.infoPrefixes4.None? && n.infoPrefixes6.None? ==> t == 0
    ensures t == n.infoPrefixes4.GetOr(0) + n.infoPrefixes6.GetOr(0)
  {
    (if n.infoPrefixes4.Some? then n.infoPrefixes4.value else 0)
    + (if n.infoPrefixes6.Some? then n.infoPrefixes6.value else 0)
  }

  /** An `ix` record. */
  datatype Exchange = Exchange(id: int, name: string, country: string, city: string, ixfNetCount: int)

  /** `InternetExchange.member_count` is the IX-F member count as published. */
  function MemberCount(ix: Exchange): (c: int)
    ensures c == ix.ixfNetCount
  {
    ix.ixfNetCount
  }

  /** `get_network_presence`: the exchange and facility counts and the exchanges themselves. */
  datatype NetworkPresence = NetworkPresence(ixCount: int, facilityCount: int, exchanges: seq<Exchange>)

  /** A `netixlan` record: one port of one network at one exchange. A
      network with two ports at the same exchange has two of these. */
  datatype NetIxLan = NetIxLan(ixId: int, asn: int, name: string, speed: int, ipaddr4: Option<string>, ipaddr6: Option<string>)

  /** `NetworkIXLan.speed_gbps`: the port speed in Mbit/s, converted to Gbit/s. */
  function SpeedGbps(c: NetIxLan): (g: real)
    ensures g * 1000.0 == c.speed as real
    ensures c.speed == 0 ==> g == 0.0
    ensures c.speed >= 0 ==> g >= 0.0
  {
    if c.speed != 0 then c.speed as real / 1000.0 else 0.0
  }

  /** Python truthiness of an optional string. */
  predicate HasText(s: Option<string>) { s.Some? && s.value != "" }

  /** A shared exchange with one connection of each network. */
  datatype CommonIx = CommonIx(ix: Exchange, net1: NetIxLan, net2: NetIxLan)

  /** `CommonIX.can_peer`: both sides have an address of one family. */
  function CanPeer(c: CommonIx): (b: bool)
    ensures b <==> (HasText(c.net1.ipaddr4) && HasText(c.net2.ipaddr4))
                   || (HasText(c.net1.ipaddr6) && HasText(c.net2.ipaddr6))
  {
    var v4 := HasText(c.net1.ipaddr4) && HasText(c.net2.ipaddr4);
    var v6 := HasText(c.net1.ipaddr6) && HasText(c.net2.ipaddr6);
    v4 || v6
  }

  /** Whether two networks can peer at a shared exchange does not depend on
      which of them is listed first. */
  lemma CanPeerSymmetric(c: CommonIx)
    ensures CanPeer(c) == CanPeer(CommonIx(c.ix, c.net2, c.net1))
  {
  }

  /** A `fac` record (only identity is needed). */
  datatype Facility = Facility(id: int, name: string)

  datatype PeeringOpportunity = PeeringOpportunity(asn1: int, asn2: int, commonIxes: seq<CommonIx>, commonFacilities: seq<Facility>)

  /** `PeeringOpportunity.opportunity_count`: shared exchanges plus shared facilities. */
  function OpportunityCount(p: PeeringOpportunity): (n: nat)
    ensures n == |p.commonIxes| + |p.commonFacilities|
    ensures n == 0 <==> p.commonIxes == [] && p.commonFacilities == []
  {
    |p.commonIxes| + |p.commonFacilities|
  }
}
