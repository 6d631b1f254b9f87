/** Derived properties of RIPE Atlas records (probes and measurement
    results), as the analysers read them. */
module AtlasModels {
  import opened Wrappers
  import Seqs

  /** A probe's status as delivered: a raw dictionary (its "name" entry when
      present), a parsed status object, or nothing at all. */
  datatype ProbeStatus = StatusDict(dictName: Option<string>) | StatusInfo(id: int, infoName: string)

  datatype Probe = Probe(id: int, asnV4: Option<int>, asnV6: Option<int>, status: Option<ProbeStatus>)

  const Connected: string := "Connected"

  /** `Probe.is_connected`: only a status named "Connected" counts, whether it
      arrives as a dictionary or as an object; no status means disconnected. */
  function IsConnected(p: Probe): (b: bool)
    ensures p.status.None? ==> !b
    ensures b <==> p.status.Some? && match p.status.value
                                      case StatusDict(n) => n == Some(Connected)
                                      case StatusInfo(_, n) => n == Connected
  {
    match p.status
    case None => false
    case Some(StatusDict(n)) => n.Some? && n.value == Connected
    case Some(StatusInfo(_, n)) => n == Connected
  }

  /** Python truthiness of an optional integer: present and non-zero. */
  predicate Truthy(x: Option<int>) { x.Some? && x.value != 0 }

  /** `Probe.asn` (`asn_v4 or asn_v6`): the IPv4 ASN wins unless it is
      missing or 0, in which case the IPv6 value is returned as is. */
  function ProbeAsn(p: Probe): (r: Option<int>)
    ensures Truthy(p.asnV4) ==> r == p.asnV4
    ensures !Truthy(p.asnV4) ==> r == p.asnV6
    ensures r.Some? ==> r == p.asnV4 || r == p.asnV6
  {
    if Truthy(p.asnV4) then p.asnV4 else p.asnV6
  }

  /** `PingResult.packet_loss`: the percentage of sent packets that were
      not received, 0 when nothing was sent. */
  function PacketLoss(sent: int, rcvd: int): (loss: real)
    ensures sent == 0 ==> loss == 0.0
    ensures sent != 0 ==> loss * (sent as real) == 100.0 * ((sent - rcvd) as real)
    ensures 0 <= rcvd <= sent ==> 0.0 <= loss <= 100.0
    ensures 0 < sent == rcvd ==> loss == 0.0
  {
    if sent == 0 then 0.0 else ((sent - rcvd) as real / sent as real) * 100.0
  }

  datatype TracerouteHop = TracerouteHop(hop: int, fromAddr: Option<string>)

  datatype TracerouteResult = TracerouteResult(probeId: int, dstAddr: Option<string>, hops: seq<TracerouteHop>)

  /** `TracerouteResult.hop_count` */
  function HopCount(t: TracerouteResult): (n: nat)
    ensures n == |t.hops|
    ensures n == 0 <==> t.hops == []
  {
    if t.hops == [] then 0 else |t.hops|
  }

  /** `TracerouteResult.reached_destination`: there is a last hop, a
      non-empty destination, and the last hop answered from that address. */
  function ReachedDestination(t: TracerouteResult): (b: bool)
    ensures b ==> HopCount(t) > 0
    ensures b <==> |t.hops| > 0 && t.dstAddr.Some? && t.dstAddr.value != ""
                   && t.hops[|t.hops| - 1].fromAddr == t.dstAddr
  {
    if t.hops == [] || t.dstAddr.None? || t.dstAddr.value == [] then false
    else
      var last := t.hops[|t.hops| - 1];
      last.fromAddr.Some? && last.fromAddr.value == t.dstAddr.value
  }

  datatype DnsResult = DnsResult(probeId: int, rcode: Option<int>, error: Option<string>)

  /** `DnsResult.is_success`: response code 0 and no error; a missing
      response code is a failure. */
  function DnsSuccess(d: DnsResult): (b: bool)
    ensures b <==> d.rcode == Some(0) && d.error.None?
    ensures d.rcode.None? ==> !b
  {
    d.error.None? && match d.rcode
                     case Some(c) => c == 0
                     case None => false
  }

  datatype SslResult = SslResult(probeId: int, error: Option<string>, alert: Option<string>)

  /** `SslResult.is_success`: neither an error nor a TLS alert. */
  function SslSuccess(s: SslResult): (b: bool)
    ensures b <==> s.error.None? && s.alert.None?
  {
    !(s.error.Some? || s.alert.Some?)
  }

  /** An undecoded measurement result: only which keys it carries matters
      to the result filters. */
  datatype RawResult = RawResult(keys: set<string>)

  predicate IsPing(r: RawResult) { "avg" in r.keys || "min" in r.keys }
  predicate IsTraceroute(r: RawResult) { "result" in r.keys || "hops" in r.keys }
  predicate IsDns(r: RawResult) { "answers" in r.keys || "RCODE" in r.keys }

  /** `MeasurementResults.get_*_results`: keeps, in order, exactly the
      results carrying the marker keys of the wanted kind. */
  function ResultsOfKind(results: seq<RawResult>, kind: RawResult -> bool): (r: seq<RawResult>)
    ensures |r| <= |results|
    ensures forall i :: 0 <= i < |r| ==> kind(r[i]) && r[i] in results
    ensures forall i :: 0 <= i < |results| && kind(results[i]) ==> results[i] in r
  {
    Seqs.Filter(results, kind)
  }

  /** Filtering a concatenation filters each part: results already kept
      are never reordered or dropped by later ones. */
  lemma ResultsOfKindAppend(a: seq<RawResult>, b: seq<RawResult>, kind: RawResult -> bool)
    ensures ResultsOfKind(a + b, kind) == ResultsOfKind(a, kind) + ResultsOfKind(b, kind)
  {
    Seqs.FilterAppend(a, b, kind);
  }

  /** `get_ping_results`, `get_traceroute_results`, `get_dns_results`. */
  function PingResults(results: seq<RawResult>): seq<RawResult> { ResultsOfKind(results, IsPing) }
  function TracerouteResults(results: seq<RawResult>): seq<RawResult> { ResultsOfKind(results, IsTraceroute) }
  function DnsResults(results: seq<RawResult>): seq<RawResult> { ResultsOfKind(results, IsDns) }
}
