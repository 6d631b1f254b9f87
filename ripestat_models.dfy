/** RIPEstat response records and their derived properties. */
module RipestatModels {
  import opened Wrappers
  import Seqs

  datatype Response = Response(status: string, statusCode: int)

  /** A response built from no fields: empty status, status code 200. */
  const DefaultResponse := Response("", 200)

  /** `RIPEstatResponse.is_success`: the status is "ok" or the code is 200. */
  function IsSuccess(r: Response): (b: bool)
    ensures b <==> r.status == "ok" || r.statusCode == 200
  {
    if r.status == "ok" then true else r.statusCode == 200
  }

  lemma DefaultIsSuccess()
    ensures IsSuccess(DefaultResponse)
  {
  }

  function HasDot(p: string): bool { '.' in p }
  function HasColon(p: string): bool { ':' in p }

  /** `AnnouncedPrefixes`: the announced prefix strings, in order. */
  datatype AnnouncedPrefixes = AnnouncedPrefixes(prefixes: seq<string>)

  /** `ipv4_prefixes`: the prefixes written with a dot, in order. */
  function Ipv4Prefixes(a: AnnouncedPrefixes): (r: seq<string>)
    ensures |r| <= PrefixCount(a)
    ensures forall i :: 0 <= i < |r| ==> '.' in r[i] && r[i] in a.prefixes
    ensures forall i :: 0 <= i < |a.prefixes| && '.' in a.prefixes[i] ==> a.prefixes[i] in r
  {
    Seqs.Filter(a.prefixes, HasDot)
  }

  /** `ipv6_prefixes`: the prefixes written with a colon, in order. */
  function Ipv6Prefixes(a: AnnouncedPrefixes): (r: seq<string>)
    ensures |r| <= PrefixCount(a)
    ensures forall i :: 0 <= i < |r| ==> ':' in r[i] && r[i] in a.prefixes
    ensures forall i :: 0 <= i < |a.prefixes| && ':' in a.prefixes[i] ==> a.prefixes[i] in r
  {
    Seqs.Filter(a.prefixes, HasColon)
  }

  /** Filtering by family keeps every copy of a prefix of that family and
      no copy of any other. */
  lemma {:induction false} FamilyCopies(ps: seq<string>, family: string -> bool, p: string)
    ensures multiset(Seqs.Filter(ps, family))[p] == if family(p) then multiset(ps)[p] else 0
  {
    if ps != [] {
      FamilyCopies(ps[1..], family, p);
      assert ps == [ps[0]] + ps[1..];
    }
  }

  /** `ipv4_prefixes` keeps the announcement order and every repetition:
      announcing more prefixes appends their IPv4 ones, a single prefix is
      kept exactly when it has a dot, and a dotted prefix is kept as often
      as it is announced. */
  lemma Ipv4PrefixesInOrder(a: AnnouncedPrefixes, b: AnnouncedPrefixes, p: string)
    ensures Ipv4Prefixes(AnnouncedPrefixes(a.prefixes + b.prefixes)) == Ipv4Prefixes(a) + Ipv4Prefixes(b)
    ensures Ipv4Prefixes(AnnouncedPrefixes([p])) == if '.' in p then [p] else []
    ensures multiset(Ipv4Prefixes(a))[p] == if '.' in p then multiset(a.prefixes)[p] else 0
  {
    Seqs.FilterAppend(a.prefixes, b.prefixes, HasDot);
    FamilyCopies(a.prefixes, HasDot, p);
  }

  /** The same for `ipv6_prefixes` and the colon. */
  lemma Ipv6PrefixesInOrder(a: AnnouncedPrefixes, b: AnnouncedPrefixes, p: string)
    ensures Ipv6Prefixes(AnnouncedPrefixes(a.prefixes + b.prefixes)) == Ipv6Prefixes(a) + Ipv6Prefixes(b)
    ensures Ipv6Prefixes(AnnouncedPrefixes([p])) == if ':' in p then [p] else []
    ensures multiset(Ipv6Prefixes(a))[p] == if ':' in p then multiset(a.prefixes)[p] else 0
  {
    Seqs.FilterAppend(a.prefixes, b.prefixes, HasColon);
    FamilyCopies(a.prefixes, HasColon, p);
  }

  /** `prefix_count` counts every prefix, of either family or neither. */
  function PrefixCount(a: AnnouncedPrefixes): (n: nat)
    ensures n == |a.prefixes|
  {
    |a.prefixes|
  }

  /** Counted by family, the prefixes add up to `prefix_count` when each is
      written with exactly one of a dot and a colon, and to no more when
      none is written with both. */
  lemma {:induction false} FamilyCounts(ps: seq<string>)
    ensures (forall i :: 0 <= i < |ps| ==> !(HasDot(ps[i]) && HasColon(ps[i]))) ==>
              |Seqs.Filter(ps, HasDot)| + |Seqs.Filter(ps, HasColon)| <= |ps|
    ensures (forall i :: 0 <= i < |ps| ==> HasDot(ps[i]) != HasColon(ps[i])) ==>
              |Seqs.Filter(ps, HasDot)| + |Seqs.Filter(ps, HasColon)| == |ps|
  {
    if ps != [] {
      FamilyCounts(ps[1..]);
      assert forall i :: 1 <= i < |ps| ==> ps[i] == ps[1..][i - 1];
    }
  }

  /** The same for an announcement: the two family lists against `PrefixCount`. */
  lemma FamilyPrefixCounts(a: AnnouncedPrefixes)
    ensures (forall i :: 0 <= i < |a.prefixes| ==> !(HasDot(a.prefixes[i]) && HasColon(a.prefixes[i]))) ==>
              |Ipv4Prefixes(a)| + |Ipv6Prefixes(a)| <= PrefixCount(a)
    ensures (forall i :: 0 <= i < |a.prefixes| ==> HasDot(a.prefixes[i]) != HasColon(a.prefixes[i])) ==>
              |Ipv4Prefixes(a)| + |Ipv6Prefixes(a)| == PrefixCount(a)
  {
    FamilyCounts(a.prefixes);
  }

  /** `as-overview`: the holder and the RIR may be missing. */
  datatype AsOverview = AsOverview(holder: Option<string>, rir: Option<string>)

  datatype RpkiValidation = RpkiValidation(status: string, expectedOrigin: Option<int>, observedOrigin: Option<int>)

  datatype Neighbour = Neighbour(asn: int, name: string, power: int, v4Peers: int, v6Peers: int)

  datatype ASNeighbours = ASNeighbours(
    neighbours: seq<Neighbour>,
    upstreams: seq<Neighbour>,
    downstreams: seq<Neighbour>,
    left: seq<Neighbour>,
    right: seq<Neighbour>)

  function IsUpstream(n: Neighbour): bool { n.power > 0 }
  function IsNotUpstream(n: Neighbour): bool { n.power <= 0 }

  /** The neighbours a classification pass would add to the two lists. */
  lemma {:induction false} ClassificationPartitions(ns: seq<Neighbour>)
    ensures |Seqs.Filter(ns, IsUpstream)| + |Seqs.Filter(ns, IsNotUpstream)| == |ns|
  {
    if ns != [] {
      ClassificationPartitions(ns[1..]);
    }
  }

  /** The classification loop: walks the neighbours in order, appending
      each one with positive power to the upstreams and every other one
      to the downstreams already present. */
  method Partition(ns: seq<Neighbour>, downs0: seq<Neighbour>) returns (ups: seq<Neighbour>, downs: seq<Neighbour>)
    ensures ups == Seqs.Filter(ns, IsUpstream)
    ensures downs == downs0 + Seqs.Filter(ns, IsNotUpstream)
  {
    ups := [];
    downs := downs0;
    for i := 0 to |ns|
      invariant ups == Seqs.Filter(ns[..i], IsUpstream)
      invariant downs == downs0 + Seqs.Filter(ns[..i], IsNotUpstream)
    {
      Seqs.FilterSnoc(ns, i, IsUpstream);
      Seqs.FilterSnoc(ns, i, IsNotUpstream);
      if ns[i].power > 0 {
        ups := ups + [ns[i]];
      } else {
        downs := downs + [ns[i]];
      }
    }
    assert ns[..|ns|] == ns;
  }

  /** `ASNeighbours.__init__`: when raw neighbours are given and no
      upstreams are pre-filled, every neighbour with positive power is
      appended to `upstreams` and every other one to `downstreams`, in
      order; otherwise the record is left as given. Either way no
      neighbour is lost or duplicated. */
  method Classify(given: ASNeighbours) returns (r: ASNeighbours)
    ensures given.neighbours != [] && given.upstreams == [] ==>
              r == given.(upstreams := Seqs.Filter(given.neighbours, IsUpstream),
                          downstreams := given.downstreams + Seqs.Filter(given.neighbours, IsNotUpstream))
    ensures !(given.neighbours != [] && given.upstreams == []) ==> r == given
    ensures given.neighbours != [] && given.upstreams == [] ==>
              |r.upstreams| + |r.downstreams| == |given.downstreams| + |given.neighbours|
  {
    r := given;
    if given.neighbours != [] && given.upstreams == [] {
      var ups, downs := Partition(given.neighbours, given.downstreams);
      ClassificationPartitions(given.neighbours);
      r := given.(upstreams := ups, downstreams := downs);
    }
  }
}
