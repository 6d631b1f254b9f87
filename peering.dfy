/** The peering analyser: candidate discovery across shared exchanges,
    candidate and exchange scoring, exchange recommendations, common peers,
    the peering report and the two-network feasibility assessment.

    Every PeeringDB or RIPEstat answer the analyser awaits is an input:
    a `Fetch` where the source tells "not found" apart from other errors,
    an `Option` where it swallows every error, and a plain value where a
    failure leaves the documented default (the upstream set is empty when
    the neighbour query fails). */
module Peering {
  import opened Wrappers
  import Text
  import Seqs
  import opened PeeringDbModels
  import opened AnalysisModels

  /** The exchange ids of a list of connections (`set(c.ix_id for c in ...)`). */
  function IxIds(rows: seq<NetIxLan>): (ids: set<int>)
    ensures forall x :: x in ids <==> exists i :: 0 <= i < |rows| && rows[i].ixId == x
  {
    set i | 0 <= i < |rows| :: rows[i].ixId
  }

  /** The ASNs of a member list (`set(m.asn for m in members)`). */
  function MemberAsns(rows: seq<NetIxLan>): (asns: set<int>)
    ensures forall a :: a in asns <==> exists i :: 0 <= i < |rows| && rows[i].asn == a
  {
    set i | 0 <= i < |rows| :: rows[i].asn
  }

  // ---- candidate scoring (`_score_candidate`) ----

  /** A peering policy the candidate search accepts: open or selective, in any letter case. */
  predicate IsPeerablePolicy(policy: string) {
    Text.Lower(policy) == "open" || Text.Lower(policy) == "selective"
  }

  function PolicyPoints(policy: string): real {
    if Text.Lower(policy) == "open" then 2.0
    else if Text.Lower(policy) == "selective" then 1.0
    else 0.0
  }

  function RatioPoints(ratio: string): real {
    if Text.Lower(ratio) == "balanced" || Text.Lower(ratio) == "mostly inbound" then 1.0 else 0.0
  }

  /** Two points for an open policy or one for a selective one, one per
      shared exchange, three for a current upstream and one for a balanced
      or mostly inbound traffic ratio. */
  function ScoreCandidate(c: PeeringCandidate, upstreams: set<int>): (score: real)
    ensures c.commonIxCount as real <= score <= c.commonIxCount as real + 7.0
    ensures IsPeerablePolicy(c.peeringPolicy) ==> score >= c.commonIxCount as real + 1.0
    ensures c.asn in upstreams ==> score >= c.commonIxCount as real + 3.0
    ensures c.asn !in upstreams ==> score <= c.commonIxCount as real + 3.0
  {
    PolicyPoints(c.peeringPolicy) + c.commonIxCount as real
    + (if c.asn in upstreams then 3.0 else 0.0) + RatioPoints(c.trafficRatio)
  }

  /** One more shared exchange raises the score by exactly one point. */
  lemma ScoreOneMoreIx(c: PeeringCandidate, ixName: string, upstreams: set<int>)
    ensures ScoreCandidate(c.(commonIxCount := c.commonIxCount + 1, commonIxes := c.commonIxes + [ixName]), upstreams)
            == ScoreCandidate(c, upstreams) + 1.0
  {
  }

  /** Being an upstream is worth exactly three points. */
  lemma ScoreUpstreamBonus(c: PeeringCandidate, upstreams: set<int>)
    ensures ScoreCandidate(c, upstreams + {c.asn}) == ScoreCandidate(c, upstreams - {c.asn}) + 3.0
  {
  }

  /** An open policy is worth one point more than a selective one, whatever its letter case. */
  lemma ScoreOpenOverSelective(c: PeeringCandidate, upstreams: set<int>)
    requires Text.Lower(c.peeringPolicy) == "open"
    ensures ScoreCandidate(c, upstreams) == ScoreCandidate(c.(peeringPolicy := "selective"), upstreams) + 1.0
  {
    assert Text.Lower("selective") == "selective";
  }

  // ---- candidate discovery (`find_peering_candidates`) ----

  /** The state of the candidate scan: the ASNs already looked at, the
      candidates by ASN, and the order in which the candidates were created
      (the dictionary's insertion order). */
  datatype Scan = Scan(seen: set<int>, cands: map<int, PeeringCandidate>, order: seq<int>)

  /** A member row's effect on the scan, and whether the network lookup
      failed with an error other than "not found", which abandons the rest
      of that exchange's rows. */
  datatype Visited = Visited(scan: Scan, abandon: bool)

  const NoScan := Scan({}, map[], [])

  /** The candidate made at a network's first sighting. */
  function NewCandidate(asn: int, n: Network, ixName: string): PeeringCandidate {
    PeeringCandidate(asn, n.name, n.policyGeneral, 1, [ixName], n.infoRatio, 0.0)
  }

  /** One member row of an exchange. The target itself is skipped. A row
      of an ASN seen before adds the exchange to its candidate, if it has
      one. A new ASN is marked seen first, then looked up; it becomes a
      candidate when found with an open or selective policy. */
  function Visit(s: Scan, asn: int, ixName: string, m: NetIxLan, networks: int -> Fetch<Network>): Visited {
    if m.asn == asn then Visited(s, false)
    else if m.asn in s.seen then
      if m.asn in s.cands then
        var c := s.cands[m.asn];
        Visited(s.(cands := s.cands[m.asn := c.(commonIxCount := c.commonIxCount + 1,
                                                 commonIxes := c.commonIxes + [ixName])]), false)
      else Visited(s, false)
    else
      var s1 := s.(seen := s.seen + {m.asn});
      match networks(m.asn)
      case NotFound => Visited(s1, false)
      case Failed => Visited(s1, true)
      case Ok(n) =>
        if IsPeerablePolicy(n.policyGeneral) then
          Visited(s1.(cands := s1.cands[m.asn := NewCandidate(m.asn, n, ixName)], order := s1.order + [m.asn]), false)
        else Visited(s1, false)
  }

  /** The rows of one exchange, in order, up to the first abandoning lookup. */
  function ScanMembers(s: Scan, asn: int, ixName: string, members: seq<NetIxLan>,
                       networks: int -> Fetch<Network>): Scan
    decreases |members|
  {
    if members == [] then s
    else
      var v := Visit(s, asn, ixName, members[0], networks);
      if v.abandon then v.scan else ScanMembers(v.scan, asn, ixName, members[1..], networks)
  }

  /** The scanned exchanges in order; an exchange whose member list or
      record cannot be fetched is skipped. */
  function ScanIxes(s: Scan, asn: int, ixIds: seq<int>, members: int -> Option<seq<NetIxLan>>,
                    exchanges: int -> Option<Exchange>, networks: int -> Fetch<Network>): Scan
    decreases |ixIds|
  {
    if ixIds == [] then s
    else
      var ms := members(ixIds[0]);
      var ix := exchanges(ixIds[0]);
      var s1 := if ms.Some? && ix.Some? then ScanMembers(s, asn, ix.value.name, ms.value, networks) else s;
      ScanIxes(s1, asn, ixIds[1..], members, exchanges, networks)
  }

  /** What holds of the scan throughout: the target is never seen and never
      a candidate; every candidate was seen, is filed under its own ASN, has
      an open or selective policy and as many exchange names as its
      shared-exchange count; the creation order lists each candidate once. */
  predicate ScanInv(s: Scan, asn: int) {
    && asn !in s.seen
    && (forall k :: k in s.cands ==> k in s.seen && k != asn && s.cands[k].asn == k)
    && (forall k :: k in s.cands ==> IsPeerablePolicy(s.cands[k].peeringPolicy))
    && (forall k :: k in s.cands ==> s.cands[k].commonIxCount == |s.cands[k].commonIxes| >= 1)
    && Seqs.Distinct(s.order)
    && (forall k :: k in s.cands ==> k in s.order)
    && (forall i :: 0 <= i < |s.order| ==> s.order[i] in s.cands)
  }

  /** How the scan may change: ASNs stay seen, candidates stay candidates
      with a count that never drops, and an ASN seen without becoming a
      candidate is never reconsidered. */
  predicate Grows(s: Scan, t: Scan) {
    && s.seen <= t.seen
    && (forall k :: k in s.cands ==> k in t.cands && t.cands[k].commonIxCount >= s.cands[k].commonIxCount)
    && (forall k :: k in s.seen && k !in s.cands ==> k !in t.cands)
  }

  lemma VisitKeeps(s: Scan, asn: int, ixName: string, m: NetIxLan, networks: int -> Fetch<Network>)
    requires ScanInv(s, asn)
    ensures ScanInv(Visit(s, asn, ixName, m, networks).scan, asn)
    ensures Grows(s, Visit(s, asn, ixName, m, networks).scan)
  {
    var t := Visit(s, asn, ixName, m, networks).scan;
    if m.asn != asn && m.asn !in s.seen && networks(m.asn).Ok? && IsPeerablePolicy(networks(m.asn).value.policyGeneral) {
      assert m.asn !in s.order;
      assert t.order == s.order + [m.asn];
      assert Seqs.Distinct(t.order);
    }
  }

  lemma {:induction false} ScanMembersKeeps(s: Scan, asn: int, ixName: string, members: seq<NetIxLan>,
                                            networks: int -> Fetch<Network>)
    requires ScanInv(s, asn)
    ensures ScanInv(ScanMembers(s, asn, ixName, members, networks), asn)
    ensures Grows(s, ScanMembers(s, asn, ixName, members, networks))
    decreases |members|
  {
    if members != [] {
      var v := Visit(s, asn, ixName, members[0], networks);
      VisitKeeps(s, asn, ixName, members[0], networks);
      if !v.abandon {
        ScanMembersKeeps(v.scan, asn, ixName, members[1..], networks);
      }
    }
  }

  /** The candidate-scan invariant holds after any sequence of exchanges,
      and a rejected ASN stays rejected across later exchanges. */
  lemma {:induction false} ScanIxesKeeps(s: Scan, asn: int, ixIds: seq<int>, members: int -> Option<seq<NetIxLan>>,
                                         exchanges: int -> Option<Exchange>, networks: int -> Fetch<Network>)
    requires ScanInv(s, asn)
    ensures ScanInv(ScanIxes(s, asn, ixIds, members, exchanges, networks), asn)
    ensures Grows(s, ScanIxes(s, asn, ixIds, members, exchanges, networks))
    decreases |ixIds|
  {
    if ixIds != [] {
      var ms := members(ixIds[0]);
      var ix := exchanges(ixIds[0]);
      var s1 := if ms.Some? && ix.Some? then ScanMembers(s, asn, ix.value.name, ms.value, networks) else s;
      if ms.Some? && ix.Some? {
        ScanMembersKeeps(s, asn, ix.value.name, ms.value, networks);
      }
      ScanIxesKeeps(s1, asn, ixIds[1..], members, exchanges, networks);
    }
  }

  /** The members of the exchanges a scan gets to look at: those whose member
      list and record can both be fetched. */
  function ScannedMembers(ixIds: seq<int>, members: int -> Option<seq<NetIxLan>>,
                          exchanges: int -> Option<Exchange>): set<int>
    decreases |ixIds|
  {
    if ixIds == [] then {}
    else
      var ms := members(ixIds[0]);
      (if ms.Some? && exchanges(ixIds[0]).Some? then MemberAsns(ms.value) else {})
      + ScannedMembers(ixIds[1..], members, exchanges)
  }

  /** A scan only ever makes candidates of the members whose rows it visits. */
  lemma {:induction false} ScanMembersFrom(s: Scan, asn: int, ixName: string, members: seq<NetIxLan>,
                                           networks: int -> Fetch<Network>)
    ensures ScanMembers(s, asn, ixName, members, networks).cands.Keys <= s.cands.Keys + MemberAsns(members)
    decreases |members|
  {
    if members != [] {
      var v := Visit(s, asn, ixName, members[0], networks);
      assert v.scan.cands.Keys <= s.cands.Keys + {members[0].asn};
      assert members[0].asn in MemberAsns(members);
      if !v.abandon {
        ScanMembersFrom(v.scan, asn, ixName, members[1..], networks);
        assert MemberAsns(members[1..]) <= MemberAsns(members) by {
          forall a | a in MemberAsns(members[1..]) ensures a in MemberAsns(members) {
            var i :| 0 <= i < |members[1..]| && members[1..][i].asn == a;
            assert members[i + 1].asn == a;
          }
        }
      }
    }
  }

  lemma {:induction false} ScanIxesFrom(s: Scan, asn: int, ixIds: seq<int>, members: int -> Option<seq<NetIxLan>>,
                                        exchanges: int -> Option<Exchange>, networks: int -> Fetch<Network>)
    ensures ScanIxes(s, asn, ixIds, members, exchanges, networks).cands.Keys
            <= s.cands.Keys + ScannedMembers(ixIds, members, exchanges)
    decreases |ixIds|
  {
    if ixIds != [] {
      var ms := members(ixIds[0]);
      var ix := exchanges(ixIds[0]);
      var s1 := if ms.Some? && ix.Some? then ScanMembers(s, asn, ix.value.name, ms.value, networks) else s;
      if ms.Some? && ix.Some? {
        ScanMembersFrom(s, asn, ix.value.name, ms.value, networks);
      }
      ScanIxesFrom(s1, asn, ixIds[1..], members, exchanges, networks);
    }
  }

  /** `list(candidate_map.values())`: the candidates in creation order. */
  function Values(s: Scan): (cs: seq<PeeringCandidate>)
    requires forall i :: 0 <= i < |s.order| ==> s.order[i] in s.cands
    ensures |cs| == |s.order|
    ensures forall i :: 0 <= i < |cs| ==> cs[i] == s.cands[s.order[i]]
  {
    seq(|s.order|, i requires 0 <= i < |s.order| => s.cands[s.order[i]])
  }

  /** The candidates with their scores filled in. */
  function Scored(cs: seq<PeeringCandidate>, upstreams: set<int>): (r: seq<PeeringCandidate>)
    ensures |r| == |cs|
    ensures forall i :: 0 <= i < |cs| ==> r[i] == cs[i].(score := ScoreCandidate(cs[i], upstreams))
  {
    seq(|cs|, i requires 0 <= i < |cs| => cs[i].(score := ScoreCandidate(cs[i], upstreams)))
  }

  function ScoreOf(c: PeeringCandidate): real { c.score }

  /** The final ranking: score, stable sort by non-increasing score, truncate. */
  function Ranked(s: Scan, upstreams: set<int>, maxCandidates: int): seq<PeeringCandidate>
    requires forall i :: 0 <= i < |s.order| ==> s.order[i] in s.cands
  {
    Seqs.Take(Seqs.SortDesc(Scored(Values(s), upstreams), ScoreOf), maxCandidates)
  }

  /** What every ranked candidate satisfies. */
  predicate GoodCandidate(c: PeeringCandidate, asn: int, upstreams: set<int>) {
    && c.asn != asn
    && IsPeerablePolicy(c.peeringPolicy)
    && c.commonIxCount == |c.commonIxes| >= 1
    && c.score == ScoreCandidate(c, upstreams)
    && c.score >= c.commonIxCount as real + 1.0
  }

  /** Every candidate the search keeps can peer at some exchange. */
  lemma CandidatesCanPeer(c: PeeringCandidate, asn: int, upstreams: set<int>)
    requires GoodCandidate(c, asn, upstreams)
    ensures CanPeerAtIx(c) && |c.commonIxes| > 0
  {
  }

  /** An open network is one the candidate search accepts, with the top
      policy points, and never a feasibility blocker. */
  lemma OpenPolicyPeerable(n: Network)
    requires IsOpenPeering(n)
    ensures IsPeerablePolicy(n.policyGeneral) && PolicyPoints(n.policyGeneral) == 2.0
    ensures !IsRestrictive(n)
  {
  }

  function IsGood(asn: int, upstreams: set<int>): PeeringCandidate -> bool {
    (c: PeeringCandidate) => GoodCandidate(c, asn, upstreams)
  }

  lemma {:induction false} ScoredGood(s: Scan, asn: int, upstreams: set<int>)
    requires ScanInv(s, asn)
    ensures forall i :: 0 <= i < |Scored(Values(s), upstreams)| ==> IsGood(asn, upstreams)(Scored(Values(s), upstreams)[i])
  {
    var vs := Values(s);
    var sc := Scored(vs, upstreams);
    forall i | 0 <= i < |sc|
      ensures GoodCandidate(sc[i], asn, upstreams)
    {
      var k := s.order[i];
      assert k in s.cands;
      var c := s.cands[k];
      assert vs[i] == c;
      assert sc[i] == c.(score := ScoreCandidate(c, upstreams));
      assert c.asn == k && k != asn;
      assert IsPeerablePolicy(c.peeringPolicy);
      assert ScoreCandidate(sc[i], upstreams) == ScoreCandidate(c, upstreams);
    }
  }

  lemma {:induction false} RankedCandidates(s: Scan, asn: int, upstreams: set<int>, maxCandidates: int)
    requires ScanInv(s, asn)
    ensures maxCandidates >= 0 ==> |Ranked(s, upstreams, maxCandidates)| <= maxCandidates
    ensures Seqs.SortedDesc(Ranked(s, upstreams, maxCandidates), ScoreOf)
    ensures forall c :: c in Ranked(s, upstreams, maxCandidates) ==> GoodCandidate(c, asn, upstreams)
  {
    var sc := Scored(Values(s), upstreams);
    var sorted := Seqs.SortDesc(sc, ScoreOf);
    var r := Ranked(s, upstreams, maxCandidates);
    ScoredGood(s, asn, upstreams);
    Seqs.AllInPermutation(sorted, sc, IsGood(asn, upstreams));
    assert r == sorted[..|r|];
    assert forall i :: 0 <= i < |r| ==> IsGood(asn, upstreams)(r[i]);
  }

  /** Every ranked candidate is one the scan made, so one of `pool` when every
      candidate of the scan is. */
  lemma {:induction false} RankedFrom(s: Scan, asn: int, upstreams: set<int>, maxCandidates: int, pool: set<int>)
    requires ScanInv(s, asn) && s.cands.Keys <= pool
    ensures forall c :: c in Ranked(s, upstreams, maxCandidates) ==> c.asn in pool
  {
    var sc := Scored(Values(s), upstreams);
    var sorted := Seqs.SortDesc(sc, ScoreOf);
    var r := Ranked(s, upstreams, maxCandidates);
    var inPool := (c: PeeringCandidate) => c.asn in pool;
    forall i | 0 <= i < |sc| ensures inPool(sc[i]) {
      assert s.order[i] in s.cands;
      assert sc[i].asn == s.cands[s.order[i]].asn == s.order[i];
    }
    Seqs.AllInPermutation(sorted, sc, inPool);
    assert r == sorted[..|r|];
    assert forall i :: 0 <= i < |r| ==> inPool(r[i]);
  }

  method ScanIx(s0: Scan, asn: int, ixName: string, members: seq<NetIxLan>, networks: int -> Fetch<Network>)
    returns (s: Scan)
    ensures s == ScanMembers(s0, asn, ixName, members, networks)
  {
    s := s0;
    var i := 0;
    while i < |members|
      invariant 0 <= i <= |members|
      invariant ScanMembers(s0, asn, ixName, members, networks) == ScanMembers(s, asn, ixName, members[i..], networks)
    {
      assert members[i..][1..] == members[i + 1..];
      var m := members[i];
      i := i + 1;
      if m.asn == asn {
        continue;
      }
      if m.asn in s.seen {
        if m.asn in s.cands {
          var c := s.cands[m.asn];
          s := s.(cands := s.cands[m.asn := c.(commonIxCount := c.commonIxCount + 1,
                                               commonIxes := c.commonIxes + [ixName])]);
        }
        continue;
      }
      s := s.(seen := s.seen + {m.asn});
      var network := networks(m.asn);
      if network.Failed? {
        return;
      }
      if network.Ok? && IsPeerablePolicy(network.value.policyGeneral) {
        s := s.(cands := s.cands[m.asn := NewCandidate(m.asn, network.value, ixName)], order := s.order + [m.asn]);
      }
    }
  }

  /** The scan over the chosen exchanges; an exchange whose member list or
      record cannot be fetched is skipped (`except Exception: continue`). */
  method ScanAll(asn: int, toScan: seq<int>, members: int -> Option<seq<NetIxLan>>,
                 exchanges: int -> Option<Exchange>, networks: int -> Fetch<Network>)
    returns (s: Scan)
    ensures s == ScanIxes(NoScan, asn, toScan, members, exchanges, networks)
  {
    s := NoScan;
    for i := 0 to |toScan|
      invariant ScanIxes(NoScan, asn, toScan, members, exchanges, networks)
                == ScanIxes(s, asn, toScan[i..], members, exchanges, networks)
    {
      assert toScan[i..][1..] == toScan[i + 1..];
      var ms := members(toScan[i]);
      var ix := exchanges(toScan[i]);
      if ms.Some? && ix.Some? {
        s := ScanIx(s, asn, ix.value.name, ms.value, networks);
      }
    }
    assert toScan[|toScan|..] == [];
  }

  /** `for c in candidates: c.score = self._score_candidate(c, upstream_asns)` */
  method ScoreAll(candidates: seq<PeeringCandidate>, upstreams: set<int>) returns (scored: seq<PeeringCandidate>)
    ensures scored == Scored(candidates, upstreams)
  {
    scored := [];
    for i := 0 to |candidates|
      invariant scored == Scored(candidates[..i], upstreams)
    {
      scored := scored + [candidates[i].(score := ScoreCandidate(candidates[i], upstreams))];
    }
    assert candidates[..|candidates|] == candidates;
  }

  /** What the candidate search finds once the target's exchanges `ids` are
      known: at most ten of them (`scanned`, in set order) are scanned, every
      candidate is a member of a scanned exchange, and the candidates are
      ranked. */
  ghost predicate CandidateSearch(asn: int, maxCandidates: int, ids: set<int>, upstreams: set<int>,
                                  members: int -> Option<seq<NetIxLan>>, exchanges: int -> Option<Exchange>,
                                  networks: int -> Fetch<Network>, scanned: seq<int>, found: seq<PeeringCandidate>)
  {
    && Seqs.Distinct(scanned) && |scanned| == Seqs.Min(10, |ids|)
    && (forall i :: 0 <= i < |scanned| ==> scanned[i] in ids)
    && ScanInv(ScanIxes(NoScan, asn, scanned, members, exchanges, networks), asn)
    && found == Ranked(ScanIxes(NoScan, asn, scanned, members, exchanges, networks), upstreams, maxCandidates)
    && forall c :: c in found ==> c.asn in ScannedMembers(scanned, members, exchanges)
  }

  /** `find_peering_candidates`. A failure to list the target's connections
      other than "not found" escapes as an error; "not found" and a target
      on no exchange give no candidates. Otherwise at most ten of the
      target's exchanges (`scanned`, in set order) are scanned and the
      candidates are ranked. */
  method FindPeeringCandidates(asn: int, maxCandidates: int, targetIxlans: Fetch<seq<NetIxLan>>,
                               upstreams: set<int>, members: int -> Option<seq<NetIxLan>>,
                               exchanges: int -> Option<Exchange>, networks: int -> Fetch<Network>)
    returns (r: Result<seq<PeeringCandidate>>, ghost scanned: seq<int>)
    ensures r.Failure? <==> targetIxlans.Failed?
    ensures targetIxlans.NotFound? ==> r == Success([])
    ensures targetIxlans.Ok? && IxIds(targetIxlans.value) == {} ==> r == Success([])
    ensures targetIxlans.Ok? ==>
              && r.Success?
              && CandidateSearch(asn, maxCandidates, IxIds(targetIxlans.value), upstreams, members, exchanges, networks,
                                 scanned, r.value)
    ensures r.Success? ==> Seqs.SortedDesc(r.value, ScoreOf)
    ensures r.Success? && maxCandidates >= 0 ==> |r.value| <= maxCandidates
    ensures r.Success? ==> forall c :: c in r.value ==> GoodCandidate(c, asn, upstreams)
  {
    scanned := [];
    if targetIxlans.Failed? {
      return Failure("PeeringDBError"), scanned;
    }
    if targetIxlans.NotFound? {
      return Success([]), scanned;
    }
    var ids := IxIds(targetIxlans.value);
    if ids == {} {
      return Success([]), scanned;
    }
    var all := Seqs.SetToSeq(ids);
    var toScan := Seqs.Take(all, 10);
    scanned := toScan;
    assert forall i :: 0 <= i < |toScan| ==> toScan[i] == all[i];
    var ranked := ScanAndRank(asn, toScan, upstreams, maxCandidates, members, exchanges, networks);
    r := Success(ranked);
  }

  /** Scans the given exchanges, scores every candidate found and keeps the
      best `maxCandidates`. */
  method ScanAndRank(asn: int, toScan: seq<int>, upstreams: set<int>, maxCandidates: int,
                     members: int -> Option<seq<NetIxLan>>, exchanges: int -> Option<Exchange>,
                     networks: int -> Fetch<Network>)
    returns (ranked: seq<PeeringCandidate>)
    ensures ScanInv(ScanIxes(NoScan, asn, toScan, members, exchanges, networks), asn)
    ensures ranked == Ranked(ScanIxes(NoScan, asn, toScan, members, exchanges, networks), upstreams, maxCandidates)
    ensures Seqs.SortedDesc(ranked, ScoreOf)
    ensures maxCandidates >= 0 ==> |ranked| <= maxCandidates
    ensures forall c :: c in ranked ==> GoodCandidate(c, asn, upstreams)
    ensures forall c :: c in ranked ==> c.asn in ScannedMembers(toScan, members, exchanges)
  {
    var s := ScanAll(asn, toScan, members, exchanges, networks);
    ScanIxesKeeps(NoScan, asn, toScan, members, exchanges, networks);
    ScanIxesFrom(NoScan, asn, toScan, members, exchanges, networks);
    RankedFrom(s, asn, upstreams, maxCandidates, ScannedMembers(toScan, members, exchanges));
    var scored := ScoreAll(Values(s), upstreams);
    RankedCandidates(s, asn, upstreams, maxCandidates);
    ranked := Seqs.Take(Seqs.SortDesc(scored, ScoreOf), maxCandidates);
  }

  // ---- exchange scoring (`_score_ix`) ----

  function SizeBonus(memberCount: int): real {
    if memberCount > 500 then 3.0
    else if memberCount > 100 then 2.0
    else if memberCount > 50 then 1.0
    else 0.0
  }

  /** Five points times the share of all upstreams present (when there are
      any upstreams), a size bonus of 3, 2 or 1 for more than 500, 100 or
      50 members, and half a point per upstream present. */
  function ScoreIx(ix: Exchange, upstreamCount: int, totalUpstreams: int): (score: real)
    ensures totalUpstreams <= 0 ==> score == SizeBonus(MemberCount(ix)) + upstreamCount as real * 0.5
    ensures 0 <= upstreamCount <= totalUpstreams ==>
              SizeBonus(MemberCount(ix)) + upstreamCount as real * 0.5 <= score
              <= SizeBonus(MemberCount(ix)) + upstreamCount as real * 0.5 + 5.0
  {
    var coverage := if totalUpstreams > 0 then upstreamCount as real / totalUpstreams as real * 5.0 else 0.0;
    assert 0 <= upstreamCount <= totalUpstreams ==> 0.0 <= coverage <= 5.0 by {
      if 0 <= upstreamCount <= totalUpstreams && totalUpstreams > 0 {
        Seqs.DivLower(upstreamCount as real, totalUpstreams as real, 0.0);
        Seqs.DivUpper(upstreamCount as real, totalUpstreams as real, 1.0);
      }
    }
    coverage + SizeBonus(MemberCount(ix)) + upstreamCount as real * 0.5
  }

  /** More upstreams present never lowers an exchange's score. */
  lemma ScoreIxMonotoneInUpstreams(ix: Exchange, u1: int, u2: int, totalUpstreams: int)
    requires u1 <= u2
    ensures ScoreIx(ix, u1, totalUpstreams) <= ScoreIx(ix, u2, totalUpstreams)
  {
    if totalUpstreams > 0 {
      var t := totalUpstreams as real;
      assert u2 as real / t - u1 as real / t == (u2 - u1) as real / t;
      Seqs.DivLower((u2 - u1) as real, t, 0.0);
    }
  }

  /** More members never lower an exchange's score. */
  lemma ScoreIxMonotoneInMembers(ix1: Exchange, ix2: Exchange, upstreamCount: int, totalUpstreams: int)
    requires MemberCount(ix1) <= MemberCount(ix2)
    ensures ScoreIx(ix1, upstreamCount, totalUpstreams) <= ScoreIx(ix2, upstreamCount, totalUpstreams)
  {
  }

  // ---- exchange recommendations (`recommend_ixes`) ----

  /** The exchange ids of the connections the target is not already on
      (`ixlan.ix_id not in current_ix_ids`), in order. */
  function NewIxIds(rows: seq<NetIxLan>, current: set<int>): (ids: seq<int>)
    ensures forall x :: x in ids ==> x !in current
  {
    if rows == [] then []
    else
      var rest := NewIxIds(rows[..|rows| - 1], current);
      var last := rows[|rows| - 1];
      if last.ixId in current then rest else rest + [last.ixId]
  }

  /** One entry per connection of a scanned upstream at an exchange the
      target is not on; an upstream whose connections cannot be fetched
      adds nothing. */
  function UpstreamRows(ups: seq<int>, upstreamIxlans: int -> Option<seq<NetIxLan>>, current: set<int>): (ids: seq<int>)
    ensures forall x :: x in ids ==> x !in current
  {
    if ups == [] then []
    else
      var rows := upstreamIxlans(ups[|ups| - 1]);
      UpstreamRows(ups[..|ups| - 1], upstreamIxlans, current)
      + (if rows.Some? then NewIxIds(rows.value, current) else [])
  }

  /** The recommendation for one tallied exchange, if its record can be
      fetched and it has at least ten members. */
  function RecommendationFor(ixId: int, upstreamCount: int, totalUpstreams: int,
                             exchanges: int -> Option<Exchange>): Option<IxRecommendation>
  {
    var fetched := exchanges(ixId);
    if fetched.None? || MemberCount(fetched.value) < 10 then None
    else
      var ix := fetched.value;
      var mentioned := if MemberCount(ix) > 100 then Some(MemberCount(ix)) else None;
      Some(IxRecommendation(ixId, ix.name, ix.country, ix.city, MemberCount(ix), upstreamCount,
                            ScoreIx(ix, upstreamCount, totalUpstreams), IxReason(upstreamCount, mentioned)))
  }

  /** The recommendations for the considered exchanges, in their order. */
  function Recommendations(top: seq<int>, tally: map<int, int>, totalUpstreams: int,
                           exchanges: int -> Option<Exchange>): seq<IxRecommendation>
    requires forall i :: 0 <= i < |top| ==> top[i] in tally
  {
    if top == [] then []
    else
      var last := top[|top| - 1];
      var rec := RecommendationFor(last, tally[last], totalUpstreams, exchanges);
      Recommendations(top[..|top| - 1], tally, totalUpstreams, exchanges) + (if rec.Some? then [rec.value] else [])
  }

  /** What every recommendation satisfies, against the target's current
      exchanges and the upstream tally. */
  predicate GoodRecommendation(rec: IxRecommendation, current: set<int>, tally: map<int, int>, totalUpstreams: int) {
    && rec.ixId !in current
    && rec.ixId in tally
    && rec.potentialPeers == tally[rec.ixId] >= 1
    && rec.memberCount >= 10
    && rec.reason.upstreamsPresent == rec.potentialPeers
    && (rec.reason.mentionedMembers.Some? <==> rec.memberCount > 100)
    && (rec.reason.mentionedMembers.Some? ==> rec.reason.mentionedMembers.value == rec.memberCount)
    && rec.score == ScoreIx(Exchange(rec.ixId, rec.ixName, rec.country, rec.city, rec.memberCount),
                            rec.potentialPeers, totalUpstreams)
  }

  lemma {:induction false} RecommendationsGood(top: seq<int>, tally: map<int, int>, totalUpstreams: int,
                                               exchanges: int -> Option<Exchange>, current: set<int>)
    requires forall i :: 0 <= i < |top| ==> top[i] in tally
    requires forall k :: k in tally ==> k !in current && tally[k] >= 1
    ensures forall rec :: rec in Recommendations(top, tally, totalUpstreams, exchanges) ==>
              GoodRecommendation(rec, current, tally, totalUpstreams) && rec.ixId in top
  {
    if top != [] {
      var init := top[..|top| - 1];
      var last := top[|top| - 1];
      RecommendationsGood(init, tally, totalUpstreams, exchanges, current);
      var rec := RecommendationFor(last, tally[last], totalUpstreams, exchanges);
      if rec.Some? {
        assert GoodRecommendation(rec.value, current, tally, totalUpstreams);
      }
    }
  }

  function RecScore(rec: IxRecommendation): real { rec.score }

  /** Adds one upstream's connections at exchanges the target is not on to the tally. */
  method TallyRows(tally0: map<int, int>, ghost flat: seq<int>, rows: seq<NetIxLan>, current: set<int>)
    returns (tally: map<int, int>)
    requires tally0 == Seqs.Tally(flat)
    ensures tally == Seqs.Tally(flat + NewIxIds(rows, current))
  {
    tally := tally0;
    assert flat + NewIxIds(rows[..0], current) == flat;
    for j := 0 to |rows|
      invariant tally == Seqs.Tally(flat + NewIxIds(rows[..j], current))
    {
      TallyRowStep(tally, flat, rows, j, current);
      var x := rows[j].ixId;
      if x !in current {
        tally := Seqs.Bump(tally, x);
      }
    }
    assert rows[..|rows|] == rows;
  }

  /** Counting one more connection row. */
  lemma TallyRowStep(tally: map<int, int>, flat: seq<int>, rows: seq<NetIxLan>, j: int, current: set<int>)
    requires 0 <= j < |rows|
    requires tally == Seqs.Tally(flat + NewIxIds(rows[..j], current))
    ensures rows[j].ixId in current ==> Seqs.Tally(flat + NewIxIds(rows[..j + 1], current)) == tally
    ensures rows[j].ixId !in current ==> Seqs.Tally(flat + NewIxIds(rows[..j + 1], current)) == Seqs.Bump(tally, rows[j].ixId)
  {
    var x := rows[j].ixId;
    assert rows[..j + 1][..j] == rows[..j];
    var acc := flat + NewIxIds(rows[..j], current);
    var next := flat + NewIxIds(rows[..j + 1], current);
    if x !in current {
      assert next == acc + [x];
      Seqs.TallyExtend(acc, x, next);
    } else {
      assert next == acc;
    }
  }

  /** The tally of the scanned upstreams' connections, by exchange. */
  method TallyUpstreams(ups: seq<int>, upstreamIxlans: int -> Option<seq<NetIxLan>>, current: set<int>)
    returns (tally: map<int, int>)
    ensures tally == Seqs.Tally(UpstreamRows(ups, upstreamIxlans, current))
  {
    tally := map[];
    for i := 0 to |ups|
      invariant tally == Seqs.Tally(UpstreamRows(ups[..i], upstreamIxlans, current))
    {
      assert ups[..i + 1][..i] == ups[..i];
      ghost var before := UpstreamRows(ups[..i], upstreamIxlans, current);
      var fetched := upstreamIxlans(ups[i]);
      if fetched.Some? {
        assert UpstreamRows(ups[..i + 1], upstreamIxlans, current) == before + NewIxIds(fetched.value, current);
        tally := TallyRows(tally, before, fetched.value, current);
      } else {
        assert UpstreamRows(ups[..i + 1], upstreamIxlans, current) == before + [];
        assert before + [] == before;
      }
    }
    assert ups[..|ups|] == ups;
  }

  method BuildRecommendations(top: seq<int>, tally: map<int, int>, totalUpstreams: int,
                              exchanges: int -> Option<Exchange>)
    returns (recs: seq<IxRecommendation>)
    requires forall i :: 0 <= i < |top| ==> top[i] in tally
    ensures recs == Recommendations(top, tally, totalUpstreams, exchanges)
  {
    recs := [];
    for i := 0 to |top|
      invariant recs == Recommendations(top[..i], tally, totalUpstreams, exchanges)
    {
      assert top[..i + 1][..i] == top[..i];
      var fetched := exchanges(top[i]);
      if fetched.Some? && MemberCount(fetched.value) >= 10 {
        var ix := fetched.value;
        var upstreamCount := tally[top[i]];
        var mentioned := if MemberCount(ix) > 100 then Some(MemberCount(ix)) else None;
        recs := recs + [IxRecommendation(top[i], ix.name, ix.country, ix.city, MemberCount(ix), upstreamCount,
                                         ScoreIx(ix, upstreamCount, totalUpstreams), IxReason(upstreamCount, mentioned))];
      }
    }
    assert top[..|top|] == top;
  }

  /** The recommendations for the considered exchanges, sorted by
      non-increasing score and truncated to `maxRecommendations`. */
  method RankRecommendations(top: seq<int>, tally: map<int, int>, totalUpstreams: int,
                             exchanges: int -> Option<Exchange>, current: set<int>, maxRecommendations: int)
    returns (ranked: seq<IxRecommendation>)
    requires forall i :: 0 <= i < |top| ==> top[i] in tally
    requires forall k :: k in tally ==> k !in current && tally[k] >= 1
    ensures ranked == Seqs.Take(Seqs.SortDesc(Recommendations(top, tally, totalUpstreams, exchanges), RecScore),
                                maxRecommendations)
    ensures Seqs.SortedDesc(ranked, RecScore)
    ensures maxRecommendations >= 0 ==> |ranked| <= maxRecommendations
    ensures forall rec :: rec in ranked ==> GoodRecommendation(rec, current, tally, totalUpstreams) && rec.ixId in top
  {
    var recs := BuildRecommendations(top, tally, totalUpstreams, exchanges);
    RecommendationsGood(top, tally, totalUpstreams, exchanges, current);
    var good := (rec: IxRecommendation) => GoodRecommendation(rec, current, tally, totalUpstreams) && rec.ixId in top;
    assert forall i :: 0 <= i < |recs| ==> good(recs[i]);
    Seqs.SortTakeKeeps(recs, RecScore, maxRecommendations, good);
    Seqs.SortTakeSorted(recs, RecScore, maxRecommendations);
    ranked := Seqs.Take(Seqs.SortDesc(recs, RecScore), maxRecommendations);
  }

  /** What the exchange recommendation finds once the target's current
      exchanges are known: at most twenty upstreams (`scannedUps`, in set
      order) are tallied by the exchanges they are on and the target is not,
      the `2 * maxRecommendations` most tallied exchanges (`considered`, most
      tallied first) are looked up, and the recommendations made for them are
      ranked by non-increasing score (ties in `considered` order) and
      truncated to `maxRecommendations`. */
  ghost predicate IxSearch(maxRecommendations: int, current: set<int>, upstreams: set<int>,
                           upstreamIxlans: int -> Option<seq<NetIxLan>>, exchanges: int -> Option<Exchange>,
                           scannedUps: seq<int>, considered: seq<int>, recs: seq<IxRecommendation>)
  {
    && Seqs.Distinct(scannedUps) && |scannedUps| == Seqs.Min(20, |upstreams|)
    && (forall i :: 0 <= i < |scannedUps| ==> scannedUps[i] in upstreams)
    && IxRanking(maxRecommendations, current, upstreams, upstreamIxlans, exchanges, scannedUps, considered, recs)
  }

  /** The part of `IxSearch` after the upstreams are chosen. */
  ghost predicate IxRanking(maxRecommendations: int, current: set<int>, upstreams: set<int>,
                            upstreamIxlans: int -> Option<seq<NetIxLan>>, exchanges: int -> Option<Exchange>,
                            scannedUps: seq<int>, considered: seq<int>, recs: seq<IxRecommendation>)
  {
    var tally := Seqs.Tally(UpstreamRows(scannedUps, upstreamIxlans, current));
    && Seqs.Distinct(considered)
    && |considered| == (if maxRecommendations <= 0 then 0 else Seqs.Min(2 * maxRecommendations, |tally|))
    && (forall i :: 0 <= i < |considered| ==> considered[i] in tally)
    && (forall k, i :: k in tally && k !in considered && 0 <= i < |considered| ==> tally[k] <= tally[considered[i]])
    && (forall i, j :: 0 <= i < j < |considered| ==> tally[considered[i]] >= tally[considered[j]])
    && recs == Seqs.Take(Seqs.SortDesc(Recommendations(considered, tally, |upstreams|, exchanges), RecScore),
                         maxRecommendations)
    && (forall rec :: rec in recs ==> GoodRecommendation(rec, current, tally, |upstreams|) && rec.ixId in considered)
  }

  /** `recommend_ixes`. A failure to list the target's connections other
      than "not found" escapes as an error; "not found" gives no
      recommendations. Otherwise at most twenty upstreams (`scannedUps`, in
      set order) are tallied, the `2 * maxRecommendations` most tallied
      exchanges (`considered`) are looked up, and the recommendations are
      ranked by non-increasing score and truncated. */
  method RecommendIxes(asn: int, maxRecommendations: int, currentIxlans: Fetch<seq<NetIxLan>>,
                       upstreams: set<int>, upstreamIxlans: int -> Option<seq<NetIxLan>>,
                       exchanges: int -> Option<Exchange>)
    returns (r: Result<seq<IxRecommendation>>, ghost scannedUps: seq<int>, ghost considered: seq<int>)
    ensures r.Failure? <==> currentIxlans.Failed?
    ensures currentIxlans.NotFound? ==> r == Success([])
    ensures currentIxlans.Ok? ==>
              && r.Success?
              && IxSearch(maxRecommendations, IxIds(currentIxlans.value), upstreams, upstreamIxlans, exchanges,
                          scannedUps, considered, r.value)
    ensures r.Success? ==> Seqs.SortedDesc(r.value, RecScore)
    ensures r.Success? && maxRecommendations >= 0 ==> |r.value| <= maxRecommendations
  {
    scannedUps, considered := [], [];
    if currentIxlans.Failed? {
      return Failure("PeeringDBError"), scannedUps, considered;
    }
    if currentIxlans.NotFound? {
      return Success([]), scannedUps, considered;
    }
    var current := IxIds(currentIxlans.value);
    var all := Seqs.SetToSeq(upstreams);
    var ups := Seqs.Take(all, 20);
    assert forall i :: 0 <= i < |ups| ==> ups[i] == all[i];
    scannedUps := ups;
    var ranked;
    ranked, considered := TallyAndRank(ups, upstreams, upstreamIxlans, exchanges, current, maxRecommendations);
    r := Success(ranked);
  }

  /** Tallies the chosen upstreams' exchanges, looks up the most tallied
      ones and ranks the recommendations made for them. */
  method TallyAndRank(ups: seq<int>, upstreams: set<int>, upstreamIxlans: int -> Option<seq<NetIxLan>>,
                      exchanges: int -> Option<Exchange>, current: set<int>, maxRecommendations: int)
    returns (ranked: seq<IxRecommendation>, ghost considered: seq<int>)
    ensures IxRanking(maxRecommendations, current, upstreams, upstreamIxlans, exchanges, ups, considered, ranked)
    ensures Seqs.SortedDesc(ranked, RecScore)
    ensures maxRecommendations >= 0 ==> |ranked| <= maxRecommendations
  {
    var tally := TallyUpstreams(ups, upstreamIxlans, current);
    var top := Seqs.MostCommon(tally, maxRecommendations * 2);
    considered := top;
    assert forall k :: k in tally ==> k !in current && tally[k] >= 1;
    ranked := RankRecommendations(top, tally, |upstreams|, exchanges, current, maxRecommendations);
  }

  // ---- common peers (`find_common_peers`) ----

  /** Every member of the given exchanges at which `asn` itself is a member. */
  function PresentWith(ids: set<int>, asn: int, members: int -> Option<seq<NetIxLan>>): set<int> {
    set ix, a | ix in ids && members(ix).Some? && asn in MemberAsns(members(ix).value)
                && a in MemberAsns(members(ix).value) :: a
  }

  lemma PresentWithAdd(ids: set<int>, ix: int, asn: int, members: int -> Option<seq<NetIxLan>>)
    requires members(ix).Some?
    ensures asn in MemberAsns(members(ix).value) ==>
              PresentWith(ids + {ix}, asn, members) == PresentWith(ids, asn, members) + MemberAsns(members(ix).value)
    ensures asn !in MemberAsns(members(ix).value) ==>
              PresentWith(ids + {ix}, asn, members) == PresentWith(ids, asn, members)
  {
  }

  /** Visiting one more exchange adds its members when `asn` is one of them. */
  lemma PresenceStep(common: set<int>, rest: set<int>, ix: int, asn: int, members: int -> Option<seq<NetIxLan>>)
    requires rest <= common && ix in rest && members(ix).Some?
    ensures asn in MemberAsns(members(ix).value) ==>
              PresentWith(common - (rest - {ix}), asn, members)
              == PresentWith(common - rest, asn, members) + MemberAsns(members(ix).value)
    ensures asn !in MemberAsns(members(ix).value) ==>
              PresentWith(common - (rest - {ix}), asn, members) == PresentWith(common - rest, asn, members)
  {
    assert common - (rest - {ix}) == (common - rest) + {ix};
    PresentWithAdd(common - rest, ix, asn, members);
  }

  /** The networks present at a shared exchange with each of the two
      networks, other than the two themselves. */
  function CommonPeers(ids: set<int>, asn1: int, asn2: int, members: int -> Option<seq<NetIxLan>>): set<int> {
    (PresentWith(ids, asn1, members) * PresentWith(ids, asn2, members)) - {asn1, asn2}
  }

  /** The members of the shared exchanges, gathered per network at the
      exchanges where that network is itself a member. A member list that
      cannot be fetched ends the walk (`complete` is false), since the
      source's catch-all then returns the empty list. */
  method CollectPresence(common: set<int>, asn1: int, asn2: int, members: int -> Option<seq<NetIxLan>>)
    returns (complete: bool, at1: set<int>, at2: set<int>)
    ensures complete <==> forall ix :: ix in common ==> members(ix).Some?
    ensures complete ==> at1 == PresentWith(common, asn1, members) && at2 == PresentWith(common, asn2, members)
  {
    at1, at2 := {}, {};
    var rest := common;
    while rest != {}
      invariant rest <= common
      invariant forall ix :: ix in common - rest ==> members(ix).Some?
      invariant at1 == PresentWith(common - rest, asn1, members)
      invariant at2 == PresentWith(common - rest, asn2, members)
      decreases |rest|
    {
      ghost var some := Seqs.Pick(rest);
      var ix :| ix in rest;
      var fetched := members(ix);
      if fetched.None? {
        return false, at1, at2;
      }
      var memberAsns := MemberAsns(fetched.value);
      PresenceStep(common, rest, ix, asn1, members);
      PresenceStep(common, rest, ix, asn2, members);
      if asn1 in memberAsns {
        at1 := at1 + memberAsns;
      }
      if asn2 in memberAsns {
        at2 := at2 + memberAsns;
      }
      rest := rest - {ix};
    }
    assert common - rest == common;
    complete := true;
  }

  /** `find_common_peers`: the networks that share an exchange with both
      networks, ascending. Any failed fetch gives the empty list, as does
      having no exchange in common. */
  method FindCommonPeers(asn1: int, asn2: int, conn1: Option<seq<NetIxLan>>, conn2: Option<seq<NetIxLan>>,
                         members: int -> Option<seq<NetIxLan>>)
    returns (peers: seq<int>)
    ensures Seqs.StrictlyIncreasing(peers)
    ensures asn1 !in peers && asn2 !in peers
    ensures conn1.None? || conn2.None? ==> peers == []
    ensures conn1.Some? && conn2.Some? && IxIds(conn1.value) * IxIds(conn2.value) == {} ==> peers == []
    ensures conn1.Some? && conn2.Some? && (exists ix :: ix in IxIds(conn1.value) * IxIds(conn2.value) && members(ix).None?)
            ==> peers == []
    ensures conn1.Some? && conn2.Some? && (forall ix :: ix in IxIds(conn1.value) * IxIds(conn2.value) ==> members(ix).Some?)
            ==> forall a :: a in peers <==> a in CommonPeers(IxIds(conn1.value) * IxIds(conn2.value), asn1, asn2, members)
  {
    if conn1.None? || conn2.None? {
      return [];
    }
    var common := IxIds(conn1.value) * IxIds(conn2.value);
    if common == {} {
      return [];
    }
    var complete, at1, at2 := CollectPresence(common, asn1, asn2, members);
    if !complete {
      return [];
    }
    var both := (at1 * at2) - {asn1, asn2};
    peers := Seqs.SortedFromSet(both);
  }

  // ---- the peering report (`get_peering_report`) ----

  /** Every member of the given exchanges whose member list can be fetched. */
  function MembersOf(ids: set<int>, members: int -> Option<seq<NetIxLan>>): set<int> {
    set ix, a | ix in ids && members(ix).Some? && a in MemberAsns(members(ix).value) :: a
  }

  /** `estimated_traffic_shift`: five percent per candidate scoring above 5,
      capped at fifty percent, and zero without candidates. */
  function TrafficShift(candidates: seq<PeeringCandidate>): (shift: real)
    ensures 0.0 <= shift <= 50.0
    ensures shift == 0.0 <==> forall i :: 0 <= i < |candidates| ==> candidates[i].score <= 5.0
    ensures shift < 50.0 ==> shift == 5.0 * Seqs.Count(candidates, (c: PeeringCandidate) => c.score > 5.0) as real
    ensures Seqs.Count(candidates, (c: PeeringCandidate) => c.score > 5.0) >= 10 ==> shift == 50.0
  {
    var strong := Seqs.Count(candidates, (c: PeeringCandidate) => c.score > 5.0);
    Seqs.FilterAllOrNone(candidates, (c: PeeringCandidate) => c.score > 5.0);
    if candidates == [] then 0.0
    else if strong as real * 5.0 <= 50.0 then strong as real * 5.0
    else 50.0
  }

  function DefaultReport(asn: int): PeeringReport {
    PeeringReport(asn, "", 0, 0, [], [], 0.0)
  }

  /** The peers count: the networks at any of the target's exchanges whose
      member list can be fetched, other than the target. */
  method CountPeers(asn: int, ids: set<int>, members: int -> Option<seq<NetIxLan>>) returns (count: int)
    ensures count == |MembersOf(ids, members) - {asn}|
  {
    var peerAsns: set<int> := {};
    var rest := ids;
    while rest != {}
      invariant rest <= ids
      invariant peerAsns == MembersOf(ids - rest, members)
      decreases |rest|
    {
      ghost var some := Seqs.Pick(rest);
      var ix :| ix in rest;
      var fetched := members(ix);
      if fetched.Some? {
        peerAsns := peerAsns + MemberAsns(fetched.value);
      }
      assert ids - (rest - {ix}) == (ids - rest) + {ix};
      rest := rest - {ix};
    }
    assert ids - rest == ids;
    peerAsns := peerAsns - {asn};
    count := |peerAsns|;
  }

  /** `get_peering_report`. The target's network record and its connection
      list are fetched first: "not found" leaves the report at its defaults
      from that point on, any other failure escapes. Then the current
      exchanges and peers are counted, the candidate search (up to twenty)
      and the exchange recommendations (up to ten) run on the same fetched
      data (`scanned`, `scannedUps` and `considered` are their set-order
      choices), and the traffic-shift estimate is taken from the candidates. */
  method GetPeeringReport(asn: int, ixlans: Fetch<seq<NetIxLan>>, upstreams: set<int>,
                          members: int -> Option<seq<NetIxLan>>, exchanges: int -> Option<Exchange>,
                          networks: int -> Fetch<Network>, upstreamIxlans: int -> Option<seq<NetIxLan>>)
    returns (r: Result<PeeringReport>, ghost scanned: seq<int>, ghost scannedUps: seq<int>, ghost considered: seq<int>)
    ensures r.Failure? <==> networks(asn).Failed? || (networks(asn).Ok? && ixlans.Failed?)
    ensures networks(asn).NotFound? ==> r == Success(DefaultReport(asn))
    ensures networks(asn).Ok? && ixlans.NotFound? ==> r == Success(DefaultReport(asn).(name := networks(asn).value.name))
    ensures networks(asn).Ok? && ixlans.Ok? ==>
              && r.Success?
              && r.value.asn == asn && r.value.name == networks(asn).value.name
              && r.value.currentIxCount == |IxIds(ixlans.value)|
              && r.value.currentPeerCount == |MembersOf(IxIds(ixlans.value), members) - {asn}|
              && |r.value.candidates| <= 20 && Seqs.SortedDesc(r.value.candidates, ScoreOf)
              && (forall c :: c in r.value.candidates ==> GoodCandidate(c, asn, upstreams))
              && |r.value.ixRecommendations| <= 10 && Seqs.SortedDesc(r.value.ixRecommendations, RecScore)
              && r.value.estimatedTrafficShift == TrafficShift(r.value.candidates)
              && CandidateSearch(asn, 20, IxIds(ixlans.value), upstreams, members, exchanges, networks,
                                 scanned, r.value.candidates)
              && IxSearch(10, IxIds(ixlans.value), upstreams, upstreamIxlans, exchanges,
                          scannedUps, considered, r.value.ixRecommendations)
  {
    scanned, scannedUps, considered := [], [], [];
    var network := networks(asn);
    if network.Failed? {
      r := Failure("PeeringDBError");
      return;
    }
    var report := DefaultReport(asn);
    if network.NotFound? {
      r := Success(report);
      return;
    }
    report := report.(name := network.value.name);
    if ixlans.Failed? {
      r := Failure("PeeringDBError");
      return;
    }
    if ixlans.NotFound? {
      r := Success(report);
      return;
    }
    var ids := IxIds(ixlans.value);
    report := report.(currentIxCount := |ids|);
    var peerCount := CountPeers(asn, ids, members);
    report := report.(currentPeerCount := peerCount);
    var candidates, recs;
    candidates, scanned := FindPeeringCandidates(asn, 20, ixlans, upstreams, members, exchanges, networks);
    recs, scannedUps, considered := RecommendIxes(asn, 10, ixlans, upstreams, upstreamIxlans, exchanges);
    report := report.(candidates := candidates.value, ixRecommendations := recs.value);
    report := report.(estimatedTrafficShift := TrafficShift(report.candidates));
    r := Success(report);
  }

  // ---- two-network assessment (`analyze_peering_opportunity`) ----

  datatype Feasibility = HighFeasibility | MediumFeasibility | LowFeasibility

  predicate IsRestrictive(n: Network) {
    Text.Lower(n.policyGeneral) == "restrictive"
  }

  /** The feasibility and its blockers: "low" with a "no common locations"
      blocker when the networks share neither an exchange nor a facility;
      each restrictive policy (second network first) adds a blocker and
      turns "high" into "medium". */
  ghost predicate FeasibilityOf(opp: PeeringOpportunity, net1: Network, net2: Network,
                                feasibility: Feasibility, blockers: seq<string>)
  {
    && (feasibility == LowFeasibility <==> opp.commonIxes == [] && opp.commonFacilities == [])
    && (feasibility == MediumFeasibility <==>
          OpportunityCount(opp) > 0 && (IsRestrictive(net1) || IsRestrictive(net2)))
    && (feasibility == HighFeasibility <==>
          OpportunityCount(opp) > 0 && !IsRestrictive(net1) && !IsRestrictive(net2))
    && blockers ==
         (if OpportunityCount(opp) == 0 then ["No common locations"] else [])
         + (if IsRestrictive(net2) then [net2.name + " has restrictive peering policy"] else [])
         + (if IsRestrictive(net1) then [net1.name + " has restrictive peering policy"] else [])
  }

  /** `_assess_feasibility`. */
  method AssessFeasibility(opp: PeeringOpportunity, net1: Network, net2: Network)
    returns (feasibility: Feasibility, blockers: seq<string>)
    ensures FeasibilityOf(opp, net1, net2, feasibility, blockers)
  {
    feasibility := HighFeasibility;
    blockers := [];
    if opp.commonIxes == [] && opp.commonFacilities == [] {
      feasibility := LowFeasibility;
      blockers := blockers + ["No common locations"];
    }
    if IsRestrictive(net2) {
      feasibility := if feasibility == HighFeasibility then MediumFeasibility else feasibility;
      blockers := blockers + [net2.name + " has restrictive peering policy"];
    }
    if IsRestrictive(net1) {
      feasibility := if feasibility == HighFeasibility then MediumFeasibility else feasibility;
      blockers := blockers + [net1.name + " has restrictive peering policy"];
    }
  }

  /** `_get_peering_recommendation` */
  datatype Advice = PeerAt(ixName: string) | MayNeedNegotiation | JoinCommonIxFirst | PrivatePeering | ExpandIxPresence

  function PeeringAdvice(opp: PeeringOpportunity, feasibility: Feasibility): (a: Advice)
    ensures a.PeerAt? <==> feasibility == HighFeasibility && opp.commonIxes != []
    ensures a.PeerAt? ==> a.ixName == opp.commonIxes[0].ix.name
    ensures a == MayNeedNegotiation <==> feasibility == MediumFeasibility && opp.commonIxes != []
    ensures a == JoinCommonIxFirst <==> feasibility == MediumFeasibility && opp.commonIxes == []
    ensures a == PrivatePeering <==>
              feasibility != MediumFeasibility && opp.commonIxes == [] && opp.commonFacilities != []
  {
    if feasibility == HighFeasibility && opp.commonIxes != [] then PeerAt(opp.commonIxes[0].ix.name)
    else if feasibility == MediumFeasibility then
      if opp.commonIxes != [] then MayNeedNegotiation else JoinCommonIxFirst
    else if opp.commonIxes == [] && opp.commonFacilities != [] then PrivatePeering
    else ExpandIxPresence
  }

  /** The result of `analyze_peering_opportunity`, or the error it reports
      when a record is not found. */
  datatype Assessment =
    | Assessment(opportunityCount: nat, feasibility: Feasibility, blockers: seq<string>, advice: Advice)
    | NotInPeeringDb

  /** `analyze_peering_opportunity`: the shared-location search and both
      network records are fetched in that order; "not found" for any of
      them is reported, any other failure escapes. */
  method AnalyzePeeringOpportunity(opportunity: Fetch<PeeringOpportunity>, net1: Fetch<Network>, net2: Fetch<Network>)
    returns (r: Result<Assessment>)
    ensures r.Failure? <==>
              opportunity.Failed?
              || (opportunity.Ok? && net1.Failed?)
              || (opportunity.Ok? && net1.Ok? && net2.Failed?)
    ensures r.Success? && r.value.Assessment? <==> opportunity.Ok? && net1.Ok? && net2.Ok?
    ensures r.Success? && r.value.Assessment? ==>
              && r.value.opportunityCount == OpportunityCount(opportunity.value)
              && r.value.advice == PeeringAdvice(opportunity.value, r.value.feasibility)
              && (r.value.feasibility == LowFeasibility <==> OpportunityCount(opportunity.value) == 0)
              && FeasibilityOf(opportunity.value, net1.value, net2.value, r.value.feasibility, r.value.blockers)
              && (r.value.advice == ExpandIxPresence <==> r.value.feasibility == LowFeasibility)
  {
    if opportunity.Failed? { return Failure("PeeringDBError"); }
    if opportunity.NotFound? { return Success(NotInPeeringDb); }
    if net1.Failed? { return Failure("PeeringDBError"); }
    if net1.NotFound? { return Success(NotInPeeringDb); }
    if net2.Failed? { return Failure("PeeringDBError"); }
    if net2.NotFound? { return Success(NotInPeeringDb); }
    var feasibility, blockers := AssessFeasibility(opportunity.value, net1.value, net2.value);
    var advice := PeeringAdvice(opportunity.value, feasibility);
    ExpansionOnlyWhenLow(opportunity.value, feasibility);
    r := Success(Assessment(OpportunityCount(opportunity.value), feasibility, blockers, advice));
  }

  /** Two networks with open policies that share an exchange can peer with
      high feasibility and nothing in the way. */
  lemma OpenSharedHigh(opp: PeeringOpportunity, net1: Network, net2: Network,
                       feasibility: Feasibility, blockers: seq<string>)
    requires FeasibilityOf(opp, net1, net2, feasibility, blockers)
    requires opp.commonIxes != [] && net1.policyGeneral == "Open" && net2.policyGeneral == "Open"
    ensures feasibility == HighFeasibility && blockers == []
  {
    assert Text.Lower("Open") == "open";
  }

  /** When the feasibility is the one the assessment computes, the advice
      is to expand exchange presence exactly when the feasibility is low. */
  lemma ExpansionOnlyWhenLow(opp: PeeringOpportunity, feasibility: Feasibility)
    requires feasibility == LowFeasibility <==> opp.commonIxes == [] && opp.commonFacilities == []
    ensures PeeringAdvice(opp, feasibility) == ExpandIxPresence <==> feasibility == LowFeasibility
  {
  }
}
