/** Path analysis over looking-glass AS paths, and the snapshot anomaly
    checks built on it (MOAS, RPKI-invalid, unusual paths). */
module Paths {
  import opened Wrappers
  import Text
  import Seqs
  import opened AnalysisModels
  import RipestatModels

  // ---- parsing textual AS paths ----

  /** A token that opens an AS_SET segment `{...}` (section 5.1.2 of RFC 4271); it is skipped. */
  predicate IsAsSet(token: string) { Text.StartsWith(token, "{") }

  /** What one token contributes: its integer value, or nothing when it is
      an AS_SET or does not parse. */
  function TokenAsn(token: string): seq<int> {
    if IsAsSet(token) then []
    else match Text.ParseInt(token)
      case Some(v) => [v]
      case None => []
  }

  lemma TokenAsnMember(token: string, v: int)
    ensures v in TokenAsn(token) <==> !IsAsSet(token) && Text.ParseInt(token) == Some(v)
  {
  }

  /** The ASNs a sequence of tokens names, in order. */
  function TokenAsns(tokens: seq<string>): seq<int> {
    Seqs.FlatMap(tokens, TokenAsn)
  }

  /** Each token contributes at most one ASN. */
  lemma TokenAsnsShort(tokens: seq<string>)
    ensures |TokenAsns(tokens)| <= |tokens|
  {
    assert forall i :: 0 <= i < |tokens| ==> |TokenAsn(tokens[i])| <= 1;
    Seqs.FlatMapShort(tokens, TokenAsn);
  }

  /** An ASN is in the parsed path exactly when some token that is not an
      AS_SET parses to it. */
  lemma TokenAsnsMembers(tokens: seq<string>, v: int)
    ensures v in TokenAsns(tokens) <==>
              exists i :: 0 <= i < |tokens| && !IsAsSet(tokens[i]) && Text.ParseInt(tokens[i]) == Some(v)
  {
    Seqs.FlatMapMembers(tokens, TokenAsn, v);
    forall i | 0 <= i < |tokens|
      ensures v in TokenAsn(tokens[i]) <==> !IsAsSet(tokens[i]) && Text.ParseInt(tokens[i]) == Some(v)
    {
      TokenAsnMember(tokens[i], v);
    }
  }

  /** One more token adds what that token contributes. */
  lemma TokenAsnsSnoc(tokens: seq<string>, i: int)
    requires 0 <= i < |tokens|
    ensures TokenAsns(tokens[..i + 1]) == TokenAsns(tokens[..i]) + TokenAsn(tokens[i])
  {
    Seqs.FlatMapSnoc(tokens, i, TokenAsn);
  }

  /** `_parse_as_path`: splits on whitespace and keeps, in order, every
      token that is not an AS_SET and parses as an integer; it never fails. */
  method ParseAsPath(pathStr: string) returns (asns: seq<int>)
    ensures asns == TokenAsns(Text.Words(pathStr))
    ensures |asns| <= |Text.Words(pathStr)|
  {
    var parts := Text.Words(pathStr);
    asns := [];
    for i := 0 to |parts|
      invariant asns == TokenAsns(parts[..i])
    {
      TokenAsnsSnoc(parts, i);
      var part := parts[i];
      if !IsAsSet(part) {
        var parsed := Text.ParseInt(part);
        if parsed.Some? {
          asns := asns + [parsed.value];
        }
      }
    }
    assert parts[..|parts|] == parts;
    TokenAsnsShort(parts);
  }

  // ---- one path ----

  /** How many adjacent hops repeat the previous ASN (each repetition is one prepend). */
  function AdjacentEqualPairs(path: seq<int>): (n: nat)
    ensures |path| <= 1 ==> n == 0
    ensures |path| >= 1 ==> n <= |path| - 1
  {
    if |path| < 2 then 0
    else AdjacentEqualPairs(path[..|path| - 1]) + (if path[|path| - 1] == path[|path| - 2] then 1 else 0)
  }

  /** There is no prepending exactly when no two adjacent hops are equal. */
  lemma {:induction false} NoPrependingIffDistinctNeighbours(path: seq<int>)
    ensures AdjacentEqualPairs(path) == 0 <==> forall i :: 1 <= i < |path| ==> path[i] != path[i - 1]
  {
    if |path| >= 2 {
      var init := path[..|path| - 1];
      NoPrependingIffDistinctNeighbours(init);
      assert forall i :: 0 <= i < |init| ==> init[i] == path[i];
    }
  }

  /** What `_create_as_path` promises about the record it builds for `path`. */
  predicate Describes(p: AsPath, path: seq<int>) {
    && p.path == path
    && p.length == |path|
    && p.originAsn == (if path == [] then 0 else path[|path| - 1])
    && |p.hops| == |path|
    && (forall i :: 0 <= i < |path| ==> p.hops[i] == PathHop(path[i], i, i == 0, i == |path| - 1))
    && p.prependCount == AdjacentEqualPairs(path)
    && (p.hasPrepending <==> p.prependCount > 0)
  }

  /** `_create_as_path`: one hop per ASN with its position, the first hop
      marked as origin and the last as destination, and the prepend count. */
  method CreateAsPath(path: seq<int>) returns (p: AsPath)
    ensures Describes(p, path)
    ensures p.prependCount <= (if path == [] then 0 else |path| - 1)
  {
    var hops: seq<PathHop> := [];
    for i := 0 to |path|
      invariant |hops| == i
      invariant forall k :: 0 <= k < i ==> hops[k] == PathHop(path[k], k, k == 0, k == |path| - 1)
    {
      hops := hops + [PathHop(path[i], i, i == 0, i == |path| - 1)];
    }
    var hasPrepending := false;
    var prependCount := 0;
    var i := 1;
    while i < |path|
      invariant 1 <= i && (path != [] ==> i <= |path|)
      invariant path != [] ==> prependCount == AdjacentEqualPairs(path[..i])
      invariant path == [] ==> prependCount == 0
      invariant hasPrepending <==> prependCount > 0
    {
      assert path[..i + 1][..i] == path[..i];
      if path[i] == path[i - 1] {
        hasPrepending := true;
        prependCount := prependCount + 1;
      }
      i := i + 1;
    }
    if |path| > 0 {
      assert path[..i] == path;
    }
    p := NewAsPath(path, hops, |path|, if path != [] then path[|path| - 1] else 0, hasPrepending, prependCount);
  }

  // ---- common transit ----

  /** The transit ASes of one path: all but the observer's first and the
      origin's last entry, each once; none for paths of one or two hops. */
  function Interior(path: seq<int>): set<int> {
    if |path| > 2 then set i | 1 <= i < |path| - 1 :: path[i] else {}
  }

  /** In how many paths `a` is a transit AS. */
  function PathsThrough(paths: seq<seq<int>>, a: int): (n: nat)
    ensures n <= |paths|
  {
    if paths == [] then 0
    else PathsThrough(paths[..|paths| - 1], a) + (if a in Interior(paths[|paths| - 1]) then 1 else 0)
  }

  lemma {:induction false} PathsThroughPositive(paths: seq<seq<int>>, a: int)
    ensures PathsThrough(paths, a) > 0 <==> exists j :: 0 <= j < |paths| && a in Interior(paths[j])
  {
    if paths != [] {
      var init := paths[..|paths| - 1];
      PathsThroughPositive(init, a);
      assert forall j :: 0 <= j < |init| ==> init[j] == paths[j];
    }
  }

  /** `Counter.update(s)` for a set `s`: every member's count goes up by one. */
  function Tally(counts: map<int, int>, s: set<int>): (r: map<int, int>)
    ensures r.Keys == counts.Keys + s
  {
    map k | k in counts.Keys + s :: (if k in counts then counts[k] else 0) + (if k in s then 1 else 0)
  }

  /** The common-transit promise: at most ten distinct transit ASes, each
      on at least half of the raw paths, ordered by non-increasing count;
      a qualifying AS is left out only when ten others were returned, and
      then it transits no more paths than any of them. */
  ghost predicate CommonTransitOf(paths: seq<seq<int>>, r: seq<int>) {
    && (paths == [] ==> r == [])
    && |r| <= 10
    && Seqs.Distinct(r)
    && (forall i :: 0 <= i < |r| ==> exists j :: 0 <= j < |paths| && r[i] in Interior(paths[j]))
    && (forall i :: 0 <= i < |r| ==> 2 * PathsThrough(paths, r[i]) >= |paths|)
    && (forall i, j :: 0 <= i < j < |r| ==> PathsThrough(paths, r[i]) >= PathsThrough(paths, r[j]))
    && (forall a :: 0 < |paths| <= 2 * PathsThrough(paths, a) && a !in r ==> |r| == 10)
    && (forall a, i :: 0 < |paths| <= 2 * PathsThrough(paths, a) && a !in r && 0 <= i < |r| ==>
          PathsThrough(paths, a) <= PathsThrough(paths, r[i]))
  }

  /** The Counter pass of `_find_common_transit`: for each AS, the number
      of paths it transits; ASes that transit none are absent. */
  method CountTransit(paths: seq<seq<int>>) returns (counts: map<int, int>)
    ensures forall a :: a in counts <==> PathsThrough(paths, a) > 0
    ensures forall a :: a in counts ==> counts[a] == PathsThrough(paths, a)
  {
    counts := map[];
    for i := 0 to |paths|
      invariant forall a :: a in counts <==> PathsThrough(paths[..i], a) > 0
      invariant forall a :: a in counts ==> counts[a] == PathsThrough(paths[..i], a)
    {
      assert paths[..i + 1][..i] == paths[..i];
      counts := Tally(counts, Interior(paths[i]));
    }
    assert paths[..|paths|] == paths;
  }

  /** The filter of `_find_common_transit`: the keys of the top list, in
      order, whose count reaches half of `total`. */
  function KeepFrequent(top: seq<int>, counts: map<int, int>, total: int): seq<int> {
    Seqs.Filter(top, k => k in counts && 2 * counts[k] >= total)
  }

  /** The filter keeps exactly the qualifying keys, distinct and still in
      non-increasing order of count, and drops nothing when all qualify. */
  lemma KeepFrequentKeeps(top: seq<int>, counts: map<int, int>, total: int)
    requires Seqs.Distinct(top)
    requires forall k :: 0 <= k < |top| ==> top[k] in counts
    requires forall p, q :: 0 <= p < q < |top| ==> counts[top[p]] >= counts[top[q]]
    ensures var common := KeepFrequent(top, counts, total);
            && Seqs.Distinct(common) && |common| <= |top|
            && (forall k :: 0 <= k < |common| ==> common[k] in top && 2 * counts[common[k]] >= total)
            && (forall k :: 0 <= k < |top| && 2 * counts[top[k]] >= total ==> top[k] in common)
            && (forall p, q :: 0 <= p < q < |common| ==> counts[common[p]] >= counts[common[q]])
            && ((forall k :: 0 <= k < |top| ==> 2 * counts[top[k]] >= total) ==> common == top)
  {
    var keep := k => k in counts && 2 * counts[k] >= total;
    var common := Seqs.Filter(top, keep);
    Seqs.FilterDistinct(top, keep);
    var rel := (a, b) => a in counts && b in counts && counts[a] >= counts[b];
    Seqs.FilterPairwise(top, keep, rel);
    Seqs.FilterAllOrNone(top, keep);
  }

  /** What the Counter pass gives: exactly the transiting ASes, each with
      the number of paths it transits. */
  ghost predicate TransitCounts(paths: seq<seq<int>>, counts: map<int, int>) {
    && (forall a :: a in counts <==> PathsThrough(paths, a) > 0)
    && (forall a :: a in counts ==> counts[a] == PathsThrough(paths, a))
  }

  /** What `most_common(10)` gives: ten keys of the counter (all of them
      when it has fewer), distinct, by non-increasing count, and none left
      out that counts more than one taken. */
  ghost predicate TopTen(counts: map<int, int>, top: seq<int>) {
    && |top| == Seqs.Min(10, |counts|)
    && Seqs.Distinct(top)
    && (forall i :: 0 <= i < |top| ==> top[i] in counts)
    && (forall i, j :: 0 <= i < j < |top| ==> counts[top[i]] >= counts[top[j]])
    && (forall k, i :: k in counts && k !in top && 0 <= i < |top| ==> counts[k] <= counts[top[i]])
    && (|top| < 10 ==> forall k :: k in counts ==> k in top)
  }

  /** A qualifying key missing from the filtered top ten was beaten by ten
      others, all of which are kept and count at least as much. */
  lemma LeftOutOfTop(counts: map<int, int>, top: seq<int>, total: int, a: int)
    requires TopTen(counts, top)
    requires forall k :: 0 <= k < |top| && 2 * counts[top[k]] >= total ==> top[k] in KeepFrequent(top, counts, total)
    requires ((forall k :: 0 <= k < |top| ==> 2 * counts[top[k]] >= total) ==> KeepFrequent(top, counts, total) == top)
    requires a in counts && 2 * counts[a] >= total && a !in KeepFrequent(top, counts, total)
    ensures |KeepFrequent(top, counts, total)| == 10
    ensures forall i :: 0 <= i < |KeepFrequent(top, counts, total)| ==> counts[a] <= counts[KeepFrequent(top, counts, total)[i]]
  {
    assert a !in top;
    assert |top| == 10;
    assert forall k :: 0 <= k < |top| ==> 2 * counts[top[k]] >= total;
  }

  /** Filtering the top ten of the Counter pass at one half of the paths
      meets the common-transit promise. */
  lemma CommonTransitFromTop(paths: seq<seq<int>>, counts: map<int, int>, top: seq<int>)
    requires paths != [] && TransitCounts(paths, counts) && TopTen(counts, top)
    ensures CommonTransitOf(paths, KeepFrequent(top, counts, |paths|))
  {
    var common := KeepFrequent(top, counts, |paths|);
    KeepFrequentKeeps(top, counts, |paths|);
    forall j | 0 <= j < |common| ensures exists k :: 0 <= k < |paths| && common[j] in Interior(paths[k]) {
      PathsThroughPositive(paths, common[j]);
    }
    TransitLeftOut(paths, counts, top);
  }

  /** The left-out half of the promise: a qualifying AS is missing only
      behind ten kept ones that transit at least as many paths. */
  lemma TransitLeftOut(paths: seq<seq<int>>, counts: map<int, int>, top: seq<int>)
    requires paths != [] && TransitCounts(paths, counts) && TopTen(counts, top)
    ensures var common := KeepFrequent(top, counts, |paths|);
            forall a :: 2 * PathsThrough(paths, a) >= |paths| && a !in common ==>
              |common| == 10 && forall i :: 0 <= i < |common| ==> PathsThrough(paths, a) <= PathsThrough(paths, common[i])
  {
    var common := KeepFrequent(top, counts, |paths|);
    KeepFrequentKeeps(top, counts, |paths|);
    forall a | 2 * PathsThrough(paths, a) >= |paths| && a !in common
      ensures |common| == 10
      ensures forall i :: 0 <= i < |common| ==> PathsThrough(paths, a) <= PathsThrough(paths, common[i])
    {
      assert a in counts && 2 * counts[a] >= |paths|;
      LeftOutOfTop(counts, top, |paths|, a);
    }
  }

  /** `_find_common_transit` with its default threshold of one half. */
  method FindCommonTransit(paths: seq<seq<int>>) returns (common: seq<int>)
    ensures CommonTransitOf(paths, common)
  {
    if paths == [] {
      return [];
    }
    var counts := CountTransit(paths);
    var top := Seqs.MostCommon(counts, 10);
    common := KeepFrequent(top, counts, |paths|);
    CommonTransitFromTop(paths, counts, top);
  }

  // ---- analyze_paths ----

  function Last(p: seq<int>): int
    requires p != []
  {
    p[|p| - 1]
  }

  /** The non-empty parsed paths of the peers' AS-path strings, in order,
      duplicates included. */
  function ParsedPaths(asPaths: seq<string>): (ps: seq<seq<int>>)
    ensures forall i :: 0 <= i < |ps| ==> ps[i] != []
  {
    var ps := Seqs.FlatMap(asPaths, ParsedPath);
    assert forall i :: 0 <= i < |ps| ==> ps[i] != [] by {
      forall i | 0 <= i < |ps| ensures ps[i] != [] {
        Seqs.FlatMapMembers(asPaths, ParsedPath, ps[i]);
      }
    }
    ps
  }

  /** What one peer's path contributes: its parse, unless that is empty. */
  function ParsedPath(asPath: string): seq<seq<int>> {
    var p := TokenAsns(Text.Words(asPath));
    if p != [] then [p] else []
  }

  /** The last ASes of the given non-empty paths. */
  function OriginSet(ps: seq<seq<int>>): set<int>
    requires forall i :: 0 <= i < |ps| ==> ps[i] != []
  {
    set i | 0 <= i < |ps| :: Last(ps[i])
  }

  lemma OriginSetSnoc(ps: seq<seq<int>>, p: seq<int>)
    requires forall i :: 0 <= i < |ps| ==> ps[i] != []
    requires p != []
    ensures forall i :: 0 <= i < |ps + [p]| ==> (ps + [p])[i] != []
    ensures OriginSet(ps + [p]) == OriginSet(ps) + {Last(p)}
  {
    var qs := ps + [p];
    assert forall i :: 0 <= i < |qs| ==> qs[i] == if i < |ps| then ps[i] else p;
    forall x | x in OriginSet(qs) ensures x in OriginSet(ps) + {Last(p)} {
      var i :| 0 <= i < |qs| && Last(qs[i]) == x;
      if i < |ps| { assert qs[i] == ps[i]; }
    }
    forall x | x in OriginSet(ps) ensures x in OriginSet(qs) {
      var i :| 0 <= i < |ps| && Last(ps[i]) == x;
      assert qs[i] == ps[i];
    }
    assert Last(qs[|ps|]) == Last(p);
  }

  /** The collection loop of `analyze_paths`: every peer's AS path that is
      present and parses to a non-empty list, and the set of their origins. */
  method CollectPaths(asPaths: seq<string>) returns (allPaths: seq<seq<int>>, origins: set<int>)
    ensures allPaths == ParsedPaths(asPaths)
    ensures origins == OriginSet(allPaths)
  {
    allPaths := [];
    origins := {};
    for i := 0 to |asPaths|
      invariant allPaths == ParsedPaths(asPaths[..i])
      invariant origins == OriginSet(allPaths)
    {
      Seqs.FlatMapSnoc(asPaths, i, ParsedPath);
      allPaths, origins := CollectOne(asPaths[i], allPaths, origins);
    }
    assert asPaths[..|asPaths|] == asPaths;
  }

  /** One iteration of the collection loop: a present path that parses to
      a non-empty list is kept and its origin recorded. */
  method CollectOne(asPath: string, allPaths: seq<seq<int>>, origins: set<int>)
    returns (allPaths': seq<seq<int>>, origins': set<int>)
    requires forall k :: 0 <= k < |allPaths| ==> allPaths[k] != []
    requires origins == OriginSet(allPaths)
    ensures allPaths' == allPaths + ParsedPath(asPath)
    ensures forall k :: 0 <= k < |allPaths'| ==> allPaths'[k] != []
    ensures origins' == OriginSet(allPaths')
  {
    allPaths', origins' := allPaths, origins;
    if asPath == "" {
      EmptyPathParsesToNothing(asPath);
      assert allPaths + [] == allPaths;
    } else {
      var path := ParseAsPath(asPath);
      ParsedPathIs(asPath, path);
      if path != [] {
        OriginSetSnoc(allPaths, path);
        allPaths' := allPaths + [path];
        origins' := origins + {path[|path| - 1]};
      } else {
        assert allPaths + [] == allPaths;
      }
    }
  }

  lemma EmptyPathParsesToNothing(asPath: string)
    requires asPath == ""
    ensures ParsedPath(asPath) == []
  {
    assert Text.Words(asPath) == [];
  }

  lemma ParsedPathIs(asPath: string, path: seq<int>)
    requires path == TokenAsns(Text.Words(asPath))
    ensures path != [] ==> ParsedPath(asPath) == [path]
    ensures path == [] ==> ParsedPath(asPath) == []
  {
  }

  function Lengths(ps: seq<seq<int>>): (ls: seq<int>)
    ensures |ls| == |ps| && forall i :: 0 <= i < |ps| ==> ls[i] == |ps[i]|
  {
    seq(|ps|, i requires 0 <= i < |ps| => |ps[i]|)
  }

  /** `min(xs)` */
  function SeqMin(xs: seq<int>): (m: int)
    requires xs != []
    ensures m in xs && forall i :: 0 <= i < |xs| ==> m <= xs[i]
  {
    if |xs| == 1 then xs[0]
    else
      var r := SeqMin(xs[1..]);
      assert forall i :: 1 <= i < |xs| ==> xs[i] == xs[1..][i - 1];
      if xs[0] <= r then xs[0] else r
  }

  /** `max(xs)` */
  function SeqMax(xs: seq<int>): (m: int)
    requires xs != []
    ensures m in xs && forall i :: 0 <= i < |xs| ==> xs[i] <= m
  {
    if |xs| == 1 then xs[0]
    else
      var r := SeqMax(xs[1..]);
      assert forall i :: 1 <= i < |xs| ==> xs[i] == xs[1..][i - 1];
      if xs[0] >= r then xs[0] else r
  }

  lemma {:induction false} SumBetween(xs: seq<int>, lo: int, hi: int)
    requires forall i :: 0 <= i < |xs| ==> lo <= xs[i] <= hi
    ensures lo * |xs| <= Seqs.Sum(xs) <= hi * |xs|
  {
    if xs != [] {
      assert forall i :: 1 <= i < |xs| ==> xs[i] == xs[1..][i - 1];
      SumBetween(xs[1..], lo, hi);
    }
  }

  /** The mean of a non-empty list lies between its minimum and maximum. */
  lemma MeanBetween(xs: seq<int>)
    requires xs != []
    ensures SeqMin(xs) as real <= Seqs.Sum(xs) as real / |xs| as real <= SeqMax(xs) as real
  {
    SumBetween(xs, SeqMin(xs), SeqMax(xs));
    Seqs.MeanBounds(Seqs.Sum(xs), |xs|, SeqMin(xs), SeqMax(xs));
  }

  /** Builds the record of each of the given paths, in order. */
  method DescribeAll(ps: seq<seq<int>>) returns (r: seq<AsPath>)
    ensures |r| == |ps| && forall i :: 0 <= i < |ps| ==> Describes(r[i], ps[i])
  {
    r := [];
    for i := 0 to |ps|
      invariant |r| == i && forall k :: 0 <= k < i ==> Describes(r[k], ps[k])
    {
      var p := CreateAsPath(ps[i]);
      r := r + [p];
    }
  }

  /** What `analyze_paths` promises about a snapshot whose parsed paths
      are `ps`, given some enumeration `unique` of its distinct paths (the
      order Python's set iteration happens to produce). */
  ghost predicate AnalysisOf(resource: string, ps: seq<seq<int>>, unique: seq<seq<int>>, a: PathAnalysis)
    requires forall i :: 0 <= i < |ps| ==> ps[i] != []
  {
    && a.destination == resource
    && a.pathCount == |ps|
    && Seqs.Distinct(unique) && (forall p :: p in unique <==> p in ps)
    && LengthStatsOf(ps, unique, a.avgPathLength, a.minPathLength, a.maxPathLength)
    && |a.uniquePaths| == Seqs.Min(20, |unique|)
    && (forall i :: 0 <= i < |a.uniquePaths| ==> Describes(a.uniquePaths[i], unique[i]))
    && Seqs.Distinct(a.originAsns)
    && (forall x :: x in a.originAsns <==> x in OriginSet(ps))
    && CommonTransitOf(ps, a.commonTransit)
  }

  /** The mean is taken over the distinct paths; the minimum and maximum
      bound every raw path and are each attained by one. */
  ghost predicate LengthStatsOf(ps: seq<seq<int>>, unique: seq<seq<int>>, avg: real, lo: int, hi: int) {
    && unique != [] && avg == Seqs.Sum(Lengths(unique)) as real / |unique| as real
    && (forall i :: 0 <= i < |ps| ==> lo <= |ps[i]| <= hi)
    && (exists i :: 0 <= i < |ps| && |ps[i]| == lo)
    && (exists i :: 0 <= i < |ps| && |ps[i]| == hi)
    && lo as real <= avg <= hi as real
  }

  /** The length statistics over an enumeration of the distinct paths
      bound every raw path and are attained by some raw path; their mean
      lies between them. */
  lemma LengthStats(ps: seq<seq<int>>, unique: seq<seq<int>>)
    requires ps != [] && forall p :: p in unique <==> p in ps
    ensures unique != []
    ensures var ls := Lengths(unique);
      LengthStatsOf(ps, unique, Seqs.Sum(ls) as real / |ls| as real, SeqMin(ls), SeqMax(ls))
  {
    assert ps[0] in unique;
    LengthBounds(ps, unique);
    var ls := Lengths(unique);
    var sum, n := Seqs.Sum(ls), |ls|;
    var avg, lo, hi := sum as real / n as real, SeqMin(ls), SeqMax(ls);
    MeanBetween(ls);
    assert lo as real <= avg <= hi as real;
    assert n == |unique|;
  }

  lemma LengthBounds(ps: seq<seq<int>>, unique: seq<seq<int>>)
    requires ps != [] && unique != [] && forall p :: p in unique <==> p in ps
    ensures forall i :: 0 <= i < |ps| ==> SeqMin(Lengths(unique)) <= |ps[i]| <= SeqMax(Lengths(unique))
    ensures exists i :: 0 <= i < |ps| && |ps[i]| == SeqMin(Lengths(unique))
    ensures exists i :: 0 <= i < |ps| && |ps[i]| == SeqMax(Lengths(unique))
  {
    var lengths := Lengths(unique);
    forall i | 0 <= i < |ps| ensures SeqMin(lengths) <= |ps[i]| <= SeqMax(lengths) {
      assert ps[i] in unique;
      var k :| 0 <= k < |unique| && unique[k] == ps[i];
      assert lengths[k] == |ps[i]|;
    }
    var kl :| 0 <= kl < |lengths| && lengths[kl] == SeqMin(lengths);
    var kh :| 0 <= kh < |lengths| && lengths[kh] == SeqMax(lengths);
    assert unique[kl] in ps;
    assert unique[kh] in ps;
  }

  /** The statistics step of `analyze_paths`, once at least one path parsed. */
  method Summarise(resource: string, allPaths: seq<seq<int>>, origins: set<int>)
    returns (a: PathAnalysis, ghost unique: seq<seq<int>>)
    requires allPaths != [] && forall i :: 0 <= i < |allPaths| ==> allPaths[i] != []
    requires origins == OriginSet(allPaths)
    ensures AnalysisOf(resource, allPaths, unique, a)
  {
    var uniqueSet := set p | p in allPaths;
    var uniquePaths := Seqs.SetToSeq(uniqueSet);
    unique := uniquePaths;
    LengthStats(allPaths, uniquePaths);
    var lengths := Lengths(uniquePaths);
    var described := DescribeAll(Seqs.Take(uniquePaths, 20));
    var originList := Seqs.SetToSeq(origins);
    var transit := FindCommonTransit(allPaths);
    var avg := Seqs.Sum(lengths) as real / |lengths| as real;
    a := PathAnalysis(resource, |allPaths|, described, avg, SeqMin(lengths), SeqMax(lengths), transit, originList);
  }

  /** `analyze_paths` over the looking-glass answer: the AS-path string of
      every peer of every collector, in response order, or `None` when the
      request raised (the analysis then keeps its defaults). */
  method AnalyzePaths(resource: string, lg: Option<seq<string>>) returns (a: PathAnalysis, ghost unique: seq<seq<int>>)
    ensures lg.None? || ParsedPaths(lg.value) == [] ==> a == EmptyPathAnalysis(resource)
    ensures lg.Some? && ParsedPaths(lg.value) != [] ==> AnalysisOf(resource, ParsedPaths(lg.value), unique, a)
  {
    unique := [];
    if lg.None? {
      return EmptyPathAnalysis(resource), unique;
    }
    var allPaths, origins := CollectPaths(lg.value);
    if allPaths == [] {
      return EmptyPathAnalysis(resource), unique;
    }
    a, unique := Summarise(resource, allPaths, origins);
  }

  // ---- snapshot anomaly checks ----

  /** `_check_moas`: one HIGH anomaly, carrying the origins and the path
      count, exactly when the snapshot shows more than one origin AS. */
  function CheckMoas(resource: string, analysis: PathAnalysis): (r: seq<Anomaly>)
    ensures |r| <= 1
    ensures |r| == 1 <==> |analysis.originAsns| > 1
    ensures forall i :: 0 <= i < |r| ==>
              r[i] == Anomaly(Moas, High, resource, None, None,
                              OriginDetails(analysis.originAsns, analysis.pathCount))
  {
    if |analysis.originAsns| <= 1 then []
    else [Anomaly(Moas, High, resource, None, None, OriginDetails(analysis.originAsns, analysis.pathCount))]
  }

  /** The resource names an AS rather than a prefix: "AS..." in any case,
      or a bare number. */
  predicate IsAsnResource(resource: string) {
    Text.StartsWith(Text.Upper(resource), "AS") || Text.IsDigits(resource)
  }

  /** `_check_rpki` over the validator's answer (`None` when the request
      raised): nothing for an AS resource, and one CRITICAL anomaly that
      carries the expected and observed origins exactly when the verdict is
      "invalid". */
  function CheckRpki(resource: string, validation: Option<RipestatModels.RpkiValidation>): (r: seq<Anomaly>)
    ensures IsAsnResource(resource) || validation.None? ==> r == []
    ensures |r| <= 1
    ensures |r| == 1 <==> !IsAsnResource(resource) && validation.Some? && validation.value.status == "invalid"
    ensures forall i :: 0 <= i < |r| ==>
              r[i] == Anomaly(RpkiInvalid, CriticalRisk, resource, validation.value.expectedOrigin,
                              validation.value.observedOrigin, RpkiDetails("invalid"))
  {
    if IsAsnResource(resource) then []
    else match validation
      case None => []
      case Some(v) =>
        if v.status == "invalid"
        then [Anomaly(RpkiInvalid, CriticalRisk, resource, v.expectedOrigin, v.observedOrigin, RpkiDetails(v.status))]
        else []
  }

  /** The index of the first path with more than five prepends, if any. */
  function FirstHeavilyPrepended(ps: seq<AsPath>): (k: Option<nat>)
    ensures k.Some? ==> k.value < |ps| && ps[k.value].prependCount > 5
                        && forall j :: 0 <= j < k.value ==> ps[j].prependCount <= 5
    ensures k.None? ==> forall j :: 0 <= j < |ps| ==> ps[j].prependCount <= 5
  {
    if ps == [] then None
    else if ps[0].prependCount > 5 then Some(0)
    else match FirstHeavilyPrepended(ps[1..])
      case None => None
      case Some(k) => Some(k + 1)
  }

  /** What `_check_unusual_paths` promises: a MEDIUM anomaly first exactly
      when some path is longer than 10 hops, then a LOW anomaly for the
      first heavily prepended path exactly when there is one, and nothing else. */
  ghost predicate UnusualPathAnomalies(resource: string, analysis: PathAnalysis, r: seq<Anomaly>) {
    var long := if analysis.maxPathLength > 10
                then [Anomaly(UnusualPathLength, Medium, resource, None, None,
                              LengthDetails(analysis.maxPathLength, analysis.avgPathLength))]
                else [];
    var prepended := match FirstHeavilyPrepended(analysis.uniquePaths)
                     case None => []
                     case Some(k) => [Anomaly(UnusualPathLength, Low, resource, None, None,
                                              PrependDetails(analysis.uniquePaths[k].path,
                                                             analysis.uniquePaths[k].prependCount))];
    r == long + prepended
  }

  /** The unusual-path findings hold at most one MEDIUM anomaly (a path
      longer than 10 hops) and at most one LOW anomaly (some path with more
      than five prepends), and no other kind. */
  lemma UnusualPathShape(resource: string, analysis: PathAnalysis, r: seq<Anomaly>)
    requires UnusualPathAnomalies(resource, analysis, r)
    ensures |r| <= 2
    ensures forall i :: 0 <= i < |r| ==> r[i].kind == UnusualPathLength && r[i].resource == resource
    ensures forall i :: 0 <= i < |r| ==> r[i].severity == Medium || r[i].severity == Low
    ensures (exists i :: 0 <= i < |r| && r[i].severity == Medium) <==> analysis.maxPathLength > 10
    ensures (exists i :: 0 <= i < |r| && r[i].severity == Low) <==>
              exists j :: 0 <= j < |analysis.uniquePaths| && analysis.uniquePaths[j].prependCount > 5
  {
    var k := FirstHeavilyPrepended(analysis.uniquePaths);
    if analysis.maxPathLength > 10 {
      assert r[0].severity == Medium;
    }
    if k.Some? {
      assert r[|r| - 1].severity == Low;
    }
  }

  /** `_check_unusual_paths`: the long-path test, then a scan of the
      described paths that stops at the first heavily prepended one. */
  method CheckUnusualPaths(resource: string, analysis: PathAnalysis) returns (r: seq<Anomaly>)
    ensures UnusualPathAnomalies(resource, analysis, r)
  {
    r := [];
    if analysis.maxPathLength > 10 {
      r := r + [Anomaly(UnusualPathLength, Medium, resource, None, None,
                        LengthDetails(analysis.maxPathLength, analysis.avgPathLength))];
    }
    ghost var long := r;
    var ps := analysis.uniquePaths;
    var i := 0;
    while i < |ps|
      invariant 0 <= i <= |ps|
      invariant r == long
      invariant forall j :: 0 <= j < i ==> ps[j].prependCount <= 5
    {
      if ps[i].prependCount > 5 {
        r := r + [Anomaly(UnusualPathLength, Low, resource, None, None,
                          PrependDetails(ps[i].path, ps[i].prependCount))];
        assert FirstHeavilyPrepended(ps) == Some(i);
        return;
      }
      i := i + 1;
    }
  }

  // ---- detect_anomalies ----

  /** The if/elif chain of `detect_anomalies` that sets the report's risk level. */
  function RiskLevelOf(anomalies: seq<Anomaly>): RiskLevel {
    if exists i :: 0 <= i < |anomalies| && anomalies[i].severity == CriticalRisk then CriticalRisk
    else if exists i :: 0 <= i < |anomalies| && anomalies[i].severity == High then High
    else if exists i :: 0 <= i < |anomalies| && anomalies[i].severity == Medium then Medium
    else Low
  }

  /** The reference definition: the most severe level among the anomalies, LOW for none. */
  function MaxSeverity(anomalies: seq<Anomaly>): RiskLevel {
    if anomalies == [] then Low else MaxRisk(anomalies[0].severity, MaxSeverity(anomalies[1..]))
  }

  /** The elif chain computes the maximum severity, so LOW results both
      from an empty list and from a list of LOW anomalies only. */
  lemma {:induction false} RiskLevelIsMaxSeverity(anomalies: seq<Anomaly>)
    ensures RiskLevelOf(anomalies) == MaxSeverity(anomalies)
  {
    if anomalies != [] {
      var rest := anomalies[1..];
      RiskLevelIsMaxSeverity(rest);
      assert forall i :: 1 <= i < |anomalies| ==> anomalies[i] == rest[i - 1];
      assert forall i :: 0 <= i < |rest| ==> rest[i] == anomalies[i + 1];
    }
  }

  /** Every anomaly's severity is at most the report's risk level, and some
      anomaly reaches it unless the risk level is LOW. */
  lemma RiskLevelBounds(anomalies: seq<Anomaly>)
    ensures forall i :: 0 <= i < |anomalies| ==> Rank(anomalies[i].severity) <= Rank(RiskLevelOf(anomalies))
    ensures RiskLevelOf(anomalies) != Low ==>
              exists i :: 0 <= i < |anomalies| && anomalies[i].severity == RiskLevelOf(anomalies)
  {
  }

  /** `detect_anomalies` for a resource: the MOAS check and the unusual-path
      check each run their own path analysis (two separate fetches of the
      looking glass), the RPKI check its own validation; the findings are
      concatenated in that order and the risk level is their maximum. Each
      of `moasAnalysis` and `pathAnalysis` is what `AnalyzePaths` returns
      for `resource` on its own fetch, `EmptyPathAnalysis(resource)` when
      that fetch failed or held no path (`EmptyAnalysisQuiet`). */
  method DetectAnomalies(resource: string, moasAnalysis: PathAnalysis,
                         validation: Option<RipestatModels.RpkiValidation>,
                         pathAnalysis: PathAnalysis) returns (report: AnomalyReport)
    ensures report.resource == resource
    ensures var head := CheckMoas(resource, moasAnalysis) + CheckRpki(resource, validation);
            |head| <= |report.anomalies| && report.anomalies[..|head|] == head
            && UnusualPathAnomalies(resource, pathAnalysis, report.anomalies[|head|..])
    ensures report.riskLevel == MaxSeverity(report.anomalies)
  {
    var anomalies: seq<Anomaly> := [];
    anomalies := anomalies + CheckMoas(resource, moasAnalysis);
    anomalies := anomalies + CheckRpki(resource, validation);
    ghost var head := anomalies;
    var unusual := CheckUnusualPaths(resource, pathAnalysis);
    anomalies := anomalies + unusual;
    assert anomalies[..|head|] == head && anomalies[|head|..] == unusual;
    report := AnomalyReport(resource, anomalies, RiskLevelOf(anomalies));
    RiskLevelIsMaxSeverity(anomalies);
  }

  /** When a fetch yields no path, its analysis raises neither a MOAS nor
      an unusual-path anomaly: only the RPKI check can then report. */
  lemma EmptyAnalysisQuiet(resource: string, unusual: seq<Anomaly>)
    requires UnusualPathAnomalies(resource, EmptyPathAnalysis(resource), unusual)
    ensures CheckMoas(resource, EmptyPathAnalysis(resource)) == []
    ensures unusual == []
  {
    assert FirstHeavilyPrepended(EmptyPathAnalysis(resource).uniquePaths).None?;
  }

  /** A report whose risk level is the maximum severity of its anomalies
      (as `DetectAnomalies` builds it) counts a critical anomaly exactly when
      it is CRITICAL, and is LOW when it counts no anomaly at all. */
  lemma ReportCounts(r: AnomalyReport)
    requires r.riskLevel == MaxSeverity(r.anomalies)
    ensures CriticalCount(r) > 0 <==> r.riskLevel == CriticalRisk
    ensures AnomalyCount(r) == 0 ==> r.riskLevel == Low
  {
    RiskLevelIsMaxSeverity(r.anomalies);
    RiskLevelBounds(r.anomalies);
  }

  /** A report built from a resource alone is consistent in the same way:
      no anomaly, none critical, risk LOW. */
  lemma FreshReportConsistent(resource: string)
    ensures NewAnomalyReport(resource).riskLevel == MaxSeverity(NewAnomalyReport(resource).anomalies)
    ensures AnomalyCount(NewAnomalyReport(resource)) == 0 && CriticalCount(NewAnomalyReport(resource)) == 0
  {
  }

  /** Among the snapshot checks only RPKI raises CRITICAL findings, so a
      report is CRITICAL exactly when the prefix is RPKI-invalid. */
  lemma CriticalIffRpkiInvalid(resource: string, moasAnalysis: PathAnalysis,
                               validation: Option<RipestatModels.RpkiValidation>,
                               pathAnalysis: PathAnalysis, unusual: seq<Anomaly>)
    requires UnusualPathAnomalies(resource, pathAnalysis, unusual)
    ensures RiskLevelOf(CheckMoas(resource, moasAnalysis) + CheckRpki(resource, validation) + unusual) == CriticalRisk
            <==> CheckRpki(resource, validation) != []
  {
    UnusualPathShape(resource, pathAnalysis, unusual);
    var m, v := CheckMoas(resource, moasAnalysis), CheckRpki(resource, validation);
    var all := m + v + unusual;
    if v != [] {
      assert all[|m|] == v[0];
    } else {
      forall i | 0 <= i < |all| ensures all[i].severity != CriticalRisk {
        if i < |m| { assert all[i] == m[i]; } else { assert all[i] == unusual[i - |m|]; }
      }
    }
  }
}
