/** Historical BGP replay: update-path parsing and filtering, the two-pass
    anomaly detector over an event list, and incident investigation. */
module BgpStream {
  import opened Wrappers
  import Text
  import Seqs
  import Paths

  // ---- events ----

  /** `BGPEvent`; the timestamp is in whole seconds. */
  datatype BgpEvent = BgpEvent(timestamp: int, eventType: string, prefix: string, asPath: seq<int>,
                               originAsn: Option<int>, collector: string, peerAsn: Option<int>)

  /** `BGPEvent.is_announcement` */
  predicate IsAnnouncement(e: BgpEvent) { e.eventType == "A" }

  /** `BGPEvent.is_withdrawal` */
  predicate IsWithdrawal(e: BgpEvent) { e.eventType == "W" }

  /** No event is both; a state message (neither "A" nor "W") is neither. */
  lemma AnnouncementOrWithdrawal(e: BgpEvent)
    ensures !(IsAnnouncement(e) && IsWithdrawal(e))
    ensures e.eventType !in {"A", "W"} ==> !IsAnnouncement(e) && !IsWithdrawal(e)
  {
  }

  /** Python truthiness of an optional integer. */
  predicate Truthy(x: Option<int>) { x.Some? && x.value != 0 }

  /** Python truthiness of an optional string. */
  predicate HasText(s: Option<string>) { s.Some? && s.value != "" }

  // ---- get_updates: path parsing and filters ----

  /** The values of tokens that all parse. */
  function ParseAll(tokens: seq<string>): Option<seq<int>> {
    Seqs.AllSome(tokens, Text.ParseInt)
  }

  /** The update's AS path: every whitespace token as an integer, or the
      empty path as soon as one token (an AS_SET, say) does not parse. */
  function ParseUpdatePath(asPathStr: string): (path: seq<int>)
    ensures path != [] ==> |path| == |Text.Words(asPathStr)|
  {
    if asPathStr == "" then []
    else match ParseAll(Text.Words(asPathStr))
      case Some(p) => ParseAllValues(Text.Words(asPathStr)); p
      case None => []
  }

  /** Where every token is a plain integer, the all-or-nothing parser of the
      update stream and the skipping parser of path analysis agree; they
      differ only on paths with AS_SETs or junk tokens. */
  lemma {:induction false} ParsersAgreeOnPlainPaths(tokens: seq<string>)
    requires forall i :: 0 <= i < |tokens| ==> Text.ParseInt(tokens[i]).Some? && !Paths.IsAsSet(tokens[i])
    ensures ParseAll(tokens) == Some(Paths.TokenAsns(tokens))
  {
    if tokens != [] {
      var init := tokens[..|tokens| - 1];
      var t := tokens[|tokens| - 1];
      ParsersAgreeOnPlainPaths(init);
      Seqs.AllSomeSnoc(init, t, Text.ParseInt);
      assert init + [t] == tokens;
      Paths.TokenAsnsSnoc(tokens, |tokens| - 1);
      assert tokens[..|tokens|] == tokens;
    }
  }

  /** The all-or-nothing parse succeeds exactly when every token parses. */
  lemma ParseAllAccepts(tokens: seq<string>)
    ensures ParseAll(tokens).Some? <==> forall i :: 0 <= i < |tokens| ==> Text.ParseInt(tokens[i]).Some?
  {
    Seqs.AllSomeAccepts(tokens, Text.ParseInt);
  }

  /** A successful all-or-nothing parse yields each token's value in order. */
  lemma ParseAllValues(tokens: seq<string>)
    requires ParseAll(tokens).Some?
    ensures |ParseAll(tokens).value| == |tokens|
    ensures forall i :: 0 <= i < |tokens| ==> Text.ParseInt(tokens[i]) == Some(ParseAll(tokens).value[i])
  {
    Seqs.AllSomeValues(tokens, Text.ParseInt);
  }

  /** The origin of an update: the last AS of its path, if any. */
  function UpdateOrigin(path: seq<int>): (o: Option<int>)
    ensures o.Some? <==> path != []
    ensures o.Some? ==> o.value == path[|path| - 1]
  {
    if path == [] then None else Some(path[|path| - 1])
  }

  /** A raw stream element: its prefix, AS-path text, message type, time and peer. */
  datatype StreamElem = StreamElem(time: int, elemType: string, prefix: string, asPathStr: string,
                                   collector: string, peerAsn: Option<int>)

  /** The events of the stream elements, in order. */
  function Events(elems: seq<StreamElem>): (evs: seq<BgpEvent>)
    ensures |evs| == |elems|
    ensures forall i :: 0 <= i < |elems| ==> evs[i] == ToEvent(elems[i])
  {
    seq(|elems|, i requires 0 <= i < |elems| => ToEvent(elems[i]))
  }

  /** The two optional filters of `get_updates`: the element's prefix must
      start with the text before the filter's "/", and its origin must equal
      a non-zero origin filter. */
  predicate PassesFilters(prefixText: string, origin: Option<int>, prefix: Option<string>, originAsn: Option<int>) {
    && (HasText(prefix) ==> Text.StartsWith(prefixText, Text.Split(prefix.value, '/')[0]))
    && (Truthy(originAsn) ==> origin == originAsn)
  }

  function ToEvent(el: StreamElem): BgpEvent {
    var path := ParseUpdatePath(el.asPathStr);
    BgpEvent(el.time, el.elemType, el.prefix, path, UpdateOrigin(path), el.collector, el.peerAsn)
  }

  function Kept(prefix: Option<string>, originAsn: Option<int>): BgpEvent -> bool {
    (e: BgpEvent) => PassesFilters(e.prefix, e.originAsn, prefix, originAsn)
  }

  /** The event of one stream element: its AS path parsed all-or-nothing
      (an absent path text gives the empty path) and the origin taken from
      the path's last AS. */
  method ElemToEvent(el: StreamElem) returns (e: BgpEvent)
    ensures e == ToEvent(el)
  {
    var path: seq<int> := [];
    if el.asPathStr != "" {
      path := ParseUpdatePath(el.asPathStr);
    }
    var origin := if path != [] then Some(path[|path| - 1]) else None;
    e := BgpEvent(el.time, el.elemType, el.prefix, path, origin, el.collector, el.peerAsn);
  }

  /** The element loop of `get_updates` over the elements the stream
      delivers: each element is turned into an event and kept when it passes
      both filters, in stream order. */
  method GetUpdates(elems: seq<StreamElem>, prefix: Option<string>, originAsn: Option<int>)
    returns (events: seq<BgpEvent>)
    ensures events == Seqs.Filter(Events(elems), Kept(prefix, originAsn))
    ensures Truthy(originAsn) ==> forall i :: 0 <= i < |events| ==> events[i].originAsn == originAsn
  {
    ghost var all := Events(elems);
    events := [];
    for i := 0 to |elems|
      invariant events == Seqs.Filter(all[..i], Kept(prefix, originAsn))
    {
      var e := ElemToEvent(elems[i]);
      var keep := true;
      if HasText(prefix) && !Text.StartsWith(e.prefix, Text.Split(prefix.value, '/')[0]) {
        keep := false;
      }
      if Truthy(originAsn) && e.originAsn != originAsn {
        keep := false;
      }
      assert keep == Kept(prefix, originAsn)(e);
      Seqs.FilterSnoc(all, i, Kept(prefix, originAsn));
      if keep {
        events := events + [e];
      }
    }
    assert all[..|elems|] == all;
  }

  // ---- detection results ----

  datatype DetectionKind = MoreSpecific | Leak | Hijack | PathLeak | OriginChange

  /** The `evidence` dictionary, by the keys each kind of detection fills. */
  datatype Evidence =
    | PathAndOrigin(asPath: seq<int>, origin: Option<int>)
    | PathAndLeaker(asPath: seq<int>, leaker: int)
    | PathExpectedActual(asPath: seq<int>, expected: int, actual: int)
    | PathAndBaseline(asPath: seq<int>, baselinePath: seq<int>, suspiciousAs: int)
    | SeenOrigins(origins: seq<int>)

  /** `AnomalyDetection`; the description text is left out. */
  datatype Detection = Detection(kind: DetectionKind, timestamp: int, prefix: string, evidence: Evidence, severity: string)

  // ---- the mask tests of the more-specific check ----

  /** `int(expected_prefix.split("/")[1])`; `None` when there is no "/" or
      the mask does not parse (the source raises). */
  function ExpectedMask(expectedPrefix: string): Option<int> {
    var parts := Text.Split(expectedPrefix, '/');
    if |parts| < 2 then None else Text.ParseInt(parts[1])
  }

  /** `int(prefix.split("/")[1]) if "/" in prefix else 32`. */
  function ActualMask(prefix: string): Option<int> {
    if '/' in prefix then
      Text.SplitAtSeparator(prefix, '/');
      Text.ParseInt(Text.Split(prefix, '/')[1])
    else Some(32)
  }

  /** An announcement on which the more-specific test raises: an expected
      prefix is given and one of the two masks does not parse. */
  predicate RaisesAt(e: BgpEvent, expectedPrefix: Option<string>) {
    IsAnnouncement(e) && HasText(expectedPrefix)
    && (ExpectedMask(expectedPrefix.value).None? || ActualMask(e.prefix).None?)
  }

  /** The more-specific test on an event whose masks parse: a longer mask,
      and a prefix text that starts with the expected network text. */
  predicate MoreSpecificFires(e: BgpEvent, expectedPrefix: string) {
    && ExpectedMask(expectedPrefix).Some? && ActualMask(e.prefix).Some?
    && ActualMask(e.prefix).value > ExpectedMask(expectedPrefix).value
    && Text.StartsWith(e.prefix, Text.Split(expectedPrefix, '/')[0])
  }

  /** What one event contributes to the more-specific findings. */
  function MoreSpecificOne(e: BgpEvent, expectedPrefix: Option<string>): seq<Detection> {
    if IsAnnouncement(e) && HasText(expectedPrefix) && MoreSpecificFires(e, expectedPrefix.value)
    then [Detection(MoreSpecific, e.timestamp, e.prefix, PathAndOrigin(e.asPath, e.originAsn), "critical")]
    else []
  }

  /** The more-specific findings of a run, in event order. */
  function MoreSpecificOf(events: seq<BgpEvent>, expectedPrefix: Option<string>): seq<Detection> {
    if events == [] then []
    else MoreSpecificOf(events[..|events| - 1], expectedPrefix) + MoreSpecificOne(events[|events| - 1], expectedPrefix)
  }

  /** What one event contributes to the origin-mismatch findings: an
      announcement from a non-zero origin other than the non-zero expected
      one is a leak (HIGH) when the expected origin is still on the path,
      and a hijack (CRITICAL) otherwise. */
  function MismatchOne(e: BgpEvent, expectedOrigin: Option<int>): seq<Detection> {
    if IsAnnouncement(e) && Truthy(expectedOrigin) && Truthy(e.originAsn) && e.originAsn != expectedOrigin then
      if expectedOrigin.value in e.asPath
      then [Detection(Leak, e.timestamp, e.prefix, PathAndLeaker(e.asPath, e.originAsn.value), "high")]
      else [Detection(Hijack, e.timestamp, e.prefix,
                      PathExpectedActual(e.asPath, expectedOrigin.value, e.originAsn.value), "critical")]
    else []
  }

  /** The leak and hijack findings of a run, in event order. */
  function MismatchOf(events: seq<BgpEvent>, expectedOrigin: Option<int>): seq<Detection> {
    if events == [] then []
    else MismatchOf(events[..|events| - 1], expectedOrigin) + MismatchOne(events[|events| - 1], expectedOrigin)
  }

  /** Exactly one of leak and hijack is reported for a mismatching
      announcement, and only then. */
  lemma LeakOrHijack(e: BgpEvent, expectedOrigin: Option<int>)
    requires IsAnnouncement(e) && Truthy(expectedOrigin)
    ensures |MismatchOne(e, expectedOrigin)| == (if Truthy(e.originAsn) && e.originAsn != expectedOrigin then 1 else 0)
    ensures MismatchOne(e, expectedOrigin) != [] ==>
              (MismatchOne(e, expectedOrigin)[0].kind == Leak <==> expectedOrigin.value in e.asPath)
  {
  }

  // ---- the baseline and the path-leak test ----

  /** The first pass: the AS path of every announcement with a non-empty
      path of at most three hops. */
  function Baseline(events: seq<BgpEvent>): set<seq<int>> {
    set i | 0 <= i < |events| && IsAnnouncement(events[i]) && events[i].asPath != [] && |events[i].asPath| <= 3
      :: events[i].asPath
  }

  /** The baseline loop of `detect_anomalies`. */
  method BuildBaseline(events: seq<BgpEvent>) returns (baseline: set<seq<int>>)
    ensures baseline == Baseline(events)
    ensures forall b :: b in baseline ==> b != [] && |b| <= 3
  {
    baseline := {};
    for i := 0 to |events|
      invariant baseline == Baseline(events[..i])
    {
      assert forall k :: 0 <= k < i ==> events[..i + 1][k] == events[..i][k];
      if IsAnnouncement(events[i]) && events[i].asPath != [] {
        if |events[i].asPath| <= 3 {
          baseline := baseline + {events[i].asPath};
        }
      }
      assert Baseline(events[..i + 1]) == baseline by {
        var evs := events[..i + 1];
        forall b | b in Baseline(evs) ensures b in baseline {
          var k :| 0 <= k < |evs| && IsAnnouncement(evs[k]) && evs[k].asPath != [] && |evs[k].asPath| <= 3 && evs[k].asPath == b;
          if k < i { assert events[..i][k] == evs[k]; }
        }
        forall b | b in baseline ensures b in Baseline(evs) {
          if b in Baseline(events[..i]) {
            var k :| 0 <= k < i && IsAnnouncement(events[..i][k]) && events[..i][k].asPath != []
                     && |events[..i][k].asPath| <= 3 && events[..i][k].asPath == b;
            assert evs[k] == events[..i][k];
          } else {
            assert evs[i] == events[i];
          }
        }
      }
    }
    assert events[..|events|] == events;
  }

  /** A baseline path that vouches for an event's endpoints: at most two
      hops, same first AS and same last AS. */
  predicate Vouches(b: seq<int>, path: seq<int>) {
    b != [] && path != [] && |b| <= 2 && path[0] == b[0] && path[|path| - 1] == b[|b| - 1]
  }

  /** An announcement from the expected (non-zero) origin over more than two
      hops whose endpoints some short baseline path vouches for. */
  predicate PathLeakApplies(e: BgpEvent, baseline: set<seq<int>>, expectedOrigin: Option<int>) {
    && IsAnnouncement(e) && Truthy(expectedOrigin) && e.originAsn == expectedOrigin && |e.asPath| > 2
    && exists b :: b in baseline && Vouches(b, e.asPath)
  }

  /** Every AS a run flags as injected: the transit ASes of the events the
      path-leak test applies to. */
  function InjectedOf(events: seq<BgpEvent>, baseline: set<seq<int>>, expectedOrigin: Option<int>): set<int> {
    if events == [] then {}
    else InjectedOf(events[..|events| - 1], baseline, expectedOrigin) + InjectedOfOne(events[|events| - 1], baseline, expectedOrigin)
  }

  function InjectedOfOne(e: BgpEvent, baseline: set<seq<int>>, expectedOrigin: Option<int>): set<int> {
    if PathLeakApplies(e, baseline, expectedOrigin) then Paths.Interior(e.asPath) else {}
  }

  /** The ASes already flagged by the path-leak detections among `ds`. */
  function Flagged(ds: seq<Detection>): set<int> {
    set i | 0 <= i < |ds| && ds[i].kind == PathLeak && ds[i].evidence.PathAndBaseline? :: ds[i].evidence.suspiciousAs
  }

  predicate IsPathLeak(d: Detection) { d.kind == PathLeak && d.evidence.PathAndBaseline? }

  predicate IsMoreSpecificDetection(d: Detection) { d.kind == MoreSpecific }

  predicate IsMismatchDetection(d: Detection) { d.kind == Leak || d.kind == Hijack }

  predicate IsOriginChange(d: Detection) { d.kind == OriginChange }

  /** No AS is flagged as injected twice. */
  predicate FlaggedOnce(ds: seq<Detection>) {
    forall i, j :: 0 <= i < j < |ds| && IsPathLeak(ds[i]) && IsPathLeak(ds[j]) ==>
      ds[i].evidence.suspiciousAs != ds[j].evidence.suspiciousAs
  }

  /** A path-leak detection raised by announcement `e`: the test applies to
      `e`, the detection carries `e`'s time, prefix and path, a vouching
      baseline path and one of `e`'s transit ASes, at HIGH severity. */
  predicate PathLeakFrom(d: Detection, e: BgpEvent, baseline: set<seq<int>>, expectedOrigin: Option<int>) {
    && PathLeakApplies(e, baseline, expectedOrigin)
    && d.evidence.PathAndBaseline?
    && d == Detection(PathLeak, e.timestamp, e.prefix,
                      PathAndBaseline(e.asPath, d.evidence.baselinePath, d.evidence.suspiciousAs), "high")
    && d.evidence.baselinePath in baseline && Vouches(d.evidence.baselinePath, e.asPath)
    && d.evidence.suspiciousAs in Paths.Interior(e.asPath)
  }

  /** `t` is the time of one of the first `i` events. */
  ghost predicate TimeOfSome(events: seq<BgpEvent>, i: int, t: int) {
    exists j :: 0 <= j < i && j < |events| && t == events[j].timestamp
  }

  /** The non-zero origins the announcements of a run came from. */
  function OriginsOf(events: seq<BgpEvent>): set<int> {
    if events == [] then {}
    else OriginsOf(events[..|events| - 1]) + OriginsOfOne(events[|events| - 1])
  }

  function OriginsOfOne(e: BgpEvent): set<int> {
    if IsAnnouncement(e) && Truthy(e.originAsn) then {e.originAsn.value} else {}
  }

  // ---- one announcement ----

  /** The more-specific test on one announcement; `failed` when the source
      raises on a mask that does not parse. */
  method MoreSpecificStep(e: BgpEvent, expectedPrefix: Option<string>) returns (failed: bool, found: seq<Detection>)
    requires IsAnnouncement(e)
    ensures failed <==> RaisesAt(e, expectedPrefix)
    ensures !failed ==> found == MoreSpecificOne(e, expectedPrefix)
  {
    found := [];
    failed := false;
    if HasText(expectedPrefix) {
      var expectedLen := ExpectedMask(expectedPrefix.value);
      var actualLen := ActualMask(e.prefix);
      if expectedLen.None? || actualLen.None? {
        failed := true;
        return;
      }
      if actualLen.value > expectedLen.value && Text.StartsWith(e.prefix, Text.Split(expectedPrefix.value, '/')[0]) {
        found := [Detection(MoreSpecific, e.timestamp, e.prefix, PathAndOrigin(e.asPath, e.originAsn), "critical")];
      }
    }
  }

  /** Every detection in `leaks` reports one AS of `within` as injected into
      `e`'s path, against baseline path `b`, at HIGH severity. */
  predicate LeaksAgainst(leaks: seq<Detection>, e: BgpEvent, b: seq<int>, within: set<int>) {
    forall d :: d in leaks ==>
      d.evidence.PathAndBaseline? && d.evidence.suspiciousAs in within
      && d == Detection(PathLeak, e.timestamp, e.prefix, PathAndBaseline(e.asPath, b, d.evidence.suspiciousAs), "high")
  }

  lemma LeaksAgainstSnoc(leaks: seq<Detection>, d: Detection, e: BgpEvent, b: seq<int>, within: set<int>)
    requires LeaksAgainst(leaks, e, b, within)
    requires d.evidence.PathAndBaseline? && d.evidence.suspiciousAs in within
    requires d == Detection(PathLeak, e.timestamp, e.prefix, PathAndBaseline(e.asPath, b, d.evidence.suspiciousAs), "high")
    ensures LeaksAgainst(leaks + [d], e, b, within)
  {
  }

  /** For each AS of `intermediate` not yet flagged, in unspecified (set)
      order: flag it and report it against baseline path `b`. */
  method FlagIntermediate(e: BgpEvent, b: seq<int>, intermediate: set<int>, suspicious: set<int>)
    returns (leaks: seq<Detection>, flagged: set<int>)
    ensures flagged == suspicious + intermediate
    ensures Flagged(leaks) == intermediate - suspicious
    ensures FlaggedOnce(leaks)
    ensures LeaksAgainst(leaks, e, b, intermediate)
  {
    var order := Seqs.SetToSeq(intermediate);
    leaks := [];
    flagged := suspicious;
    for k := 0 to |order|
      invariant flagged == suspicious + set x | x in order[..k]
      invariant Flagged(leaks) == flagged - suspicious
      invariant FlaggedOnce(leaks)
      invariant LeaksAgainst(leaks, e, b, intermediate)
    {
      assert order[..k + 1] == order[..k] + [order[k]];
      var asn := order[k];
      if asn !in flagged {
        var d := Detection(PathLeak, e.timestamp, e.prefix, PathAndBaseline(e.asPath, b, asn), "high");
        flagged := flagged + {asn};
        FlaggedSnoc(leaks, d);
        FlaggedOnceSnoc(leaks, d);
        LeaksAgainstSnoc(leaks, d, e, b, intermediate);
        leaks := leaks + [d];
      }
    }
    assert order[..|order|] == order;
  }

  /** Reporting an AS not yet flagged keeps every AS flagged at most once. */
  lemma FlaggedOnceSnoc(ds: seq<Detection>, d: Detection)
    requires FlaggedOnce(ds) && IsPathLeak(d) && d.evidence.suspiciousAs !in Flagged(ds)
    ensures FlaggedOnce(ds + [d])
  {
    var t := ds + [d];
    forall i | 0 <= i < |ds| && IsPathLeak(t[i])
      ensures t[i].evidence.suspiciousAs != d.evidence.suspiciousAs
    {
      assert t[i] == ds[i];
      assert ds[i].evidence.suspiciousAs in Flagged(ds);
    }
    assert forall i :: 0 <= i < |ds| ==> t[i] == ds[i];
  }

  lemma FlaggedSnoc(ds: seq<Detection>, d: Detection)
    ensures IsPathLeak(d) ==> Flagged(ds + [d]) == Flagged(ds) + {d.evidence.suspiciousAs}
    ensures !IsPathLeak(d) ==> Flagged(ds + [d]) == Flagged(ds)
  {
    var t := ds + [d];
    forall x | x in Flagged(t) ensures x in Flagged(ds) || (IsPathLeak(d) && x == d.evidence.suspiciousAs) {
      var i :| 0 <= i < |t| && t[i].kind == PathLeak && t[i].evidence.PathAndBaseline? && t[i].evidence.suspiciousAs == x;
      if i < |ds| { assert t[i] == ds[i]; }
    }
    forall x | x in Flagged(ds) ensures x in Flagged(t) {
      var i :| 0 <= i < |ds| && ds[i].kind == PathLeak && ds[i].evidence.PathAndBaseline? && ds[i].evidence.suspiciousAs == x;
      assert t[i] == ds[i];
    }
    if IsPathLeak(d) {
      assert t[|ds|] == d;
    }
  }

  /** Every path-leak finding among `ds` names the same baseline path. */
  predicate SameBaseline(ds: seq<Detection>) {
    forall d, d' :: d in ds && d' in ds && IsPathLeak(d) && IsPathLeak(d') ==>
      d.evidence.baselinePath == d'.evidence.baselinePath
  }

  /** The path-leak test on one announcement: the first baseline path, in
      unspecified (set) order, that vouches for its endpoints decides, and
      every transit AS not flagged before is flagged and reported. */
  method PathLeakStep(e: BgpEvent, baseline: set<seq<int>>, suspicious: set<int>, expectedOrigin: Option<int>)
    returns (leaks: seq<Detection>, flagged: set<int>)
    requires IsAnnouncement(e)
    ensures PathLeakApplies(e, baseline, expectedOrigin) ==> flagged == suspicious + Paths.Interior(e.asPath)
    ensures !PathLeakApplies(e, baseline, expectedOrigin) ==> flagged == suspicious
    ensures Flagged(leaks) == flagged - suspicious
    ensures FlaggedOnce(leaks)
    ensures forall d :: d in leaks ==> IsPathLeak(d) && PathLeakFrom(d, e, baseline, expectedOrigin)
    ensures !PathLeakApplies(e, baseline, expectedOrigin) ==> leaks == []
    ensures SameBaseline(leaks)
  {
    leaks := [];
    flagged := suspicious;
    if Truthy(expectedOrigin) && e.originAsn == expectedOrigin && |e.asPath| > 2 {
      var intermediate := Paths.Interior(e.asPath);
      var order := Seqs.SetToSeq(baseline);
      var j := 0;
      while j < |order| && !Vouches(order[j], e.asPath)
        invariant 0 <= j <= |order|
        invariant forall k :: 0 <= k < j ==> !Vouches(order[k], e.asPath)
      {
        j := j + 1;
      }
      if j < |order| {
        leaks, flagged := FlagIntermediate(e, order[j], intermediate, suspicious);
        assert PathLeakApplies(e, baseline, expectedOrigin);
        assert forall d :: d in leaks ==> d.evidence.baselinePath == order[j];
      } else {
        assert forall b :: b in baseline ==> !Vouches(b, e.asPath) by {
          forall b | b in baseline ensures !Vouches(b, e.asPath) {
            var k :| 0 <= k < |order| && order[k] == b;
          }
        }
      }
    }
  }

  lemma FlaggedAppend(a: seq<Detection>, b: seq<Detection>)
    ensures Flagged(a + b) == Flagged(a) + Flagged(b)
  {
    var t := a + b;
    forall x | x in Flagged(t) ensures x in Flagged(a) || x in Flagged(b) {
      var i :| 0 <= i < |t| && t[i].kind == PathLeak && t[i].evidence.PathAndBaseline? && t[i].evidence.suspiciousAs == x;
      if i < |a| { assert t[i] == a[i]; } else { assert t[i] == b[i - |a|]; }
    }
    forall x | x in Flagged(a) ensures x in Flagged(t) {
      var i :| 0 <= i < |a| && a[i].kind == PathLeak && a[i].evidence.PathAndBaseline? && a[i].evidence.suspiciousAs == x;
      assert t[i] == a[i];
    }
    forall x | x in Flagged(b) ensures x in Flagged(t) {
      var i :| 0 <= i < |b| && b[i].kind == PathLeak && b[i].evidence.PathAndBaseline? && b[i].evidence.suspiciousAs == x;
      assert t[|a| + i] == b[i];
    }
  }

  lemma FlaggedOnceAppend(a: seq<Detection>, b: seq<Detection>)
    requires FlaggedOnce(a) && FlaggedOnce(b) && Flagged(a) !! Flagged(b)
    ensures FlaggedOnce(a + b)
  {
    var t := a + b;
    forall i, j | 0 <= i < j < |t| && IsPathLeak(t[i]) && IsPathLeak(t[j])
      ensures t[i].evidence.suspiciousAs != t[j].evidence.suspiciousAs
    {
      if j < |a| {
        assert t[i] == a[i] && t[j] == a[j];
      } else if i >= |a| {
        assert t[i] == b[i - |a|] && t[j] == b[j - |a|];
      } else {
        assert t[i] == a[i] && t[j] == b[j - |a|];
        assert t[i].evidence.suspiciousAs in Flagged(a);
        assert t[j].evidence.suspiciousAs in Flagged(b);
      }
    }
  }

  /** Detections without path leaks flag nothing. */
  lemma NoPathLeaks(ds: seq<Detection>)
    requires forall i :: 0 <= i < |ds| ==> !IsPathLeak(ds[i])
    ensures Flagged(ds) == {} && FlaggedOnce(ds)
  {
  }

  // ---- the second pass ----

  /** The findings so far, by kind: more-specific and mismatch
      findings exactly as their specifications list them, and no
      origin-change finding yet. */
  ghost predicate KindsUpTo(events: seq<BgpEvent>, i: int, expectedOrigin: Option<int>, expectedPrefix: Option<string>,
                            acc: seq<Detection>)
    requires 0 <= i <= |events|
  {
    && Seqs.Filter(acc, IsMoreSpecificDetection) == MoreSpecificOf(events[..i], expectedPrefix)
    && Seqs.Filter(acc, IsMismatchDetection) == MismatchOf(events[..i], expectedOrigin)
  }

  /** Every finding so far is not an origin change, carries path-leak
      evidence when it is a path leak, and was raised by an event seen so far. */
  ghost predicate ProvenanceUpTo(events: seq<BgpEvent>, i: int, baseline: set<seq<int>>, expectedOrigin: Option<int>,
                                 acc: seq<Detection>)
    requires 0 <= i <= |events|
  {
    forall k :: 0 <= k < |acc| ==>
      && !IsOriginChange(acc[k])
      && (acc[k].kind == PathLeak ==> IsPathLeak(acc[k]))
      && (IsPathLeak(acc[k]) ==> exists j :: 0 <= j < i && PathLeakFrom(acc[k], events[j], baseline, expectedOrigin))
      && TimeOfSome(events, i, acc[k].timestamp)
  }

  /** The flagged set is the transit ASes of the events seen so far, each
      reported once. */
  ghost predicate FlagsUpTo(events: seq<BgpEvent>, i: int, baseline: set<seq<int>>, expectedOrigin: Option<int>,
                            acc: seq<Detection>, suspicious: set<int>)
    requires 0 <= i <= |events|
  {
    && suspicious == InjectedOf(events[..i], baseline, expectedOrigin)
    && Flagged(acc) == suspicious
    && FlaggedOnce(acc)
  }

  lemma ProvenanceWiden(events: seq<BgpEvent>, i: int, baseline: set<seq<int>>, expectedOrigin: Option<int>,
                        acc: seq<Detection>)
    requires 0 <= i < |events|
    requires ProvenanceUpTo(events, i, baseline, expectedOrigin, acc)
    ensures ProvenanceUpTo(events, i + 1, baseline, expectedOrigin, acc)
  {
    forall k | 0 <= k < |acc|
      ensures IsPathLeak(acc[k]) ==> exists j :: 0 <= j < i + 1 && PathLeakFrom(acc[k], events[j], baseline, expectedOrigin)
      ensures TimeOfSome(events, i + 1, acc[k].timestamp)
    {
      var j :| 0 <= j < i && j < |events| && acc[k].timestamp == events[j].timestamp;
      if IsPathLeak(acc[k]) {
        var j' :| 0 <= j' < i && PathLeakFrom(acc[k], events[j'], baseline, expectedOrigin);
      }
    }
  }

  lemma MoreSpecificOfAdded(ms: seq<Detection>, mm: seq<Detection>, leaks: seq<Detection>)
    requires forall d :: d in ms ==> d.kind == MoreSpecific
    requires forall d :: d in mm ==> d.kind == Leak || d.kind == Hijack
    requires forall d :: d in leaks ==> IsPathLeak(d)
    ensures Seqs.Filter(ms + mm + leaks, IsMoreSpecificDetection) == ms
  {
    Seqs.FilterAppend(ms, mm, IsMoreSpecificDetection);
    Seqs.FilterAppend(ms + mm, leaks, IsMoreSpecificDetection);
    forall k | 0 <= k < |ms| ensures IsMoreSpecificDetection(ms[k]) {
      assert ms[k] in ms;
    }
    forall k | 0 <= k < |mm| ensures !IsMoreSpecificDetection(mm[k]) {
      assert mm[k] in mm;
    }
    forall k | 0 <= k < |leaks| ensures !IsMoreSpecificDetection(leaks[k]) {
      assert leaks[k] in leaks;
    }
    Seqs.FilterAll(ms, IsMoreSpecificDetection);
    Seqs.FilterNone(mm, IsMoreSpecificDetection);
    Seqs.FilterNone(leaks, IsMoreSpecificDetection);
    assert ms + [] + [] == ms;
  }

  lemma MismatchOfAdded(ms: seq<Detection>, mm: seq<Detection>, leaks: seq<Detection>)
    requires forall d :: d in ms ==> d.kind == MoreSpecific
    requires forall d :: d in mm ==> d.kind == Leak || d.kind == Hijack
    requires forall d :: d in leaks ==> IsPathLeak(d)
    ensures Seqs.Filter(ms + mm + leaks, IsMismatchDetection) == mm
  {
    Seqs.FilterAppend(ms, mm, IsMismatchDetection);
    Seqs.FilterAppend(ms + mm, leaks, IsMismatchDetection);
    forall k | 0 <= k < |ms| ensures !IsMismatchDetection(ms[k]) {
      assert ms[k] in ms;
    }
    forall k | 0 <= k < |mm| ensures IsMismatchDetection(mm[k]) {
      assert mm[k] in mm;
    }
    forall k | 0 <= k < |leaks| ensures !IsMismatchDetection(leaks[k]) {
      assert leaks[k] in leaks;
    }
    Seqs.FilterNone(ms, IsMismatchDetection);
    Seqs.FilterAll(mm, IsMismatchDetection);
    Seqs.FilterNone(leaks, IsMismatchDetection);
    assert [] + mm + [] == mm;
  }

  lemma KindsStep(events: seq<BgpEvent>, i: int, expectedOrigin: Option<int>, expectedPrefix: Option<string>,
                  acc: seq<Detection>, leaks: seq<Detection>)
    requires 0 <= i < |events|
    requires KindsUpTo(events, i, expectedOrigin, expectedPrefix, acc)
    requires forall d :: d in leaks ==> IsPathLeak(d)
    ensures KindsUpTo(events, i + 1, expectedOrigin, expectedPrefix,
                      acc + (MoreSpecificOne(events[i], expectedPrefix) + MismatchOne(events[i], expectedOrigin) + leaks))
  {
    var ms := MoreSpecificOne(events[i], expectedPrefix);
    var mm := MismatchOne(events[i], expectedOrigin);
    var added := ms + mm + leaks;
    MoreSpecificOfSnoc(events, i, expectedPrefix);
    MismatchOfSnoc(events, i, expectedOrigin);
    MoreSpecificOfAdded(ms, mm, leaks);
    MismatchOfAdded(ms, mm, leaks);
    Seqs.FilterAppend(acc, added, IsMoreSpecificDetection);
    Seqs.FilterAppend(acc, added, IsMismatchDetection);
  }

  lemma MoreSpecificOfSnoc(events: seq<BgpEvent>, i: int, expectedPrefix: Option<string>)
    requires 0 <= i < |events|
    ensures MoreSpecificOf(events[..i + 1], expectedPrefix)
            == MoreSpecificOf(events[..i], expectedPrefix) + MoreSpecificOne(events[i], expectedPrefix)
    ensures forall d :: d in MoreSpecificOne(events[i], expectedPrefix) ==> d.kind == MoreSpecific
  {
    assert events[..i + 1][..i] == events[..i];
  }

  lemma MismatchOfSnoc(events: seq<BgpEvent>, i: int, expectedOrigin: Option<int>)
    requires 0 <= i < |events|
    ensures MismatchOf(events[..i + 1], expectedOrigin)
            == MismatchOf(events[..i], expectedOrigin) + MismatchOne(events[i], expectedOrigin)
    ensures forall d :: d in MismatchOne(events[i], expectedOrigin) ==> d.kind == Leak || d.kind == Hijack
  {
    assert events[..i + 1][..i] == events[..i];
  }

  lemma FlagsStep(events: seq<BgpEvent>, i: int, baseline: set<seq<int>>, expectedOrigin: Option<int>,
                  acc: seq<Detection>, suspicious: set<int>, ms: seq<Detection>, leaks: seq<Detection>, flagged: set<int>)
    requires 0 <= i < |events|
    requires FlagsUpTo(events, i, baseline, expectedOrigin, acc, suspicious)
    requires forall k :: 0 <= k < |ms| ==> !IsPathLeak(ms[k])
    requires PathLeakApplies(events[i], baseline, expectedOrigin) ==> flagged == suspicious + Paths.Interior(events[i].asPath)
    requires !PathLeakApplies(events[i], baseline, expectedOrigin) ==> flagged == suspicious
    requires Flagged(leaks) == flagged - suspicious
    requires FlaggedOnce(leaks)
    ensures FlagsUpTo(events, i + 1, baseline, expectedOrigin, acc + (ms + leaks), flagged)
  {
    assert events[..i + 1][..i] == events[..i];
    assert events[..i + 1][i] == events[i];
    NoPathLeaks(ms);
    FlaggedAppend(ms, leaks);
    FlaggedOnceAppend(ms, leaks);
    FlaggedAppend(acc, ms + leaks);
    FlaggedOnceAppend(acc, ms + leaks);
  }

  lemma ProvenanceStep(events: seq<BgpEvent>, i: int, baseline: set<seq<int>>, expectedOrigin: Option<int>,
                       acc: seq<Detection>, added: seq<Detection>)
    requires 0 <= i < |events|
    requires ProvenanceUpTo(events, i, baseline, expectedOrigin, acc)
    requires forall d :: d in added ==> d.timestamp == events[i].timestamp && !IsOriginChange(d)
                                        && (d.kind == PathLeak ==> IsPathLeak(d))
                                        && (IsPathLeak(d) ==> PathLeakFrom(d, events[i], baseline, expectedOrigin))
    ensures ProvenanceUpTo(events, i + 1, baseline, expectedOrigin, acc + added)
  {
    ProvenanceWiden(events, i, baseline, expectedOrigin, acc);
    var t := acc + added;
    forall k | 0 <= k < |t|
      ensures !IsOriginChange(t[k]) && (t[k].kind == PathLeak ==> IsPathLeak(t[k]))
      ensures IsPathLeak(t[k]) ==> exists j :: 0 <= j < i + 1 && PathLeakFrom(t[k], events[j], baseline, expectedOrigin)
      ensures TimeOfSome(events, i + 1, t[k].timestamp)
    {
      if k < |acc| {
        assert t[k] == acc[k];
      } else {
        assert t[k] == added[k - |acc|];
        assert t[k] in added;
        assert t[k].timestamp == events[i].timestamp;
        assert TimeOfSome(events, i + 1, t[k].timestamp);
      }
    }
  }

  /** An announcement's more-specific and mismatch findings carry its time
      and are not path leaks or origin changes. */
  lemma OwnFindings(e: BgpEvent, expectedOrigin: Option<int>, expectedPrefix: Option<string>)
    ensures forall d :: d in MoreSpecificOne(e, expectedPrefix) + MismatchOne(e, expectedOrigin) ==>
              d.timestamp == e.timestamp && (d.kind == MoreSpecific || d.kind == Leak || d.kind == Hijack)
  {
  }

  // ---- the findings of the second pass, event by event ----

  /** The path-leak findings of one announcement, exact up to the (set) order
      in which its transit ASes are visited and the choice of vouching
      baseline path: none when the test does not apply; otherwise one HIGH
      finding per transit AS not flagged by an earlier event, all against
      the same vouching baseline path and all carrying the announcement's time. */
  ghost predicate LeakBlock(e: BgpEvent, baseline: set<seq<int>>, expectedOrigin: Option<int>, suspicious: set<int>,
                            leaks: seq<Detection>)
  {
    && (!PathLeakApplies(e, baseline, expectedOrigin) ==> leaks == [])
    && (PathLeakApplies(e, baseline, expectedOrigin) ==> Flagged(leaks) == Paths.Interior(e.asPath) - suspicious)
    && FlaggedOnce(leaks)
    && SameBaseline(leaks)
    && (forall d :: d in leaks ==> IsPathLeak(d) && PathLeakFrom(d, e, baseline, expectedOrigin))
  }

  /** The findings one event adds in the second pass, in the order the source
      appends them: nothing for a withdrawal; for an announcement, its
      more-specific finding, then its leak or hijack finding, then its path
      leaks against the ASes `suspicious` already flagged. */
  ghost predicate StepFindings(e: BgpEvent, baseline: set<seq<int>>, expectedOrigin: Option<int>,
                               expectedPrefix: Option<string>, suspicious: set<int>, added: seq<Detection>)
  {
    if !IsAnnouncement(e) then added == []
    else
      var own := MoreSpecificOne(e, expectedPrefix) + MismatchOne(e, expectedOrigin);
      && |own| <= |added| && added[..|own|] == own
      && LeakBlock(e, baseline, expectedOrigin, suspicious, added[|own|..])
  }

  /** The findings of the first `i` events cut into one block per event, in
      event order: block `k` runs from `cuts[k]` to `cuts[k + 1]` and is what
      event `k` adds given the ASes the events before it flagged. */
  ghost predicate PassUpTo(events: seq<BgpEvent>, i: int, baseline: set<seq<int>>, expectedOrigin: Option<int>,
                           expectedPrefix: Option<string>, ds: seq<Detection>, cuts: seq<int>)
    requires 0 <= i <= |events|
  {
    && |cuts| == i + 1 && cuts[0] == 0 && cuts[i] <= |ds|
    && forall k :: 0 <= k < i ==> BlockOf(events, k, baseline, expectedOrigin, expectedPrefix, ds, cuts[k], cuts[k + 1], cuts[i])
  }

  /** Block `k` of a cut pass lies between `lo` and `hi` (both at most
      `end`) and is what event `k` adds. */
  ghost predicate BlockOf(events: seq<BgpEvent>, k: int, baseline: set<seq<int>>, expectedOrigin: Option<int>,
                          expectedPrefix: Option<string>, ds: seq<Detection>, lo: int, hi: int, end: int)
    requires 0 <= k < |events| && end <= |ds|
  {
    && 0 <= lo <= hi <= end
    && StepFindings(events[k], baseline, expectedOrigin, expectedPrefix,
                    InjectedOf(events[..k], baseline, expectedOrigin), ds[lo..hi])
  }

  /** An announcement's findings as `ReplayEvent` appends them form its block. */
  lemma AnnouncementBlock(e: BgpEvent, baseline: set<seq<int>>, expectedOrigin: Option<int>,
                          expectedPrefix: Option<string>, suspicious: set<int>, leaks: seq<Detection>)
    requires IsAnnouncement(e)
    requires LeakBlock(e, baseline, expectedOrigin, suspicious, leaks)
    ensures StepFindings(e, baseline, expectedOrigin, expectedPrefix, suspicious,
                         MoreSpecificOne(e, expectedPrefix) + MismatchOne(e, expectedOrigin) + leaks)
  {
    var own := MoreSpecificOne(e, expectedPrefix) + MismatchOne(e, expectedOrigin);
    assert (own + leaks)[..|own|] == own;
    assert (own + leaks)[|own|..] == leaks;
  }

  /** A block stays a block when findings are appended after it. */
  lemma BlockExtends(events: seq<BgpEvent>, k: int, baseline: set<seq<int>>, expectedOrigin: Option<int>,
                     expectedPrefix: Option<string>, ds: seq<Detection>, t: seq<Detection>, lo: int, hi: int,
                     end: int, end': int)
    requires 0 <= k < |events| && end <= |ds| <= |t| && t[..|ds|] == ds && end <= end' <= |t|
    requires BlockOf(events, k, baseline, expectedOrigin, expectedPrefix, ds, lo, hi, end)
    ensures BlockOf(events, k, baseline, expectedOrigin, expectedPrefix, t, lo, hi, end')
  {
    forall m | lo <= m < hi ensures t[m] == ds[m] {
      assert t[..|ds|][m] == t[m];
    }
    assert t[lo..hi] == ds[lo..hi];
  }

  /** Appending one event's block extends the cut. */
  lemma PassStep(events: seq<BgpEvent>, i: int, baseline: set<seq<int>>, expectedOrigin: Option<int>,
                 expectedPrefix: Option<string>, ds: seq<Detection>, cuts: seq<int>, t: seq<Detection>)
    requires 0 <= i < |events|
    requires PassUpTo(events, i, baseline, expectedOrigin, expectedPrefix, ds, cuts) && cuts[i] == |ds|
    requires |ds| <= |t| && t[..|ds|] == ds
    requires StepFindings(events[i], baseline, expectedOrigin, expectedPrefix,
                          InjectedOf(events[..i], baseline, expectedOrigin), t[|ds|..])
    ensures PassUpTo(events, i + 1, baseline, expectedOrigin, expectedPrefix, t, cuts + [|t|])
  {
    var added := t[|ds|..];
    var c := cuts + [|t|];
    forall k | 0 <= k < i + 1
      ensures BlockOf(events, k, baseline, expectedOrigin, expectedPrefix, t, c[k], c[k + 1], c[i + 1])
    {
      if k < i {
        assert BlockOf(events, k, baseline, expectedOrigin, expectedPrefix, ds, cuts[k], cuts[k + 1], cuts[i]);
        assert c[k] == cuts[k] && c[k + 1] == cuts[k + 1];
        BlockExtends(events, k, baseline, expectedOrigin, expectedPrefix, ds, t, cuts[k], cuts[k + 1], cuts[i], |t|);
      } else {
        assert t[c[k]..c[k + 1]] == added;
      }
    }
  }

  /** Origin-change findings appended after the pass leave its blocks alone. */
  lemma PassThenChanges(events: seq<BgpEvent>, baseline: set<seq<int>>, expectedOrigin: Option<int>,
                        expectedPrefix: Option<string>, acc: seq<Detection>, cuts: seq<int>, changes: seq<Detection>)
    requires PassUpTo(events, |events|, baseline, expectedOrigin, expectedPrefix, acc, cuts)
    ensures PassUpTo(events, |events|, baseline, expectedOrigin, expectedPrefix, acc + changes, cuts)
  {
    var t := acc + changes;
    forall k | 0 <= k < |events|
      ensures BlockOf(events, k, baseline, expectedOrigin, expectedPrefix, t, cuts[k], cuts[k + 1], cuts[|events|])
    {
      assert BlockOf(events, k, baseline, expectedOrigin, expectedPrefix, acc, cuts[k], cuts[k + 1], cuts[|events|]);
      assert t[..|acc|] == acc;
      BlockExtends(events, k, baseline, expectedOrigin, expectedPrefix, acc, t, cuts[k], cuts[k + 1],
                   cuts[|events|], cuts[|events|]);
    }
  }

  // ---- origin changes and the whole detector ----

  /** `expected_prefix or "unknown"` */
  function PrefixOrUnknown(expectedPrefix: Option<string>): string {
    if HasText(expectedPrefix) then expectedPrefix.value else "unknown"
  }

  /** How many origin-change findings a run ends with: one per origin other
      than the expected one, when more than one origin was seen and an
      expected origin is given. */
  function OriginChangeCount(events: seq<BgpEvent>, expectedOrigin: Option<int>): nat {
    var seen := OriginsOf(events);
    if |seen| > 1 && Truthy(expectedOrigin) then |seen - {expectedOrigin.value}| else 0
  }

  /** One HIGH origin-change finding per unexpected origin, all alike: the
      given time and prefix, and the seen origins listed once each. */
  method OriginChanges(seen: set<int>, expected: int, timestamp: int, prefix: string)
    returns (changes: seq<Detection>, origins: seq<int>)
    ensures Seqs.Distinct(origins) && forall x :: x in origins <==> x in seen
    ensures |changes| == |seen - {expected}|
    ensures forall k :: 0 <= k < |changes| ==>
              changes[k] == Detection(OriginChange, timestamp, prefix, SeenOrigins(origins), "high")
  {
    var unexpected := Seqs.SetToSeq(seen - {expected});
    origins := Seqs.SetToSeq(seen);
    changes := [];
    for k := 0 to |unexpected|
      invariant |changes| == k
      invariant forall m :: 0 <= m < |changes| ==>
                  changes[m] == Detection(OriginChange, timestamp, prefix, SeenOrigins(origins), "high")
    {
      changes := changes + [Detection(OriginChange, timestamp, prefix, SeenOrigins(origins), "high")];
    }
  }

  /** The non-origin-change findings of a completed pass, by kind. */
  ghost predicate KindsOf(events: seq<BgpEvent>, expectedOrigin: Option<int>, expectedPrefix: Option<string>,
                          ds: seq<Detection>)
  {
    && Seqs.Filter(ds, IsMoreSpecificDetection) == MoreSpecificOf(events, expectedPrefix)
    && Seqs.Filter(ds, IsMismatchDetection) == MismatchOf(events, expectedOrigin)
  }

  /** The path-leak findings of a completed pass: every transit AS of a
      vouched-for path from the expected origin, each once. */
  ghost predicate PathLeaksOf(events: seq<BgpEvent>, expectedOrigin: Option<int>, ds: seq<Detection>) {
    var baseline := Baseline(events);
    && Flagged(ds) == InjectedOf(events, baseline, expectedOrigin)
    && FlaggedOnce(ds)
    && (forall k :: 0 <= k < |ds| && ds[k].kind == PathLeak ==>
          IsPathLeak(ds[k]) && exists j :: 0 <= j < |events| && PathLeakFrom(ds[k], events[j], baseline, expectedOrigin))
  }

  /** The origin-change findings: the right number, all alike, and after
      every other finding. */
  ghost predicate OriginChangesOf(events: seq<BgpEvent>, expectedOrigin: Option<int>, expectedPrefix: Option<string>,
                                  ds: seq<Detection>)
  {
    && Seqs.Count(ds, IsOriginChange) == OriginChangeCount(events, expectedOrigin)
    && (forall k :: 0 <= k < |ds| && IsOriginChange(ds[k]) ==>
          && |events| > 0 && ds[k].timestamp == events[0].timestamp
          && ds[k].prefix == PrefixOrUnknown(expectedPrefix) && ds[k].severity == "high"
          && ds[k].evidence.SeenOrigins? && Seqs.Distinct(ds[k].evidence.origins)
          && forall x :: x in ds[k].evidence.origins <==> x in OriginsOf(events))
    && (forall k, l :: 0 <= k < l < |ds| && IsOriginChange(ds[k]) ==> IsOriginChange(ds[l]))
  }

  /** Every finding carries the time of some event. */
  ghost predicate TimedByEvents(events: seq<BgpEvent>, ds: seq<Detection>) {
    forall k :: 0 <= k < |ds| ==> TimeOfSome(events, |events|, ds[k].timestamp)
  }

  /** The findings of a whole run in the order the source appends them: one
      block per event, in event order, against the baseline of the run, and
      after the last block only origin-change findings. */
  ghost predicate PassOf(events: seq<BgpEvent>, expectedOrigin: Option<int>, expectedPrefix: Option<string>,
                         ds: seq<Detection>, cuts: seq<int>)
  {
    && PassUpTo(events, |events|, Baseline(events), expectedOrigin, expectedPrefix, ds, cuts)
    && forall k :: 0 <= cuts[|events|] <= k < |ds| ==> IsOriginChange(ds[k])
  }

  /** What `detect_anomalies` promises about the findings of a run that
      does not raise. */
  ghost predicate DetectionsOf(events: seq<BgpEvent>, expectedOrigin: Option<int>, expectedPrefix: Option<string>,
                               ds: seq<Detection>)
  {
    && (exists cuts :: PassOf(events, expectedOrigin, expectedPrefix, ds, cuts))
    && KindsOf(events, expectedOrigin, expectedPrefix, ds)
    && PathLeaksOf(events, expectedOrigin, ds)
    && OriginChangesOf(events, expectedOrigin, expectedPrefix, ds)
    && TimedByEvents(events, ds)
  }

  lemma FinishKinds(events: seq<BgpEvent>, expectedOrigin: Option<int>, expectedPrefix: Option<string>,
                    acc: seq<Detection>, changes: seq<Detection>)
    requires KindsUpTo(events, |events|, expectedOrigin, expectedPrefix, acc)
    requires forall k :: 0 <= k < |changes| ==> IsOriginChange(changes[k])
    ensures KindsOf(events, expectedOrigin, expectedPrefix, acc + changes)
  {
    assert events[..|events|] == events;
    Seqs.FilterAppend(acc, changes, IsMoreSpecificDetection);
    Seqs.FilterAllOrNone(changes, IsMoreSpecificDetection);
    Seqs.FilterAppend(acc, changes, IsMismatchDetection);
    Seqs.FilterAllOrNone(changes, IsMismatchDetection);
  }

  lemma FinishPathLeaks(events: seq<BgpEvent>, expectedOrigin: Option<int>, acc: seq<Detection>, changes: seq<Detection>)
    requires ProvenanceUpTo(events, |events|, Baseline(events), expectedOrigin, acc)
    requires FlagsUpTo(events, |events|, Baseline(events), expectedOrigin, acc, Flagged(acc))
    requires forall k :: 0 <= k < |changes| ==> IsOriginChange(changes[k])
    ensures PathLeaksOf(events, expectedOrigin, acc + changes)
  {
    assert events[..|events|] == events;
    var ds := acc + changes;
    NoPathLeaks(changes);
    FlaggedAppend(acc, changes);
    FlaggedOnceAppend(acc, changes);
    forall k | 0 <= k < |ds| && ds[k].kind == PathLeak
      ensures IsPathLeak(ds[k]) && exists j :: 0 <= j < |events| && PathLeakFrom(ds[k], events[j], Baseline(events), expectedOrigin)
    {
      assert k < |acc| && ds[k] == acc[k];
    }
  }

  lemma OriginChangesLast(acc: seq<Detection>, changes: seq<Detection>)
    requires forall k :: 0 <= k < |acc| ==> !IsOriginChange(acc[k])
    requires forall k :: 0 <= k < |changes| ==> IsOriginChange(changes[k])
    ensures Seqs.Count(acc + changes, IsOriginChange) == |changes|
    ensures forall k, l :: 0 <= k < l < |acc + changes| && IsOriginChange((acc + changes)[k]) ==> IsOriginChange((acc + changes)[l])
    ensures forall k :: 0 <= k < |acc + changes| && IsOriginChange((acc + changes)[k]) ==>
              k >= |acc| && (acc + changes)[k] == changes[k - |acc|]
  {
    Seqs.FilterAppend(acc, changes, IsOriginChange);
    Seqs.FilterAllOrNone(changes, IsOriginChange);
    Seqs.FilterAllOrNone(acc, IsOriginChange);
    var ds := acc + changes;
    forall k | 0 <= k < |ds| && IsOriginChange(ds[k]) ensures k >= |acc| && ds[k] == changes[k - |acc|] {
    }
    forall k, l | 0 <= k < l < |ds| && IsOriginChange(ds[k]) ensures IsOriginChange(ds[l]) {
      assert ds[l] == changes[l - |acc|];
    }
  }

  lemma FinishOriginChanges(events: seq<BgpEvent>, expectedOrigin: Option<int>, expectedPrefix: Option<string>,
                            acc: seq<Detection>, changes: seq<Detection>, origins: seq<int>)
    requires forall k :: 0 <= k < |acc| ==> !IsOriginChange(acc[k])
    requires Seqs.Distinct(origins) && forall x :: x in origins <==> x in OriginsOf(events)
    requires |changes| == OriginChangeCount(events, expectedOrigin)
    requires changes != [] ==> |events| > 0
    requires forall k :: 0 <= k < |changes| ==>
               changes[k] == Detection(OriginChange, events[0].timestamp, PrefixOrUnknown(expectedPrefix), SeenOrigins(origins), "high")
    ensures OriginChangesOf(events, expectedOrigin, expectedPrefix, acc + changes)
  {
    OriginChangesLast(acc, changes);
  }

  lemma OriginChangesTimed(events: seq<BgpEvent>, changes: seq<Detection>)
    requires changes != [] ==> |events| > 0
    requires forall k :: 0 <= k < |changes| ==> changes[k].timestamp == events[0].timestamp
    ensures TimedByEvents(events, changes)
  {
    forall k | 0 <= k < |changes| ensures TimeOfSome(events, |events|, changes[k].timestamp) {
      assert changes[k].timestamp == events[0].timestamp;
    }
  }

  lemma FinishTimes(events: seq<BgpEvent>, expectedOrigin: Option<int>, acc: seq<Detection>, changes: seq<Detection>)
    requires ProvenanceUpTo(events, |events|, Baseline(events), expectedOrigin, acc)
    requires TimedByEvents(events, changes)
    ensures TimedByEvents(events, acc + changes)
  {
    var ds := acc + changes;
    forall k | 0 <= k < |ds| ensures TimeOfSome(events, |events|, ds[k].timestamp) {
      if k < |acc| {
        assert ds[k] == acc[k];
      } else {
        assert ds[k] == changes[k - |acc|];
      }
    }
  }

  /** No announcement among the first `i` events makes a mask parse raise. */
  ghost predicate NoRaiseUpTo(events: seq<BgpEvent>, i: int, expectedPrefix: Option<string>) {
    forall j :: 0 <= j < i && j < |events| ==> !RaisesAt(events[j], expectedPrefix)
  }

  lemma NoRaiseStep(events: seq<BgpEvent>, i: int, expectedPrefix: Option<string>)
    requires 0 <= i < |events| && NoRaiseUpTo(events, i, expectedPrefix) && !RaisesAt(events[i], expectedPrefix)
    ensures NoRaiseUpTo(events, i + 1, expectedPrefix)
  {
  }

  /** One event of the second pass: `failed` when it is an announcement on
      which a mask parse raises; otherwise the invariants of the pass carry
      over to one more event. */
  method ReplayEvent(events: seq<BgpEvent>, i: int, baseline: set<seq<int>>,
                     expectedOrigin: Option<int>, expectedPrefix: Option<string>,
                     anomalies: seq<Detection>, suspicious: set<int>)
    returns (failed: bool, anomalies': seq<Detection>, suspicious': set<int>)
    requires 0 <= i < |events|
    requires KindsUpTo(events, i, expectedOrigin, expectedPrefix, anomalies)
    requires ProvenanceUpTo(events, i, baseline, expectedOrigin, anomalies)
    requires FlagsUpTo(events, i, baseline, expectedOrigin, anomalies, suspicious)
    ensures failed <==> RaisesAt(events[i], expectedPrefix)
    ensures !failed ==> KindsUpTo(events, i + 1, expectedOrigin, expectedPrefix, anomalies')
    ensures !failed ==> ProvenanceUpTo(events, i + 1, baseline, expectedOrigin, anomalies')
    ensures !failed ==> FlagsUpTo(events, i + 1, baseline, expectedOrigin, anomalies', suspicious')
    ensures !failed ==> |anomalies| <= |anomalies'| && anomalies'[..|anomalies|] == anomalies
    ensures !failed ==> StepFindings(events[i], baseline, expectedOrigin, expectedPrefix, suspicious,
                                     anomalies'[|anomalies|..])
  {
    var e := events[i];
    anomalies', suspicious' := anomalies, suspicious;
    failed := false;
    if IsAnnouncement(e) {
      var ms;
      failed, ms := MoreSpecificStep(e, expectedPrefix);
      if failed {
        return;
      }
      var mm := MismatchOne(e, expectedOrigin);
      var leaks, flagged := PathLeakStep(e, baseline, suspicious, expectedOrigin);
      KindsStep(events, i, expectedOrigin, expectedPrefix, anomalies, leaks);
      AnnouncementFlags(events, i, baseline, expectedOrigin, expectedPrefix, anomalies, suspicious, leaks, flagged);
      AnnouncementProvenance(events, i, baseline, expectedOrigin, expectedPrefix, anomalies, leaks);
      AnnouncementBlock(e, baseline, expectedOrigin, expectedPrefix, suspicious, leaks);
      anomalies' := anomalies + (ms + mm + leaks);
      assert anomalies'[|anomalies|..] == ms + mm + leaks;
      suspicious' := flagged;
    } else {
      QuietStep(events, i, baseline, expectedOrigin, expectedPrefix, anomalies, suspicious);
      assert anomalies'[|anomalies|..] == [];
    }
  }

  /** An announcement's path leaks extend the flagged set, each reported once. */
  lemma AnnouncementFlags(events: seq<BgpEvent>, i: int, baseline: set<seq<int>>,
                          expectedOrigin: Option<int>, expectedPrefix: Option<string>,
                          anomalies: seq<Detection>, suspicious: set<int>, leaks: seq<Detection>, flagged: set<int>)
    requires 0 <= i < |events|
    requires FlagsUpTo(events, i, baseline, expectedOrigin, anomalies, suspicious)
    requires PathLeakApplies(events[i], baseline, expectedOrigin) ==> flagged == suspicious + Paths.Interior(events[i].asPath)
    requires !PathLeakApplies(events[i], baseline, expectedOrigin) ==> flagged == suspicious
    requires Flagged(leaks) == flagged - suspicious
    requires FlaggedOnce(leaks)
    ensures var added := MoreSpecificOne(events[i], expectedPrefix) + MismatchOne(events[i], expectedOrigin) + leaks;
            FlagsUpTo(events, i + 1, baseline, expectedOrigin, anomalies + added, flagged)
  {
    var e := events[i];
    var ms := MoreSpecificOne(e, expectedPrefix);
    var mm := MismatchOne(e, expectedOrigin);
    OwnFindings(e, expectedOrigin, expectedPrefix);
    assert forall k :: 0 <= k < |ms + mm| ==> (ms + mm)[k] in ms + mm;
    FlagsStep(events, i, baseline, expectedOrigin, anomalies, suspicious, ms + mm, leaks, flagged);
    assert ms + mm + leaks == (ms + mm) + leaks;
  }

  /** An announcement's own findings are timed by it and its path leaks come from it. */
  lemma AnnouncementProvenance(events: seq<BgpEvent>, i: int, baseline: set<seq<int>>,
                               expectedOrigin: Option<int>, expectedPrefix: Option<string>,
                               anomalies: seq<Detection>, leaks: seq<Detection>)
    requires 0 <= i < |events|
    requires ProvenanceUpTo(events, i, baseline, expectedOrigin, anomalies)
    requires forall d :: d in leaks ==> IsPathLeak(d) && PathLeakFrom(d, events[i], baseline, expectedOrigin)
    ensures var added := MoreSpecificOne(events[i], expectedPrefix) + MismatchOne(events[i], expectedOrigin) + leaks;
            ProvenanceUpTo(events, i + 1, baseline, expectedOrigin, anomalies + added)
  {
    var e := events[i];
    var ms := MoreSpecificOne(e, expectedPrefix);
    var mm := MismatchOne(e, expectedOrigin);
    var added := ms + mm + leaks;
    OwnFindings(e, expectedOrigin, expectedPrefix);
    assert forall d :: d in added ==> d in ms + mm || d in leaks;
    ProvenanceStep(events, i, baseline, expectedOrigin, anomalies, added);
  }

  /** An event other than an announcement adds nothing and keeps the
      invariants of the pass. */
  lemma QuietStep(events: seq<BgpEvent>, i: int, baseline: set<seq<int>>,
                  expectedOrigin: Option<int>, expectedPrefix: Option<string>,
                  anomalies: seq<Detection>, suspicious: set<int>)
    requires 0 <= i < |events| && !IsAnnouncement(events[i])
    requires KindsUpTo(events, i, expectedOrigin, expectedPrefix, anomalies)
    requires ProvenanceUpTo(events, i, baseline, expectedOrigin, anomalies)
    requires FlagsUpTo(events, i, baseline, expectedOrigin, anomalies, suspicious)
    ensures KindsUpTo(events, i + 1, expectedOrigin, expectedPrefix, anomalies)
    ensures ProvenanceUpTo(events, i + 1, baseline, expectedOrigin, anomalies)
    ensures FlagsUpTo(events, i + 1, baseline, expectedOrigin, anomalies, suspicious)
  {
    assert anomalies + ([] + [] + []) == anomalies;
    KindsStep(events, i, expectedOrigin, expectedPrefix, anomalies, []);
    FlagsStep(events, i, baseline, expectedOrigin, anomalies, suspicious, [], [], suspicious);
    ProvenanceStep(events, i, baseline, expectedOrigin, anomalies, []);
  }

  /** What the second pass keeps after the first `i` events: the findings
      so far cut into their blocks, and the per-kind, provenance and flag
      facts of those findings. */
  ghost predicate ReplayedUpTo(events: seq<BgpEvent>, i: int, baseline: set<seq<int>>, expectedOrigin: Option<int>,
                               expectedPrefix: Option<string>, anomalies: seq<Detection>, suspicious: set<int>,
                               cuts: seq<int>)
    requires 0 <= i <= |events|
  {
    && PassUpTo(events, i, baseline, expectedOrigin, expectedPrefix, anomalies, cuts) && cuts[i] == |anomalies|
    && KindsUpTo(events, i, expectedOrigin, expectedPrefix, anomalies)
    && ProvenanceUpTo(events, i, baseline, expectedOrigin, anomalies)
    && FlagsUpTo(events, i, baseline, expectedOrigin, anomalies, suspicious)
  }

  /** One more event of the pass: the origins seen grow by its own. */
  lemma OriginsStep(events: seq<BgpEvent>, i: int)
    requires 0 <= i < |events|
    ensures OriginsOf(events[..i + 1]) == OriginsOf(events[..i]) + OriginsOfOne(events[i])
  {
    assert events[..i + 1][..i] == events[..i];
  }

  /** The second pass of `detect_anomalies` over every event. */
  method SecondPass(events: seq<BgpEvent>, baseline: set<seq<int>>, expectedOrigin: Option<int>, expectedPrefix: Option<string>)
    returns (failed: bool, anomalies: seq<Detection>, seenOrigins: set<int>, ghost cuts: seq<int>)
    ensures failed <==> exists j :: 0 <= j < |events| && RaisesAt(events[j], expectedPrefix)
    ensures !failed ==> PassUpTo(events, |events|, baseline, expectedOrigin, expectedPrefix, anomalies, cuts)
                        && cuts[|events|] == |anomalies|
    ensures !failed ==> KindsUpTo(events, |events|, expectedOrigin, expectedPrefix, anomalies)
    ensures !failed ==> ProvenanceUpTo(events, |events|, baseline, expectedOrigin, anomalies)
    ensures !failed ==> FlagsUpTo(events, |events|, baseline, expectedOrigin, anomalies, Flagged(anomalies))
    ensures !failed ==> seenOrigins == OriginsOf(events)
  {
    anomalies := [];
    seenOrigins := {};
    cuts := [0];
    var suspicious: set<int> := {};
    for i := 0 to |events|
      invariant NoRaiseUpTo(events, i, expectedPrefix)
      invariant ReplayedUpTo(events, i, baseline, expectedOrigin, expectedPrefix, anomalies, suspicious, cuts)
      invariant seenOrigins == OriginsOf(events[..i])
    {
      var e := events[i];
      var before := anomalies;
      failed, anomalies, suspicious := ReplayEvent(events, i, baseline, expectedOrigin, expectedPrefix, anomalies, suspicious);
      if failed {
        return;
      }
      PassStep(events, i, baseline, expectedOrigin, expectedPrefix, before, cuts, anomalies);
      cuts := cuts + [|anomalies|];
      NoRaiseStep(events, i, expectedPrefix);
      OriginsStep(events, i);
      if IsAnnouncement(e) && Truthy(e.originAsn) {
        seenOrigins := seenOrigins + {e.originAsn.value};
      }
    }
    failed := false;
    assert events[..|events|] == events;
  }

  /** An event that adds nothing in the second pass. */
  ghost predicate Silent(events: seq<BgpEvent>, i: int, expectedOrigin: Option<int>, expectedPrefix: Option<string>)
    requires 0 <= i < |events|
  {
    StepFindings(events[i], Baseline(events), expectedOrigin, expectedPrefix,
                 InjectedOf(events[..i], Baseline(events), expectedOrigin), [])
  }

  /** An event's block is empty exactly when the event is silent: the block
      is fixed up to order. */
  lemma SilentBlock(e: BgpEvent, baseline: set<seq<int>>, expectedOrigin: Option<int>,
                    expectedPrefix: Option<string>, suspicious: set<int>, added: seq<Detection>)
    requires StepFindings(e, baseline, expectedOrigin, expectedPrefix, suspicious, added)
    ensures StepFindings(e, baseline, expectedOrigin, expectedPrefix, suspicious, []) <==> added == []
  {
    if IsAnnouncement(e) && StepFindings(e, baseline, expectedOrigin, expectedPrefix, suspicious, []) {
      var own := MoreSpecificOne(e, expectedPrefix) + MismatchOne(e, expectedOrigin);
      assert own == [];
      var leaks := added[|own|..];
      assert leaks == added;
      assert Flagged(leaks) == {};
      UnflaggedLeaks(leaks);
    }
  }

  /** Path-leak findings that flag nothing are no findings at all. */
  lemma UnflaggedLeaks(leaks: seq<Detection>)
    requires forall d :: d in leaks ==> IsPathLeak(d)
    requires Flagged(leaks) == {}
    ensures leaks == []
  {
    if leaks != [] {
      assert leaks[0] in leaks;
      FlaggedHas(leaks, 0);
      assert false;
    }
  }

  lemma FlaggedHas(ds: seq<Detection>, i: int)
    requires 0 <= i < |ds| && IsPathLeak(ds[i])
    ensures ds[i].evidence.suspiciousAs in Flagged(ds)
  {
  }

  /** A finding in an event's block is one the event raised: an announcement's
      finding at its time, never an origin change; a path-leak finding names
      a transit AS the earlier events had not flagged. */
  lemma BlockMember(e: BgpEvent, baseline: set<seq<int>>, expectedOrigin: Option<int>,
                    expectedPrefix: Option<string>, suspicious: set<int>, block: seq<Detection>, m: int)
    requires StepFindings(e, baseline, expectedOrigin, expectedPrefix, suspicious, block)
    requires 0 <= m < |block|
    ensures IsAnnouncement(e) && block[m].timestamp == e.timestamp && !IsOriginChange(block[m])
    ensures IsPathLeak(block[m]) ==>
              PathLeakFrom(block[m], e, baseline, expectedOrigin) && block[m].evidence.suspiciousAs !in suspicious
  {
    var own := MoreSpecificOne(e, expectedPrefix) + MismatchOne(e, expectedOrigin);
    OwnFindings(e, expectedOrigin, expectedPrefix);
    if m < |own| {
      assert block[m] == own[m] && block[m] in own;
    } else {
      var leaks := block[|own|..];
      assert block[m] == leaks[m - |own|] && block[m] in leaks;
      assert block[m].evidence.suspiciousAs in Flagged(leaks);
    }
  }

  /** Finding `n` of the pass lies in the block of an announcement `k`, after
      the blocks of every earlier event, and carries `k`'s time; a path-leak
      finding names a transit AS of `k` that no earlier event flagged. */
  lemma FindingEvent(events: seq<BgpEvent>, expectedOrigin: Option<int>, expectedPrefix: Option<string>,
                     ds: seq<Detection>, cuts: seq<int>, n: int)
    returns (k: int)
    requires PassOf(events, expectedOrigin, expectedPrefix, ds, cuts)
    requires 0 <= n < cuts[|events|]
    ensures 0 <= k < |events| && cuts[k] <= n < cuts[k + 1]
    ensures forall i :: 0 < i <= k ==> cuts[i] <= n
    ensures IsAnnouncement(events[k]) && ds[n].timestamp == events[k].timestamp && !IsOriginChange(ds[n])
    ensures IsPathLeak(ds[n]) ==>
              && PathLeakFrom(ds[n], events[k], Baseline(events), expectedOrigin)
              && ds[n].evidence.suspiciousAs !in InjectedOf(events[..k], Baseline(events), expectedOrigin)
  {
    var baseline := Baseline(events);
    k := 0;
    while cuts[k + 1] <= n
      invariant 0 <= k < |events| && cuts[k] <= n
      invariant forall i :: 0 < i <= k ==> cuts[i] <= n
      decreases |events| - k
    {
      assert BlockOf(events, k, baseline, expectedOrigin, expectedPrefix, ds, cuts[k], cuts[k + 1], cuts[|events|]);
      k := k + 1;
    }
    assert BlockOf(events, k, baseline, expectedOrigin, expectedPrefix, ds, cuts[k], cuts[k + 1], cuts[|events|]);
    var block := ds[cuts[k]..cuts[k + 1]];
    assert ds[n] == block[n - cuts[k]];
    BlockMember(events[k], baseline, expectedOrigin, expectedPrefix, InjectedOf(events[..k], baseline, expectedOrigin),
                block, n - cuts[k]);
  }

  /** `first_anomaly`: the first finding carries the time of the first event
      that adds anything, every event before it being silent; when no event
      adds anything, the first finding is an origin change carrying the time
      of the first event. */
  lemma FirstAnomaly(events: seq<BgpEvent>, expectedOrigin: Option<int>, expectedPrefix: Option<string>, ds: seq<Detection>)
    returns (k: int)
    requires DetectionsOf(events, expectedOrigin, expectedPrefix, ds) && ds != []
    ensures 0 <= k < |events| && ds[0].timestamp == events[k].timestamp
    ensures forall i :: 0 <= i < k ==> Silent(events, i, expectedOrigin, expectedPrefix)
    ensures !IsOriginChange(ds[0]) ==> !Silent(events, k, expectedOrigin, expectedPrefix)
    ensures IsOriginChange(ds[0]) ==> k == 0 && forall i :: 0 <= i < |events| ==> Silent(events, i, expectedOrigin, expectedPrefix)
  {
    var baseline := Baseline(events);
    var cuts :| PassOf(events, expectedOrigin, expectedPrefix, ds, cuts);
    if cuts[|events|] == 0 {
      assert IsOriginChange(ds[0]);
      k := 0;
      forall i | 0 <= i < |events| ensures Silent(events, i, expectedOrigin, expectedPrefix) {
        assert BlockOf(events, i, baseline, expectedOrigin, expectedPrefix, ds, cuts[i], cuts[i + 1], cuts[|events|]);
        assert ds[cuts[i]..cuts[i + 1]] == [];
      }
    } else {
      assert |events| > 0;
      assert BlockOf(events, |events| - 1, baseline, expectedOrigin, expectedPrefix, ds,
                     cuts[|events| - 1], cuts[|events|], cuts[|events|]);
      k := FindingEvent(events, expectedOrigin, expectedPrefix, ds, cuts, 0);
      forall i | 0 <= i < k ensures Silent(events, i, expectedOrigin, expectedPrefix) {
        assert BlockOf(events, i, baseline, expectedOrigin, expectedPrefix, ds, cuts[i], cuts[i + 1], cuts[|events|]);
        assert cuts[i + 1] <= 0;
        assert ds[cuts[i]..cuts[i + 1]] == [];
      }
      assert BlockOf(events, k, baseline, expectedOrigin, expectedPrefix, ds, cuts[k], cuts[k + 1], cuts[|events|]);
      SilentBlock(events[k], baseline, expectedOrigin, expectedPrefix,
                  InjectedOf(events[..k], baseline, expectedOrigin), ds[cuts[k]..cuts[k + 1]]);
    }
  }

  /** The findings of a completed second pass followed by the origin-change
      findings are what `detect_anomalies` promises. */
  lemma FinishReplay(events: seq<BgpEvent>, expectedOrigin: Option<int>, expectedPrefix: Option<string>,
                     acc: seq<Detection>, changes: seq<Detection>, origins: seq<int>, cuts: seq<int>)
    requires PassUpTo(events, |events|, Baseline(events), expectedOrigin, expectedPrefix, acc, cuts) && cuts[|events|] == |acc|
    requires KindsUpTo(events, |events|, expectedOrigin, expectedPrefix, acc)
    requires ProvenanceUpTo(events, |events|, Baseline(events), expectedOrigin, acc)
    requires FlagsUpTo(events, |events|, Baseline(events), expectedOrigin, acc, Flagged(acc))
    requires Seqs.Distinct(origins) && forall x :: x in origins <==> x in OriginsOf(events)
    requires |changes| == OriginChangeCount(events, expectedOrigin)
    requires changes != [] ==> |events| > 0
    requires forall k :: 0 <= k < |changes| ==>
               changes[k] == Detection(OriginChange, events[0].timestamp, PrefixOrUnknown(expectedPrefix), SeenOrigins(origins), "high")
    ensures DetectionsOf(events, expectedOrigin, expectedPrefix, acc + changes)
  {
    assert forall k :: 0 <= k < |changes| ==> IsOriginChange(changes[k]);
    FinishKinds(events, expectedOrigin, expectedPrefix, acc, changes);
    FinishPathLeaks(events, expectedOrigin, acc, changes);
    FinishOriginChanges(events, expectedOrigin, expectedPrefix, acc, changes, origins);
    OriginChangesTimed(events, changes);
    FinishTimes(events, expectedOrigin, acc, changes);
    FinishPass(events, expectedOrigin, expectedPrefix, acc, changes, cuts);
  }

  lemma FinishPass(events: seq<BgpEvent>, expectedOrigin: Option<int>, expectedPrefix: Option<string>,
                   acc: seq<Detection>, changes: seq<Detection>, cuts: seq<int>)
    requires PassUpTo(events, |events|, Baseline(events), expectedOrigin, expectedPrefix, acc, cuts) && cuts[|events|] == |acc|
    requires forall k :: 0 <= k < |changes| ==> IsOriginChange(changes[k])
    ensures PassOf(events, expectedOrigin, expectedPrefix, acc + changes, cuts)
  {
    PassThenChanges(events, Baseline(events), expectedOrigin, expectedPrefix, acc, cuts, changes);
    forall k | cuts[|events|] <= k < |acc + changes| ensures IsOriginChange((acc + changes)[k]) {
      assert (acc + changes)[k] == changes[k - |acc|];
    }
  }

  /** `detect_anomalies`: the baseline pass, then one pass over the
      announcements collecting more-specific, leak, hijack and path-leak
      findings, then the origin-change findings. It fails exactly when some
      announcement makes a mask parse raise; otherwise its findings are the
      ones `DetectionsOf` describes. */
  method DetectEventAnomalies(events: seq<BgpEvent>, expectedOrigin: Option<int>, expectedPrefix: Option<string>)
    returns (r: Result<seq<Detection>>)
    ensures r.Failure? <==> exists j :: 0 <= j < |events| && RaisesAt(events[j], expectedPrefix)
    ensures r.Success? ==> DetectionsOf(events, expectedOrigin, expectedPrefix, r.value)
  {
    var baseline := BuildBaseline(events);
    var failed, anomalies, seenOrigins, cuts := SecondPass(events, baseline, expectedOrigin, expectedPrefix);
    if failed {
      return Failure("ValueError");
    }
    var changes: seq<Detection> := [];
    var origins := Seqs.SetToSeq(seenOrigins);
    if |seenOrigins| > 1 && Truthy(expectedOrigin) {
      assert events != [];
      changes, origins := OriginChanges(seenOrigins, expectedOrigin.value, events[0].timestamp, PrefixOrUnknown(expectedPrefix));
    }
    FinishReplay(events, expectedOrigin, expectedPrefix, anomalies, changes, origins, cuts);
    r := Success(anomalies + changes);
  }

  // ---- only announcements matter ----

  lemma FilterSnocLast<T>(s: seq<T>, x: T, p: T -> bool)
    ensures p(x) ==> Seqs.Filter(s + [x], p) == Seqs.Filter(s, p) + [x]
    ensures !p(x) ==> Seqs.Filter(s + [x], p) == Seqs.Filter(s, p)
  {
    Seqs.FilterAppend(s, [x], p);
    assert Seqs.Filter([x], p) == if p(x) then [x] else [];
    assert Seqs.Filter(s, p) + [] == Seqs.Filter(s, p);
  }

  /** Events other than announcements never produce findings, never add an
      origin and never enter the baseline: on the announcements alone every
      part of the detector comes out the same. */
  lemma {:induction false} MoreSpecificOnAnnouncements(events: seq<BgpEvent>, expectedPrefix: Option<string>)
    ensures MoreSpecificOf(Seqs.Filter(events, IsAnnouncement), expectedPrefix) == MoreSpecificOf(events, expectedPrefix)
  {
    if events != [] {
      var init := events[..|events| - 1];
      var e := events[|events| - 1];
      var ann := Seqs.Filter(init, IsAnnouncement);
      MoreSpecificOnAnnouncements(init, expectedPrefix);
      assert Seqs.Filter(events, IsAnnouncement) == ann + (if IsAnnouncement(e) then [e] else []) by {
        Seqs.InitLast(events);
        FilterSnocLast(init, e, IsAnnouncement);
      }
      if IsAnnouncement(e) {
        assert MoreSpecificOf(ann + [e], expectedPrefix) == MoreSpecificOf(ann, expectedPrefix) + MoreSpecificOne(e, expectedPrefix) by {
          assert (ann + [e])[..|ann|] == ann && (ann + [e])[|ann|] == e;
        }
      } else {
        assert MoreSpecificOne(e, expectedPrefix) == [];
        assert ann + [] == ann;
      }
    }
  }

  lemma {:induction false} MismatchOnAnnouncements(events: seq<BgpEvent>, expectedOrigin: Option<int>)
    ensures MismatchOf(Seqs.Filter(events, IsAnnouncement), expectedOrigin) == MismatchOf(events, expectedOrigin)
  {
    if events != [] {
      var init := events[..|events| - 1];
      var e := events[|events| - 1];
      var ann := Seqs.Filter(init, IsAnnouncement);
      MismatchOnAnnouncements(init, expectedOrigin);
      assert Seqs.Filter(events, IsAnnouncement) == ann + (if IsAnnouncement(e) then [e] else []) by {
        Seqs.InitLast(events);
        FilterSnocLast(init, e, IsAnnouncement);
      }
      if IsAnnouncement(e) {
        assert MismatchOf(ann + [e], expectedOrigin) == MismatchOf(ann, expectedOrigin) + MismatchOne(e, expectedOrigin) by {
          assert (ann + [e])[..|ann|] == ann && (ann + [e])[|ann|] == e;
        }
      } else {
        assert MismatchOne(e, expectedOrigin) == [];
        assert ann + [] == ann;
      }
    }
  }

  lemma {:induction false} InjectedOnAnnouncements(events: seq<BgpEvent>, baseline: set<seq<int>>, expectedOrigin: Option<int>)
    ensures InjectedOf(Seqs.Filter(events, IsAnnouncement), baseline, expectedOrigin) == InjectedOf(events, baseline, expectedOrigin)
  {
    if events != [] {
      var init := events[..|events| - 1];
      var e := events[|events| - 1];
      var ann := Seqs.Filter(init, IsAnnouncement);
      InjectedOnAnnouncements(init, baseline, expectedOrigin);
      assert Seqs.Filter(events, IsAnnouncement) == ann + (if IsAnnouncement(e) then [e] else []) by {
        Seqs.InitLast(events);
        FilterSnocLast(init, e, IsAnnouncement);
      }
      if IsAnnouncement(e) {
        assert InjectedOf(ann + [e], baseline, expectedOrigin) == InjectedOf(ann, baseline, expectedOrigin) + InjectedOfOne(e, baseline, expectedOrigin) by {
          assert (ann + [e])[..|ann|] == ann && (ann + [e])[|ann|] == e;
        }
      } else {
        assert InjectedOfOne(e, baseline, expectedOrigin) == {};
        assert ann + [] == ann;
      }
    }
  }

  lemma {:induction false} OriginsOnAnnouncements(events: seq<BgpEvent>)
    ensures OriginsOf(Seqs.Filter(events, IsAnnouncement)) == OriginsOf(events)
  {
    if events != [] {
      var init := events[..|events| - 1];
      var e := events[|events| - 1];
      var ann := Seqs.Filter(init, IsAnnouncement);
      OriginsOnAnnouncements(init);
      assert Seqs.Filter(events, IsAnnouncement) == ann + (if IsAnnouncement(e) then [e] else []) by {
        Seqs.InitLast(events);
        FilterSnocLast(init, e, IsAnnouncement);
      }
      if IsAnnouncement(e) {
        assert OriginsOf(ann + [e]) == OriginsOf(ann) + OriginsOfOne(e) by {
          assert (ann + [e])[..|ann|] == ann && (ann + [e])[|ann|] == e;
        }
      } else {
        assert OriginsOfOne(e) == {};
        assert ann + [] == ann;
      }
    }
  }

  /** The baseline is drawn from announcements alone. */
  lemma BaselineOfAnnouncements(events: seq<BgpEvent>)
    ensures Baseline(Seqs.Filter(events, IsAnnouncement)) == Baseline(events)
  {
    var ann := Seqs.Filter(events, IsAnnouncement);
    forall b | b in Baseline(events) ensures b in Baseline(ann) {
      var i :| 0 <= i < |events| && IsAnnouncement(events[i]) && events[i].asPath != [] && |events[i].asPath| <= 3
               && events[i].asPath == b;
      assert events[i] in ann;
      var k :| 0 <= k < |ann| && ann[k] == events[i];
    }
    forall b | b in Baseline(ann) ensures b in Baseline(events) {
      var k :| 0 <= k < |ann| && IsAnnouncement(ann[k]) && ann[k].asPath != [] && |ann[k].asPath| <= 3 && ann[k].asPath == b;
      assert ann[k] in events;
      var i :| 0 <= i < |events| && events[i] == ann[k];
    }
  }

  // ---- investigate_incident ----

  /** Counters of one minute of the timeline. */
  datatype MinuteCounts = MinuteCounts(announcements: nat, withdrawals: nat, anomalies: nat)

  /** `timestamp.replace(second=0, microsecond=0)`: the start of its minute. */
  function Minute(t: int): (m: int)
    ensures m <= t < m + 60 && m % 60 == 0
  {
    t - t % 60
  }

  /** `".".join(prefix.split("/")[0].split(".")[:3]) + "."` */
  function PrefixNetwork(prefix: string): string {
    Text.Join(Seqs.Take(Text.Split(Text.Split(prefix, '/')[0], '.'), 3), ".") + "."
  }

  /** Events about the investigated network: a prefix that starts with the
      network text, or is the prefix itself. */
  function Relevant(prefix: string): BgpEvent -> bool {
    var network := PrefixNetwork(prefix);
    (e: BgpEvent) => Text.StartsWith(e.prefix, network) || e.prefix == prefix
  }

  function RelevantEvents(events: seq<BgpEvent>, prefix: string): seq<BgpEvent> {
    Seqs.Filter(events, Relevant(prefix))
  }

  /** Updates of the investigated prefix itself are always relevant. */
  lemma ExactPrefixRelevant(events: seq<BgpEvent>, prefix: string, e: BgpEvent)
    requires e in events && e.prefix == prefix
    ensures e in RelevantEvents(events, prefix)
  {
    var i :| 0 <= i < |events| && events[i] == e;
  }

  function AnnouncedIn(m: int): BgpEvent -> bool {
    (e: BgpEvent) => Minute(e.timestamp) == m && IsAnnouncement(e)
  }

  function OtherIn(m: int): BgpEvent -> bool {
    (e: BgpEvent) => Minute(e.timestamp) == m && !IsAnnouncement(e)
  }

  function DetectedIn(m: int): Detection -> bool {
    (d: Detection) => Minute(d.timestamp) == m
  }

  function Traffic(c: MinuteCounts): int { c.announcements + c.withdrawals }

  function AnomalyTally(c: MinuteCounts): int { c.anomalies }

  /** The sum of `f` over the minutes of a timeline. */
  ghost function MapSum(m: map<int, MinuteCounts>, f: MinuteCounts -> int): int
    decreases |m|
  {
    if m.Keys == {} then 0
    else
      assert exists k :: k in m.Keys by { var k := Seqs.Pick(m.Keys); }
      var k :| k in m.Keys;
      assert |m - {k}| < |m| by { assert (m - {k}).Keys == m.Keys - {k}; }
      f(m[k]) + MapSum(m - {k}, f)
  }

  lemma {:induction false} MapSumRemove(m: map<int, MinuteCounts>, f: MinuteCounts -> int, k: int)
    requires k in m
    ensures MapSum(m, f) == f(m[k]) + MapSum(m - {k}, f)
    decreases |m|
  {
    var j :| j in m && MapSum(m, f) == f(m[j]) + MapSum(m - {j}, f);
    if j != k {
      assert (m - {j}).Keys == m.Keys - {j};
      assert (m - {k}).Keys == m.Keys - {k};
      MapSumRemove(m - {j}, f, k);
      MapSumRemove(m - {k}, f, j);
      assert (m - {j}) - {k} == (m - {k}) - {j};
    }
  }

  /** Replacing or adding the entry of one minute changes the sum by the
      difference. */
  lemma MapSumUpdate(m: map<int, MinuteCounts>, f: MinuteCounts -> int, k: int, v: MinuteCounts)
    ensures k in m ==> MapSum(m[k := v], f) == MapSum(m, f) - f(m[k]) + f(v)
    ensures k !in m ==> MapSum(m[k := v], f) == MapSum(m, f) + f(v)
  {
    MapSumRemove(m[k := v], f, k);
    assert m[k := v] - {k} == m - {k};
    if k in m {
      MapSumRemove(m, f, k);
    } else {
      assert m - {k} == m;
    }
  }

  /** The timeline so far: one entry per minute of the first `i` events,
      counting that minute's announcements and its other events. */
  ghost predicate TimelineUpTo(relevant: seq<BgpEvent>, i: int, timeline: map<int, MinuteCounts>)
    requires 0 <= i <= |relevant|
  {
    && (forall m :: m in timeline <==> exists j :: 0 <= j < i && Minute(relevant[j].timestamp) == m)
    && (forall m :: m in timeline ==>
          && timeline[m].announcements == Seqs.Count(relevant[..i], AnnouncedIn(m))
          && timeline[m].withdrawals == Seqs.Count(relevant[..i], OtherIn(m))
          && timeline[m].anomalies == 0)
    && MapSum(timeline, Traffic) == i
  }

  /** The entry the timeline loop writes for event `e`. */
  function Bumped(timeline: map<int, MinuteCounts>, e: BgpEvent): MinuteCounts {
    var m := Minute(e.timestamp);
    var c := if m in timeline then timeline[m] else MinuteCounts(0, 0, 0);
    if IsAnnouncement(e) then c.(announcements := c.announcements + 1) else c.(withdrawals := c.withdrawals + 1)
  }

  lemma TimelineKeysStep(relevant: seq<BgpEvent>, i: int, timeline: map<int, MinuteCounts>)
    requires 0 <= i < |relevant|
    requires forall m :: m in timeline <==> exists j :: 0 <= j < i && Minute(relevant[j].timestamp) == m
    ensures var t := timeline[Minute(relevant[i].timestamp) := Bumped(timeline, relevant[i])];
            forall m :: m in t <==> exists j :: 0 <= j < i + 1 && Minute(relevant[j].timestamp) == m
  {
  }

  lemma TimelineCountsStep(relevant: seq<BgpEvent>, i: int, timeline: map<int, MinuteCounts>)
    requires 0 <= i < |relevant|
    requires forall m :: m in timeline <==> exists j :: 0 <= j < i && Minute(relevant[j].timestamp) == m
    requires forall m :: m in timeline ==>
               && timeline[m].announcements == Seqs.Count(relevant[..i], AnnouncedIn(m))
               && timeline[m].withdrawals == Seqs.Count(relevant[..i], OtherIn(m))
               && timeline[m].anomalies == 0
    ensures var t := timeline[Minute(relevant[i].timestamp) := Bumped(timeline, relevant[i])];
            forall m :: m in t ==>
              && t[m].announcements == Seqs.Count(relevant[..i + 1], AnnouncedIn(m))
              && t[m].withdrawals == Seqs.Count(relevant[..i + 1], OtherIn(m))
              && t[m].anomalies == 0
  {
    var m0 := Minute(relevant[i].timestamp);
    var t := timeline[m0 := Bumped(timeline, relevant[i])];
    if m0 !in timeline {
      forall j | 0 <= j < i ensures !AnnouncedIn(m0)(relevant[..i][j]) && !OtherIn(m0)(relevant[..i][j]) {
        assert relevant[..i][j] == relevant[j];
      }
      Seqs.FilterAllOrNone(relevant[..i], AnnouncedIn(m0));
      Seqs.FilterAllOrNone(relevant[..i], OtherIn(m0));
    }
    forall m | m in t
      ensures t[m].announcements == Seqs.Count(relevant[..i + 1], AnnouncedIn(m))
      ensures t[m].withdrawals == Seqs.Count(relevant[..i + 1], OtherIn(m))
    {
      Seqs.FilterSnoc(relevant, i, AnnouncedIn(m));
      Seqs.FilterSnoc(relevant, i, OtherIn(m));
    }
  }

  lemma TimelineStep(relevant: seq<BgpEvent>, i: int, timeline: map<int, MinuteCounts>)
    requires 0 <= i < |relevant| && TimelineUpTo(relevant, i, timeline)
    ensures TimelineUpTo(relevant, i + 1, timeline[Minute(relevant[i].timestamp) := Bumped(timeline, relevant[i])])
  {
    var m0 := Minute(relevant[i].timestamp);
    var v := Bumped(timeline, relevant[i]);
    TimelineKeysStep(relevant, i, timeline);
    TimelineCountsStep(relevant, i, timeline);
    MapSumUpdate(timeline, Traffic, m0, v);
  }

  /** The timeline loop of `investigate_incident`: one entry per minute
      holding events, with that minute's announcements and all its other
      events (withdrawals and state messages alike); the counts add up to the
      number of events. */
  method BuildTimeline(relevant: seq<BgpEvent>) returns (timeline: map<int, MinuteCounts>)
    ensures TimelineUpTo(relevant, |relevant|, timeline)
  {
    timeline := map[];
    for i := 0 to |relevant|
      invariant TimelineUpTo(relevant, i, timeline)
    {
      var e := relevant[i];
      var minute := Minute(e.timestamp);
      TimelineStep(relevant, i, timeline);
      var counts := if minute in timeline then timeline[minute] else MinuteCounts(0, 0, 0);
      if IsAnnouncement(e) {
        counts := counts.(announcements := counts.announcements + 1);
      } else {
        counts := counts.(withdrawals := counts.withdrawals + 1);
      }
      timeline := timeline[minute := counts];
    }
  }

  /** A detection whose minute is one of `minutes`. */
  function InMinutes(minutes: set<int>): Detection -> bool {
    (d: Detection) => Minute(d.timestamp) in minutes
  }

  lemma {:induction false} MapSumZero(m: map<int, MinuteCounts>, f: MinuteCounts -> int)
    requires forall k :: k in m ==> f(m[k]) == 0
    ensures MapSum(m, f) == 0
    decreases |m|
  {
    if m.Keys != {} {
      var k := Seqs.Pick(m.Keys);
      MapSumRemove(m, f, k);
      assert (m - {k}).Keys == m.Keys - {k};
      MapSumZero(m - {k}, f);
    }
  }

  /** After the anomaly loop has seen `ds[..k]`: same minutes and traffic
      counts, and each minute counts the detections that fall in it. */
  ghost predicate TalliedUpTo(timeline: map<int, MinuteCounts>, ds: seq<Detection>, k: int, t: map<int, MinuteCounts>)
    requires 0 <= k <= |ds|
  {
    && t.Keys == timeline.Keys
    && (forall m :: m in t ==>
          && t[m].announcements == timeline[m].announcements
          && t[m].withdrawals == timeline[m].withdrawals
          && t[m].anomalies == Seqs.Count(ds[..k], DetectedIn(m)))
    && MapSum(t, Traffic) == MapSum(timeline, Traffic)
    && MapSum(t, AnomalyTally) == Seqs.Count(ds[..k], InMinutes(timeline.Keys))
  }

  lemma TallyCountsStep(timeline: map<int, MinuteCounts>, ds: seq<Detection>, k: int, t: map<int, MinuteCounts>)
    requires 0 <= k < |ds|
    requires t.Keys == timeline.Keys
    requires forall m :: m in t ==>
               && t[m].announcements == timeline[m].announcements
               && t[m].withdrawals == timeline[m].withdrawals
               && t[m].anomalies == Seqs.Count(ds[..k], DetectedIn(m))
    ensures var m := Minute(ds[k].timestamp);
            var t' := if m in t then t[m := t[m].(anomalies := t[m].anomalies + 1)] else t;
            && t'.Keys == timeline.Keys
            && forall m :: m in t' ==>
                 && t'[m].announcements == timeline[m].announcements
                 && t'[m].withdrawals == timeline[m].withdrawals
                 && t'[m].anomalies == Seqs.Count(ds[..k + 1], DetectedIn(m))
  {
    forall m | m in t ensures Seqs.Count(ds[..k + 1], DetectedIn(m)) == Seqs.Count(ds[..k], DetectedIn(m)) + (if m == Minute(ds[k].timestamp) then 1 else 0) {
      Seqs.FilterSnoc(ds, k, DetectedIn(m));
    }
  }

  lemma TallySumsStep(timeline: map<int, MinuteCounts>, ds: seq<Detection>, k: int, t: map<int, MinuteCounts>)
    requires 0 <= k < |ds|
    requires t.Keys == timeline.Keys
    requires MapSum(t, Traffic) == MapSum(timeline, Traffic)
    requires MapSum(t, AnomalyTally) == Seqs.Count(ds[..k], InMinutes(timeline.Keys))
    ensures var m := Minute(ds[k].timestamp);
            var t' := if m in t then t[m := t[m].(anomalies := t[m].anomalies + 1)] else t;
            && MapSum(t', Traffic) == MapSum(timeline, Traffic)
            && MapSum(t', AnomalyTally) == Seqs.Count(ds[..k + 1], InMinutes(timeline.Keys))
  {
    var m0 := Minute(ds[k].timestamp);
    Seqs.FilterSnoc(ds, k, InMinutes(timeline.Keys));
    if m0 in t {
      var c := t[m0].(anomalies := t[m0].anomalies + 1);
      MapSumUpdate(t, Traffic, m0, c);
      MapSumUpdate(t, AnomalyTally, m0, c);
    }
  }

  lemma TallyStep(timeline: map<int, MinuteCounts>, ds: seq<Detection>, k: int, t: map<int, MinuteCounts>)
    requires 0 <= k < |ds| && TalliedUpTo(timeline, ds, k, t)
    ensures var m := Minute(ds[k].timestamp);
            TalliedUpTo(timeline, ds, k + 1, if m in t then t[m := t[m].(anomalies := t[m].anomalies + 1)] else t)
  {
    TallyCountsStep(timeline, ds, k, t);
    TallySumsStep(timeline, ds, k, t);
  }

  /** The anomaly loop of `investigate_incident`: each detection whose
      minute is on the timeline bumps that minute's anomaly counter. */
  method TallyAnomalies(timeline: map<int, MinuteCounts>, ds: seq<Detection>) returns (t: map<int, MinuteCounts>)
    requires forall m :: m in timeline ==> timeline[m].anomalies == 0
    ensures TalliedUpTo(timeline, ds, |ds|, t)
  {
    t := timeline;
    assert Seqs.Count(ds[..0], InMinutes(timeline.Keys)) == 0;
    MapSumZero(timeline, AnomalyTally);
    for k := 0 to |ds|
      invariant TalliedUpTo(timeline, ds, k, t)
    {
      var minute := Minute(ds[k].timestamp);
      TallyStep(timeline, ds, k, t);
      if minute in t {
        t := t[minute := t[minute].(anomalies := t[minute].anomalies + 1)];
      }
    }
  }

  /** The ASes an evidence dictionary names: its `as_path` entries and its `leaker`. */
  function EvidenceAses(ev: Evidence): set<int> {
    match ev
    case PathAndOrigin(p, _) => set x | x in p
    case PathAndLeaker(p, l) => (set x | x in p) + {l}
    case PathExpectedActual(p, _, _) => set x | x in p
    case PathAndBaseline(p, _, _) => set x | x in p
    case SeenOrigins(_) => {}
  }

  /** The involved-AS loop of `investigate_incident` and the listing of the
      result: every AS some detection's evidence names, except the expected
      origin, each once. */
  method CollectInvolved(ds: seq<Detection>, expectedOrigin: int) returns (listed: seq<int>)
    ensures Seqs.Distinct(listed)
    ensures forall a :: a in listed <==> a != expectedOrigin && exists d :: d in ds && a in EvidenceAses(d.evidence)
  {
    var involved := {};
    for k := 0 to |ds|
      invariant forall a :: a in involved <==> exists d :: d in ds[..k] && a in EvidenceAses(d.evidence)
    {
      assert ds[..k + 1] == ds[..k] + [ds[k]];
      var ev := ds[k].evidence;
      if !ev.SeenOrigins? {
        involved := involved + set x | x in ev.asPath;
      }
      if ev.PathAndLeaker? {
        involved := involved + {ev.leaker};
      }
    }
    assert ds[..|ds|] == ds;
    involved := involved - {expectedOrigin};
    listed := Seqs.SetToSeq(involved);
  }

  /** The announcement and withdrawal totals never exceed the event count;
      they reach it exactly when every event is an "A" or a "W". */
  lemma {:induction false} AnnouncementsPlusWithdrawals(s: seq<BgpEvent>)
    ensures Seqs.Count(s, IsAnnouncement) + Seqs.Count(s, IsWithdrawal) <= |s|
    ensures Seqs.Count(s, IsAnnouncement) + Seqs.Count(s, IsWithdrawal) == |s| <==>
              forall i :: 0 <= i < |s| ==> IsAnnouncement(s[i]) || IsWithdrawal(s[i])
  {
    if s != [] {
      AnnouncementsPlusWithdrawals(s[1..]);
      assert forall i :: 1 <= i < |s| ==> s[i] == s[1..][i - 1];
      if !(IsAnnouncement(s[0]) || IsWithdrawal(s[0])) {
        assert Seqs.Count(s, IsAnnouncement) + Seqs.Count(s, IsWithdrawal) < |s|;
      }
    }
  }

  /** The investigation report; the ISO time strings, descriptions and
      collector list are left out. */
  datatype Investigation = Investigation(
    prefix: string, expectedOrigin: int, durationHours: real,
    totalEvents: nat, announcements: nat, withdrawals: nat,
    anomalies: seq<Detection>, involvedAses: seq<int>,
    timeline: map<int, MinuteCounts>, firstAnomaly: Option<int>)

  /** The report's timeline: one entry per minute holding relevant events,
      with that minute's announcements, its other events and its detections;
      traffic adds up to the event count and anomalies to the detection count. */
  ghost predicate TimelineOf(relevant: seq<BgpEvent>, ds: seq<Detection>, t: map<int, MinuteCounts>) {
    && (forall m :: m in t <==> exists j :: 0 <= j < |relevant| && Minute(relevant[j].timestamp) == m)
    && (forall m :: m in t ==>
          && t[m].announcements == Seqs.Count(relevant, AnnouncedIn(m))
          && t[m].withdrawals == Seqs.Count(relevant, OtherIn(m))
          && t[m].anomalies == Seqs.Count(ds, DetectedIn(m)))
    && MapSum(t, Traffic) == |relevant|
    && MapSum(t, AnomalyTally) == |ds|
  }

  /** Every detection falls in a minute of the timeline, since each carries
      the time of a relevant event. */
  lemma AllDetectionsOnTimeline(relevant: seq<BgpEvent>, ds: seq<Detection>, timeline: map<int, MinuteCounts>)
    requires TimedByEvents(relevant, ds)
    requires forall m :: m in timeline <==> exists j :: 0 <= j < |relevant| && Minute(relevant[j].timestamp) == m
    ensures Seqs.Count(ds, InMinutes(timeline.Keys)) == |ds|
  {
    forall k | 0 <= k < |ds| ensures InMinutes(timeline.Keys)(ds[k]) {
      var j :| 0 <= j < |relevant| && ds[k].timestamp == relevant[j].timestamp;
    }
    Seqs.FilterAllOrNone(ds, InMinutes(timeline.Keys));
  }

  lemma TimelineReport(relevant: seq<BgpEvent>, ds: seq<Detection>, timeline: map<int, MinuteCounts>, t: map<int, MinuteCounts>)
    requires TimelineUpTo(relevant, |relevant|, timeline)
    requires TalliedUpTo(timeline, ds, |ds|, t)
    requires TimedByEvents(relevant, ds)
    ensures TimelineOf(relevant, ds, t)
  {
    assert relevant[..|relevant|] == relevant;
    assert ds[..|ds|] == ds;
    AllDetectionsOnTimeline(relevant, ds, timeline);
  }

  /** `investigate_incident` over the updates of its time window: the
      relevant events, their detections (failing exactly when the detector
      raises), the event counts, the timeline, the involved ASes and the time
      of the first detection. */
  method InvestigateIncident(prefix: string, expectedOrigin: int, startTime: int, endTime: int, events: seq<BgpEvent>)
    returns (r: Result<Investigation>)
    ensures var relevant := RelevantEvents(events, prefix);
            r.Failure? <==> exists j :: 0 <= j < |relevant| && RaisesAt(relevant[j], Some(prefix))
    ensures r.Success? ==>
              var relevant := RelevantEvents(events, prefix);
              var inv := r.value;
              && inv.prefix == prefix && inv.expectedOrigin == expectedOrigin
              && inv.durationHours == (endTime - startTime) as real / 3600.0
              && inv.totalEvents == |relevant|
              && inv.announcements == Seqs.Count(relevant, IsAnnouncement)
              && inv.withdrawals == Seqs.Count(relevant, IsWithdrawal)
              && DetectionsOf(relevant, Some(expectedOrigin), Some(prefix), inv.anomalies)
              && TimelineOf(relevant, inv.anomalies, inv.timeline)
              && Seqs.Distinct(inv.involvedAses)
              && (forall a :: a in inv.involvedAses <==>
                    a != expectedOrigin && exists d :: d in inv.anomalies && a in EvidenceAses(d.evidence))
              && inv.firstAnomaly == (if inv.anomalies == [] then None else Some(inv.anomalies[0].timestamp))
  {
    var relevant := RelevantEvents(events, prefix);
    var detected := DetectEventAnomalies(relevant, Some(expectedOrigin), Some(prefix));
    if detected.Failure? {
      return Failure(detected.error);
    }
    var anomalies := detected.value;
    var timeline := BuildTimeline(relevant);
    var tallied := TallyAnomalies(timeline, anomalies);
    TimelineReport(relevant, anomalies, timeline, tallied);
    var involvedList := CollectInvolved(anomalies, expectedOrigin);
    var first := if anomalies != [] then Some(anomalies[0].timestamp) else None;
    r := Success(Investigation(
      prefix, expectedOrigin, (endTime - startTime) as real / 3600.0,
      |relevant|, Seqs.Count(relevant, IsAnnouncement), Seqs.Count(relevant, IsWithdrawal),
      anomalies, involvedList, tallied, first));
  }
}
