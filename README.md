# route-sherlock analysis core, modelled in Dafny

route-sherlock gathers routing data about Autonomous Systems (AS paths,
prefix announcements, neighbours, Internet-Exchange presence, RPKI
validation) from RIPEstat, PeeringDB, RIPE Atlas and archived BGP update
streams. From that data it derives risk and opportunity assessments. This
project models the analysis core of the repository and proves what it
promises:

- `paths.dfy`: the path analyser. It covers AS-path parsing, path records
  with prepend counts, path statistics, common transit ASes, and the MOAS,
  RPKI and unusual-path checks. It also covers the risk level of an anomaly
  report.
- `bgpstream.dfy`: the historical update replay. It covers update
  conversion and filtering (`get_updates`), and the baseline and
  more-specific, leak, hijack, path-leak and origin-change detection
  (`detect_anomalies`). It also covers the incident investigation with its
  per-minute timeline, anomaly tally and involved ASes
  (`investigate_incident`).
- `peering.dfy`: the peering analyser. It covers the candidate scan over
  shared exchanges with its scoring and ranking, the exchange
  recommendations and exchange scoring, and common peers. It also covers the
  peering report, the traffic-shift estimate and the two-network
  feasibility assessment and advice.
- `asn.dfy`: the ASN profiler. It covers the identity, routing footprint
  (including the IPv4 address estimate), RPKI status and connectivity
  facets. It also covers the health assessment and the ordered
  recommendation list.
- `analyzer.dfy`: the combined analyser. It covers the 0-100 health score,
  the ASN-or-prefix test of a lookup, and the prefix check.
- `commands.dfy`: the scoring inside the command-line commands. It covers
  the five-category peer-risk score and its risk level, the stability score
  and grade, the comparison winner, ASN normalisation and the duration
  argument.
- `cache.dfy`: the in-memory TTL cache, as a class over a map, with lazy
  eviction on read and a sweep.
- `analysis_models.dfy`, `peeringdb_models.dfy`, `ripestat_models.dfy` and
  `atlas_models.dfy`: the records and their derived properties.
- `seqs.dfy`, `text.dfy` and `wrappers.dfy`: shared support. This covers
  Python's `Counter`, `most_common`, stable descending sort, `str.strip`,
  `upper`, `lower`, `split`, `replace` and `int()`, plus the Option and
  Result types.

Every provider call is a parameter of the operation that makes it:

- `Option` is used where the source swallows every exception.
- `Fetch` (Ok / NotFound / Failed) is used where it tells PeeringDB's "not
  found" apart from other failures.
- An exception that escapes the source becomes the `Failure` case of a
  `Result`.

The clock is a `now` parameter. Python floats are exact `real`s. Where the
source iterates over a set, the model picks the elements in an unspecified
order (`:|`), and contracts state only what holds for every order.

Where the repository's description and its code differ, the model follows
the code:

- The replay builds its baseline in a separate first pass over every
  announcement of 1 to 3 hops, and only then detects anomalies.
- A path leak flags the transit ASes of the observed path. The baseline path
  that vouches for it must have at most two hops and the same endpoints.
- Common transit never counts a path's first (observer) AS. The threshold is
  taken over the raw path count, among the ten most frequent transit ASes.
- A failed exchange lookup in the peer-risk command, after the network was
  found, discards the recorded network entry. The policy score then falls to
  5 and the IRR security points are lost, rather than the category keeping
  its pre-deduction score.

Behaviours of the code that the proofs make explicit:

- Both churn deductions are non-monotone: 101 updates a day cost fewer
  points than 100 (`Commands.ChurnPenaltyNotMonotone`,
  `Commands.RatePenaltyNotMonotone`).
- The stability score never drops below 70, so the grades "Fair" and "Poor"
  are never given (`Commands.RunStability`).
- The peer-risk total never drops below 40, so the HIGH risk level and its
  "not recommended" verdict are never given (`Commands.NeverHighRisk`).
- An origin-change finding carries the first event's timestamp even when
  that event is a withdrawal.
- A more-specific announcement is a CRITICAL finding.
- A network with two ports at one exchange appears twice in that exchange's
  member rows. Its shared-exchange count then rises twice.

## Model

| member | source | states |
|---|---|---|
| Paths.TokenAsnMember | src/route_sherlock/analysis/paths.py:137-144 | a token contributes the ASN `v` exactly when it does not open an AS_SET (`{`) and `int()` reads it as `v` |
| Paths.TokenAsnsShort | src/route_sherlock/analysis/paths.py:134-145 | every token contributes at most one ASN, so the parse is never longer than the token list |
| Paths.TokenAsnsMembers | src/route_sherlock/analysis/paths.py:134-145 | an ASN is in the parsed path exactly when some token that is not an AS_SET parses to it |
| Paths.ParseAsPath | src/route_sherlock/analysis/paths.py:134-145 | the token loop returns, in order, the value of every whitespace-separated token that is not an AS_SET and parses; bad tokens are skipped, never raised |
| Paths.AdjacentEqualPairs | src/route_sherlock/analysis/paths.py:158-163 | a path of length n has at most n-1 prepends, none when n <= 1 |
| Paths.NoPrependingIffDistinctNeighbours | src/route_sherlock/analysis/paths.py:158-163 | the prepend count is 0 exactly when no two adjacent hops carry the same ASN |
| Paths.CreateAsPath | src/route_sherlock/analysis/paths.py:147-173 | hop i carries the i-th ASN at position i, flagged origin iff i = 0 and destination iff it is last; length, origin ASN (last, or 0 for an empty path), prepend count = adjacent equal pairs, has_prepending iff that count is positive |
| Paths.PathsThrough | src/route_sherlock/analysis/paths.py:186-189 | an AS is counted at most once per path, so its count never exceeds the number of paths |
| Paths.PathsThroughPositive | src/route_sherlock/analysis/paths.py:186-189 | an AS has a positive count exactly when it is a transit AS (neither first nor last hop) of some path of more than two hops |
| Paths.CountTransit | src/route_sherlock/analysis/paths.py:185-189 | the Counter holds exactly the ASes that transit some path, each mapped to the number of paths it transits |
| Paths.KeepFrequentKeeps | src/route_sherlock/analysis/paths.py:192-193 | the threshold filter keeps exactly the top entries whose count reaches half the path count, in the same non-increasing order, without duplicates, and drops nothing when all qualify |
| Paths.LeftOutOfTop | src/route_sherlock/analysis/paths.py:192-193 | a qualifying key missing from the filtered top ten was beaten by ten kept keys that count at least as much |
| Paths.TransitLeftOut | src/route_sherlock/analysis/paths.py:185-194 | a qualifying AS is missing from the common transit only behind ten kept ASes that transit at least as many paths |
| Paths.CommonTransitFromTop | src/route_sherlock/analysis/paths.py:185-194 | filtering the top ten of the Counter pass at one half of the paths meets the whole common-transit promise |
| Paths.FindCommonTransit | src/route_sherlock/analysis/paths.py:175-194 | at most ten distinct transit ASes, each on at least half of the paths, ordered by non-increasing count; a qualifying AS is missing only when ten others were returned, and then it transits no more paths than any returned one; none for no paths |
| Paths.ParsedPaths | src/route_sherlock/analysis/paths.py:99-106 | every path kept by the collection loop is non-empty |
| Paths.OriginSetSnoc | src/route_sherlock/analysis/paths.py:103-106 | appending a non-empty path adds exactly its last ASN to the origin set |
| Paths.CollectPaths | src/route_sherlock/analysis/paths.py:96-106 | the loop keeps, in response order and with duplicates, every present AS-path string that parses to a non-empty path, and the origin set is the set of their last ASNs |
| Paths.CollectOne | src/route_sherlock/analysis/paths.py:101-106 | one iteration appends the peer's parsed path when it is non-empty and adds its last ASN to the origins |
| Paths.MeanBetween | src/route_sherlock/analysis/paths.py:120-122 | the mean path length lies between the minimum and the maximum |
| Paths.LengthBounds | src/route_sherlock/analysis/paths.py:111-122 | min and max over the distinct paths bound the length of every raw path and are each attained by a raw path |
| Paths.LengthStats | src/route_sherlock/analysis/paths.py:111-122 | the mean is taken over the distinct paths and lies between the attained minimum and maximum |
| Paths.DescribeAll | src/route_sherlock/analysis/paths.py:118-120 | one record per path, in order, each describing its path as `_create_as_path` does |
| Paths.Summarise | src/route_sherlock/analysis/paths.py:111-127 | path count counts raw paths; at most 20 described distinct paths; length statistics; origins listed once each and equal to the last ASNs; the common transit ASes |
| Paths.AnalyzePaths | src/route_sherlock/analysis/paths.py:80-132 | a failed looking-glass fetch or no parsable path leaves the default analysis; otherwise every field is as `Summarise` states (the common transit being the top-ten choice of `FindCommonTransit`), for some enumeration of the distinct paths |
| Paths.CheckMoas | src/route_sherlock/analysis/paths.py:302-323 | one HIGH MOAS anomaly carrying the origin list and path count exactly when more than one origin AS is seen, otherwise none |
| Paths.CheckRpki | src/route_sherlock/analysis/paths.py:325-352 | nothing for an ASN resource ("AS..." in any case, or digits) or a failed validation; one CRITICAL anomaly with the expected and observed origins exactly when the status is "invalid" |
| Paths.FirstHeavilyPrepended | src/route_sherlock/analysis/paths.py:375-390 | the index found is of the first described path with more than five prepends; none means no such path |
| Paths.CheckUnusualPaths | src/route_sherlock/analysis/paths.py:354-392 | a MEDIUM anomaly first exactly when the longest path exceeds 10 hops, then one LOW anomaly for the first path with more than five prepends (the loop breaks), nothing else |
| Paths.UnusualPathShape | src/route_sherlock/analysis/paths.py:354-392 | at most two findings, all UNUSUAL_PATH_LENGTH for this resource; a MEDIUM one iff max length > 10, a LOW one iff some described path has more than five prepends |
| Paths.RiskLevelIsMaxSeverity | src/route_sherlock/analysis/paths.py:293-298 | the elif chain equals the maximum severity of the anomalies, LOW when there are none |
| Paths.RiskLevelBounds | src/route_sherlock/analysis/paths.py:293-298 | no anomaly is more severe than the report's level, and some anomaly attains it unless it is LOW |
| Paths.DetectAnomalies | src/route_sherlock/analysis/paths.py:258-300 | the report lists the MOAS findings, then the RPKI findings, then the unusual-path findings, and its risk level is their maximum severity |
| Paths.CriticalIffRpkiInvalid | src/route_sherlock/analysis/paths.py:283-298 | a snapshot report is CRITICAL exactly when the RPKI check found the prefix invalid |
| Paths.EmptyAnalysisQuiet | src/route_sherlock/analysis/paths.py:108-109 | an analysis left at its defaults (failed fetch, no path) raises neither a MOAS nor an unusual-path anomaly |
| Paths.ReportCounts | src/route_sherlock/analysis/paths.py:293-298 | for a report whose risk level is its maximum severity, the critical count is positive exactly when the report is CRITICAL, and a report with no anomaly is LOW |
| Paths.FreshReportConsistent | src/route_sherlock/analysis/models.py:220-233 | a report built from a resource alone has no anomaly, none critical, and risk LOW, its maximum severity |
| BgpStream.AnnouncementOrWithdrawal | src/route_sherlock/collectors/bgpstream.py:25-31 | no event is both an announcement and a withdrawal, and a type other than "A" and "W" is neither |
| BgpStream.ParseUpdatePath | src/route_sherlock/collectors/bgpstream.py:128-134 | a non-empty parsed path has one ASN per whitespace token (one bad token empties the whole path) |
| BgpStream.ParseAllAccepts | src/route_sherlock/collectors/bgpstream.py:130-134 | the all-or-nothing parse succeeds exactly when every token parses as an integer |
| BgpStream.ParseAllValues | src/route_sherlock/collectors/bgpstream.py:130-134 | a successful parse yields each token's value, in order |
| BgpStream.ParsersAgreeOnPlainPaths | src/route_sherlock/collectors/bgpstream.py:130-134 | on paths whose tokens are all plain integers, the update parser and the path-analysis parser give the same path |
| BgpStream.UpdateOrigin | src/route_sherlock/collectors/bgpstream.py:136 | the origin is present exactly when the path is non-empty, and is then its last ASN |
| BgpStream.Events | src/route_sherlock/collectors/bgpstream.py:123-152 | one event per stream element, in stream order |
| BgpStream.ElemToEvent | src/route_sherlock/collectors/bgpstream.py:125-152 | the event carries the element's time, type, prefix and peer, the all-or-nothing parsed path and its origin |
| BgpStream.GetUpdates | src/route_sherlock/collectors/bgpstream.py:87-152 | the events kept are exactly those passing both filters (prefix text starts with the filter's network part; origin equals a non-zero origin filter), in stream order; with an origin filter every kept event has that origin |
| BgpStream.LeakOrHijack | src/route_sherlock/collectors/bgpstream.py:206-226 | an announcement from a non-zero origin other than the expected one gives exactly one finding, a leak when the expected origin is still on the path and a hijack otherwise; otherwise none |
| BgpStream.BuildBaseline | src/route_sherlock/collectors/bgpstream.py:177-182 | the baseline is the set of paths of announcements with 1 to 3 hops |
| BgpStream.MoreSpecificStep | src/route_sherlock/collectors/bgpstream.py:192-204 | the step fails exactly when a mask does not parse (the source raises); otherwise one CRITICAL more-specific finding when the announced mask is longer and the prefix starts with the expected network text |
| BgpStream.FlagIntermediate | src/route_sherlock/collectors/bgpstream.py:237-252 | every transit AS not already flagged is flagged and reported once against the baseline path, at HIGH severity |
| BgpStream.FlaggedOnceSnoc | src/route_sherlock/collectors/bgpstream.py:238-240 | reporting an AS not yet flagged keeps every AS reported at most once |
| BgpStream.FlaggedSnoc | src/route_sherlock/collectors/bgpstream.py:238-240 | a path-leak report adds exactly its AS to the flagged set; other findings add nothing |
| BgpStream.PathLeakStep | src/route_sherlock/collectors/bgpstream.py:228-253 | when the test applies (expected origin, more than two hops, a vouching baseline path of at most two hops with the same endpoints) every transit AS is flagged, the new ones reported once and all against the same baseline path; otherwise nothing is reported or flagged |
| BgpStream.FlaggedAppend | src/route_sherlock/collectors/bgpstream.py:238-240 | the flagged ASes of two report lists are the union of each list's |
| BgpStream.FlaggedOnceAppend | src/route_sherlock/collectors/bgpstream.py:238-240 | two lists that each report an AS at most once, and share no AS, together still do |
| BgpStream.NoPathLeaks | src/route_sherlock/collectors/bgpstream.py:238-240 | findings that are not path leaks flag no AS |
| BgpStream.MoreSpecificOfAdded | src/route_sherlock/collectors/bgpstream.py:184-253 | of one announcement's findings, the more-specific filter keeps exactly the more-specific ones |
| BgpStream.MismatchOfAdded | src/route_sherlock/collectors/bgpstream.py:184-253 | of one announcement's findings, the mismatch filter keeps exactly the leak and hijack ones |
| BgpStream.OwnFindings | src/route_sherlock/collectors/bgpstream.py:192-226 | an announcement's more-specific and mismatch findings carry its timestamp |
| BgpStream.OriginChanges | src/route_sherlock/collectors/bgpstream.py:263-274 | one HIGH origin-change finding per seen origin other than the expected one, each listing every seen origin once |
| BgpStream.OriginChangesLast | src/route_sherlock/collectors/bgpstream.py:263-274 | the origin-change findings come after every other finding |
| BgpStream.ReplayEvent | src/route_sherlock/collectors/bgpstream.py:184-261 | one event of the second pass: fails exactly when it raises on a mask; otherwise it appends, after the findings so far, exactly its own block: its more-specific finding, then its leak or hijack finding, then one path leak per transit AS not flagged before, all at its time |
| BgpStream.QuietStep | src/route_sherlock/collectors/bgpstream.py:185-186 | an event that is not an announcement adds no finding |
| BgpStream.AnnouncementBlock | src/route_sherlock/collectors/bgpstream.py:192-253 | an announcement's more-specific, mismatch and path-leak findings appended in that order form its block |
| BgpStream.PassStep | src/route_sherlock/collectors/bgpstream.py:184-261 | appending the next event's block to a cut pass extends the cut by one block |
| BgpStream.PassThenChanges | src/route_sherlock/collectors/bgpstream.py:263-274 | origin-change findings appended after the pass leave every block in place |
| BgpStream.SecondPass | src/route_sherlock/collectors/bgpstream.py:184-261 | the pass fails exactly when some announcement raises on a mask; otherwise its findings are cut into one block per event, in event order, each block what its event adds given the ASes flagged before it, and the seen origins are the non-zero origins of the announcements |
| BgpStream.DetectEventAnomalies | src/route_sherlock/collectors/bgpstream.py:154-276 | fails exactly when an announcement raises on a mask; otherwise the findings are the per-event blocks in event order followed only by origin-change findings; per kind, more-specific and mismatch findings in event order, path-leak findings naming every transit AS of a vouched-for path once, against its first announcement |
| BgpStream.SilentBlock | src/route_sherlock/collectors/bgpstream.py:184-253 | an event's block is empty exactly when the event adds nothing in the second pass |
| BgpStream.UnflaggedLeaks | src/route_sherlock/collectors/bgpstream.py:238-240 | path-leak findings that flag no AS are no findings |
| BgpStream.BlockMember | src/route_sherlock/collectors/bgpstream.py:192-253 | every finding of an event's block belongs to an announcement, carries its time, is no origin change, and a path leak in it names a transit AS not flagged before |
| BgpStream.FindingEvent | src/route_sherlock/collectors/bgpstream.py:184-261 | every finding before the origin changes lies in the block of one announcement, after all earlier blocks, carries its time, and a path leak names a transit AS of it that no earlier event flagged |
| BgpStream.FirstAnomaly | src/route_sherlock/collectors/bgpstream.py:184-274 | the first finding carries the time of the first event that adds anything, all earlier events adding nothing; when no event adds anything it is an origin change at the first event's time |
| BgpStream.FinishPass | src/route_sherlock/collectors/bgpstream.py:263-276 | the completed pass followed by the origin-change findings is cut as the whole detector promises |
| BgpStream.MoreSpecificOnAnnouncements | src/route_sherlock/collectors/bgpstream.py:184-186 | only announcements produce more-specific findings |
| BgpStream.MismatchOnAnnouncements | src/route_sherlock/collectors/bgpstream.py:184-186 | only announcements produce leak or hijack findings |
| BgpStream.InjectedOnAnnouncements | src/route_sherlock/collectors/bgpstream.py:184-186 | only announcements flag path-leak ASes |
| BgpStream.OriginsOnAnnouncements | src/route_sherlock/collectors/bgpstream.py:184-186 | only announcements add seen origins |
| BgpStream.BaselineOfAnnouncements | src/route_sherlock/collectors/bgpstream.py:178-182 | only announcements enter the baseline |
| BgpStream.Minute | src/route_sherlock/collectors/bgpstream.py:325 | the minute of a timestamp is a multiple of 60 at most 59 seconds before it |
| BgpStream.ExactPrefixRelevant | src/route_sherlock/collectors/bgpstream.py:310-313 | an update of the investigated prefix itself is always relevant |
| BgpStream.MapSumUpdate | src/route_sherlock/collectors/bgpstream.py:324-331 | writing one minute's counters changes the timeline total by the difference |
| BgpStream.BuildTimeline | src/route_sherlock/collectors/bgpstream.py:323-331 | one timeline entry per minute holding relevant events, counting that minute's announcements and its other events; the counts add up to the number of events |
| BgpStream.TallyAnomalies | src/route_sherlock/collectors/bgpstream.py:333-336 | each minute counts the detections that fall in it; detections outside every minute are dropped |
| BgpStream.AllDetectionsOnTimeline | src/route_sherlock/collectors/bgpstream.py:333-336 | every detection falls in a minute of the timeline, because each carries the time of a relevant event |
| BgpStream.TimelineReport | src/route_sherlock/collectors/bgpstream.py:323-336 | traffic on the timeline adds up to the event count and anomalies to the detection count |
| BgpStream.CollectInvolved | src/route_sherlock/collectors/bgpstream.py:339-345 | the involved ASes are every AS a detection's path or leaker names, except the expected origin, each once |
| BgpStream.AnnouncementsPlusWithdrawals | src/route_sherlock/collectors/bgpstream.py:356-357 | announcements plus withdrawals never exceed the event count, and equal it exactly when every event is an "A" or a "W" |
| BgpStream.InvestigateIncident | src/route_sherlock/collectors/bgpstream.py:278-375 | fails exactly when detection raises; otherwise the report has the relevant-event count, announcement and withdrawal counts, the detections as specified, the timeline, the involved ASes and the time of the first detection, which `FirstAnomaly` pins to the first event adding a finding |
| Peering.IxIds | src/route_sherlock/analysis/peering.py:94 | an exchange id is in the set exactly when some connection row carries it |
| Peering.MemberAsns | src/route_sherlock/analysis/peering.py:241 | an ASN is in the set exactly when some member row carries it |
| Peering.ScoreCandidate | src/route_sherlock/analysis/peering.py:184-203 | the score lies between the shared-exchange count and that count plus 7; an open or selective policy adds at least 1, an upstream at least 3, and a non-upstream at most 3 in total for policy and upstream |
| Peering.ScoreOneMoreIx | src/route_sherlock/analysis/peering.py:192-193 | one more shared exchange adds exactly one point |
| Peering.ScoreUpstreamBonus | src/route_sherlock/analysis/peering.py:195-197 | being a current upstream is worth exactly three points |
| Peering.ScoreOpenOverSelective | src/route_sherlock/analysis/peering.py:186-190 | an open policy, in any letter case, scores exactly one point more than a selective one |
| Peering.VisitKeeps | src/route_sherlock/analysis/peering.py:117-151 | one member row keeps the scan invariant (target never a candidate; every candidate seen, open or selective, with as many exchange names as its count) and only grows the scan, never reconsidering a rejected ASN |
| Peering.ScanMembersKeeps | src/route_sherlock/analysis/peering.py:117-151 | the invariant and growth hold across one exchange's member rows |
| Peering.ScanIxesKeeps | src/route_sherlock/analysis/peering.py:112-155 | the invariant holds across any sequence of exchanges, and an ASN rejected at first sight is never a candidate later |
| Peering.Values | src/route_sherlock/analysis/peering.py:157 | the candidates are listed in creation order, one per candidate |
| Peering.Scored | src/route_sherlock/analysis/peering.py:160-161 | each candidate keeps every field but its score, which is its computed score |
| Peering.ScoredGood | src/route_sherlock/analysis/peering.py:157-161 | every scored candidate is not the target, has an open or selective policy, a shared-exchange count equal to its number of exchange names and at least one, and its computed score |
| Peering.RankedCandidates | src/route_sherlock/analysis/peering.py:157-168 | the ranked list is sorted by non-increasing score, no longer than the maximum, and holds only such candidates |
| Peering.ScanIx | src/route_sherlock/analysis/peering.py:117-151 | the loop over one exchange's member rows computes the scan specification |
| Peering.ScanAll | src/route_sherlock/analysis/peering.py:112-155 | the loop over the chosen exchanges computes the scan specification, skipping an exchange whose data cannot be fetched |
| Peering.ScoreAll | src/route_sherlock/analysis/peering.py:160-161 | the scoring loop computes the scored list |
| Peering.FindPeeringCandidates | src/route_sherlock/analysis/peering.py:73-168 | fails exactly when listing the target's connections fails other than "not found"; no candidates when not found or on no exchange; otherwise at most ten distinct exchanges of the target are scanned and the result is the ranked scan: sorted by non-increasing score, at most the maximum, good candidates, each a member of a scanned exchange whose member list and record were fetched |
| Peering.ScanAndRank | src/route_sherlock/analysis/peering.py:112-168 | the scan, scoring and ranking together give the ranked scan, sorted, truncated, made of good candidates, each a member of a scanned exchange |
| Peering.ScanMembersFrom | src/route_sherlock/analysis/peering.py:117-151 | scanning one exchange adds candidates only from its member list |
| Peering.ScanIxesFrom | src/route_sherlock/analysis/peering.py:112-155 | every scanned candidate is a member of a scanned exchange whose members and record were fetched |
| Peering.RankedFrom | src/route_sherlock/analysis/peering.py:157-168 | ranking keeps only scanned candidates |
| Peering.CandidatesCanPeer | src/route_sherlock/analysis/models.py:251-253 | every candidate the search keeps can peer at some shared exchange |
| Peering.OpenPolicyPeerable | src/route_sherlock/models/peeringdb.py:112-115 | an open network is accepted by the candidate search with the top policy points and is never a restrictive-policy blocker |
| Peering.ScoreIx | src/route_sherlock/analysis/peering.py:344-369 | with no upstreams the score is the size bonus plus half a point per upstream present; otherwise the coverage term adds between 0 and 5 |
| Peering.ScoreIxMonotoneInUpstreams | src/route_sherlock/analysis/peering.py:353-367 | more upstreams present never lower the exchange's score |
| Peering.ScoreIxMonotoneInMembers | src/route_sherlock/analysis/peering.py:358-364 | more members never lower the exchange's score |
| Peering.NewIxIds | src/route_sherlock/analysis/peering.py:300-302 | only exchanges the target is not on are counted |
| Peering.UpstreamRows | src/route_sherlock/analysis/peering.py:297-305 | the upstream connections counted never include an exchange the target is on |
| Peering.RecommendationsGood | src/route_sherlock/analysis/peering.py:308-331 | every recommendation is for a considered exchange the target is not on, with at least ten members, its tally as potential peers, the member count mentioned exactly when over 100, and its exchange score |
| Peering.TallyRows | src/route_sherlock/analysis/peering.py:300-302 | the loop over one upstream's connections adds them to the per-exchange counter |
| Peering.TallyRowStep | src/route_sherlock/analysis/peering.py:300-302 | one connection row bumps the counter of its exchange exactly when the target is not on it |
| Peering.TallyUpstreams | src/route_sherlock/analysis/peering.py:295-305 | the counter holds, per exchange, the number of scanned upstream connections at exchanges the target is not on |
| Peering.BuildRecommendations | src/route_sherlock/analysis/peering.py:308-334 | the loop over the considered exchanges builds the recommendation list specification |
| Peering.RankRecommendations | src/route_sherlock/analysis/peering.py:308-342 | the result is exactly the recommendations of the considered exchanges (in their order), sorted stably by non-increasing score and cut to the maximum |
| Peering.TallyAndRank | src/route_sherlock/analysis/peering.py:297-342 | the most tallied exchanges are considered, in non-increasing tally order with none left out that counts more, and the result is their ranked recommendations |
| Peering.RecommendIxes | src/route_sherlock/analysis/peering.py:262-342 | fails exactly when listing the target's connections fails other than "not found"; none when not found; otherwise at most twenty distinct upstreams are tallied, the most tallied exchanges are considered, and the result is exactly their recommendations, sorted by score and cut to the maximum |
| Peering.PresentWithAdd | src/route_sherlock/analysis/peering.py:239-246 | one more exchange adds its members to a network's presence exactly when the network is a member there |
| Peering.PresenceStep | src/route_sherlock/analysis/peering.py:239-246 | the loop step over one shared exchange updates each network's presence accordingly |
| Peering.CollectPresence | src/route_sherlock/analysis/peering.py:239-246 | the walk completes exactly when every shared exchange's member list can be fetched, and then gives each network the members of the shared exchanges where it is a member |
| Peering.FindCommonPeers | src/route_sherlock/analysis/peering.py:205-256 | the result is strictly ascending and excludes both networks; it is empty when a fetch fails or no exchange is shared; otherwise it holds exactly the networks present with both |
| Peering.TrafficShift | src/route_sherlock/analysis/peering.py:474-480 | the shift lies in 0..50, is zero exactly when no candidate scores above 5, is five per such candidate below the cap and the cap from ten such candidates |
| Peering.CountPeers | src/route_sherlock/analysis/peering.py:451-460 | the peer count is the number of distinct members of the target's exchanges, other than the target, at exchanges whose member list can be fetched |
| Peering.GetPeeringReport | src/route_sherlock/analysis/peering.py:430-485 | fails exactly when the target's network or connection fetch fails other than "not found"; "not found" leaves the defaults (keeping the name once fetched); otherwise the report has the exchange count, the peer count, the candidates of the ranked candidate search (at most 20), the recommendations of the exchange search (at most 10) and the traffic shift of the candidates |
| Peering.AssessFeasibility | src/route_sherlock/analysis/peering.py:510-523 | feasibility is low exactly without common locations, medium exactly when there are some and either policy is restrictive, high otherwise; the blockers are "No common locations", then the second network's, then the first network's restrictive-policy note |
| Peering.PeeringAdvice | src/route_sherlock/analysis/peering.py:563-582 | peering at the first common exchange exactly when feasibility is high and an exchange is shared; negotiation or joining an exchange first when medium; private peering when only facilities are shared; exchange expansion otherwise |
| Peering.AnalyzePeeringOpportunity | src/route_sherlock/analysis/peering.py:487-561 | fails exactly on a fetch failure other than "not found"; an assessment exactly when all three fetches succeed, with the opportunity count, the feasibility and blockers exactly as `AssessFeasibility` states them for the fetched networks (low without a common location, medium when either policy is restrictive, high otherwise), the advice for that feasibility, and the expansion advice exactly when low |
| Peering.OpenSharedHigh | src/route_sherlock/analysis/peering.py:510-523 | two networks with "Open" policies sharing an exchange get high feasibility and no blockers |
| Peering.ExpansionOnlyWhenLow | src/route_sherlock/analysis/peering.py:570-582 | with the assessed feasibility, expansion is advised exactly when feasibility is low |
| Asn.GetIdentity | src/route_sherlock/analysis/asn.py:93-121 | fails exactly when PeeringDB fails other than with "not found"; the RIPEstat holder names the network and PeeringDB's name only when the holder is missing or empty; the RIR comes from RIPEstat, empty without it; type and website come from PeeringDB when found; organisation name and country only when the network has an org id and the organisation fetch succeeds, otherwise empty |
| Asn.Pow2Monotone | src/route_sherlock/analysis/asn.py:147 | a longer exponent never gives a smaller power of two |
| Asn.BlockSize | src/route_sherlock/analysis/asn.py:147 | a block is positive, at least one address for a mask of at most 32 bits and a fraction for a longer one |
| Asn.AddressTotalAppend | src/route_sherlock/analysis/asn.py:143-149 | the estimate is additive over a split of the prefix list |
| Asn.MalformedSkipped | src/route_sherlock/analysis/asn.py:145-149 | a prefix without a mask part, or whose mask does not parse, adds nothing |
| Asn.Pow2Add | src/route_sherlock/analysis/asn.py:147 | powers of two multiply by adding exponents |
| Asn.AddressSpaceIsPow2 | src/route_sherlock/analysis/asn.py:147 | 2^32 is the size of the IPv4 address space |
| Asn.WellMaskedBlock | src/route_sherlock/analysis/asn.py:147 | a mask between 0 and 32 stands for between 1 and 2^32 addresses |
| Asn.AddressTotalBounds | src/route_sherlock/analysis/asn.py:143-150 | with every mask between 0 and 32 the estimate lies between the prefix count and that count times 2^32 |
| Asn.EstimateIpv4Addresses | src/route_sherlock/analysis/asn.py:143-150 | the loop computes the address estimate, which is never negative |
| Asn.GetRoutingFootprint | src/route_sherlock/analysis/asn.py:123-163 | the prefix counts and the estimate come from the prefix fetch and are 0 when it fails; upstream, downstream and peer counts (left plus right neighbours) come from the neighbour fetch and are 0 when it fails |
| Asn.CoveragePercent | src/route_sherlock/analysis/asn.py:191 | coverage times the total is 100 times the valid count; it lies in 0..100, is positive exactly when a prefix is valid and 100 exactly when all are |
| Asn.GetRpkiStatus | src/route_sherlock/analysis/asn.py:165-195 | a failed fetch leaves the defaults; otherwise the three counts are the list sizes, ROAs are present exactly when a prefix is valid, and coverage is the valid share in percent, 0 when nothing was checked; coverage is 100 exactly when ROAs exist and nothing is invalid or not found |
| Asn.DeployedIffMajorityValid | src/route_sherlock/analysis/models.py:87-89 | a status built from the validator's counts is deployed exactly when more than half of the checked prefixes are valid, and never without an answer |
| Asn.MajorityShare | src/route_sherlock/analysis/asn.py:191 | a coverage share lies above one half exactly when the valid count is more than half of the total |
| Asn.GetConnectivityProfile | src/route_sherlock/analysis/asn.py:197-232 | exchange and facility counts and at most ten exchange names, in order, come from the presence fetch; policy, IRR as-set, looking glass and route server only when both the presence and the network fetch succeed; the first five upstreams from their own fetch |
| Asn.IssueCount | src/route_sherlock/analysis/asn.py:303-319 | at most four issues; none exactly when nothing is invalid, ROAs exist, there are at least two upstreams and the exchange presence is neither one nor zero with prefixes announced; invalid prefixes count at least two |
| Asn.StatusFor | src/route_sherlock/analysis/asn.py:321-328 | never UNKNOWN; HEALTHY exactly with no issue, CRITICAL exactly from three issues |
| Asn.StatusMonotone | src/route_sherlock/analysis/asn.py:321-328 | more issues never give a healthier status |
| Asn.AssessHealth | src/route_sherlock/analysis/asn.py:296-328 | the status is the one for the issue count, never UNKNOWN, and never HEALTHY with invalid prefixes |
| Asn.GetProfile | src/route_sherlock/analysis/asn.py:257-294 | fails exactly when the identity fails; otherwise each facet is the one its builder makes from the same answers (identity, footprint, RPKI status, connectivity), its health is the status of its own facets' issue count and never UNKNOWN, and its coverage lies in 0..100 |
| Asn.HasKindAppend | src/route_sherlock/analysis/asn.py:341-404 | a kind is in a concatenation exactly when it is in one of the parts |
| Asn.ItemIfKinds | src/route_sherlock/analysis/asn.py:373-402 | a conditional item contributes its kind exactly when its condition holds |
| Asn.RpkiItemKinds | src/route_sherlock/analysis/asn.py:343-370 | the RPKI item is present exactly when prefixes are invalid, ROAs are missing or coverage is below 100 |
| Asn.OrderedAppend | src/route_sherlock/analysis/asn.py:341-404 | appending items of higher rank keeps the fixed kind order |
| Asn.ChainOrdered | src/route_sherlock/analysis/asn.py:341-404 | the four pieces in RPKI, upstream, exchange, IRR order give an ordered list |
| Asn.ItemRanked | src/route_sherlock/analysis/asn.py:373-402 | a conditional item is ordered and has its kind's rank |
| Asn.RpkiItemRanked | src/route_sherlock/analysis/asn.py:343-370 | the RPKI item has rank 0 |
| Asn.RecommendationConditions | src/route_sherlock/analysis/asn.py:343-402 | each kind is recommended exactly under its condition: RPKI for invalid prefixes, missing ROAs or partial coverage; an upstream for fewer than two; an exchange for none with more than ten prefixes; IRR for an empty as-set |
| Asn.RecommendationOrder | src/route_sherlock/analysis/asn.py:341-404 | the kinds come in the fixed order RPKI, upstream, exchange, IRR, each at most once, so at most four items |
| Asn.RecommendationPriorities | src/route_sherlock/analysis/asn.py:343-402 | the RPKI item is HIGH exactly for invalid prefixes, MEDIUM exactly for missing ROAs, LOW exactly for partial coverage; upstream is HIGH, exchange MEDIUM, IRR LOW |
| Asn.GetRecommendations | src/route_sherlock/analysis/asn.py:330-404 | the method builds the recommendation list specification |
| Analyzer.RpkiDeduction | src/route_sherlock/analysis/analyzer.py:279-285 | with a coverage in 0..100 the deduction lies in 0..30 and tells the causes apart: exactly 30 for invalid prefixes, exactly 20 for missing ROAs, at most 10 for partial coverage |
| Analyzer.ConnectivityDeduction | src/route_sherlock/analysis/analyzer.py:287-291 | the deduction lies in 0..25 and is zero exactly with two upstreams and an exchange |
| Analyzer.AnomalyDeduction | src/route_sherlock/analysis/analyzer.py:293-300 | ten points per risk level above LOW, nothing without an anomaly report, at most 30 |
| Analyzer.StatusCap | src/route_sherlock/analysis/analyzer.py:302-306 | the cap never raises the score; CRITICAL caps at 40, WARNING at 70, any other status leaves it |
| Analyzer.HealthScore | src/route_sherlock/analysis/analyzer.py:272-308 | 50 without a profile; always within 0..100 |
| Analyzer.CalculateHealthScore | src/route_sherlock/analysis/analyzer.py:272-308 | the method computes the health score, within 0..100 |
| Analyzer.HealthScoreCaps | src/route_sherlock/analysis/analyzer.py:302-306 | a CRITICAL profile never scores above 40, a WARNING one never above 70 |
| Analyzer.HealthScoreFloor | src/route_sherlock/analysis/analyzer.py:279-308 | with a coverage in 0..100 the deductions never exceed 85, so the score is at least 15 |
| Analyzer.PerfectScore | src/route_sherlock/analysis/analyzer.py:272-308 | full coverage, two upstreams, an exchange, no anomaly risk and a HEALTHY status score exactly 100 |
| Analyzer.ScoreFallsWithRisk | src/route_sherlock/analysis/analyzer.py:293-308 | a higher anomaly risk never raises the score |
| Analyzer.CapMonotone | src/route_sherlock/analysis/analyzer.py:302-306 | the status cap preserves order |
| Analyzer.ClassifyResource | src/route_sherlock/analysis/analyzer.py:150-154 | text that, trimmed and upper-cased, starts with "AS" or is all digits is an ASN, which is its normalised number, or fails when that does not parse; anything else is a prefix, trimmed and upper-cased |
| Analyzer.AsnClassified | src/route_sherlock/analysis/analyzer.py:150-154 | text that reads as an ASN and normalises to a number is that ASN |
| Analyzer.LookupPlainDigits | src/route_sherlock/analysis/analyzer.py:153-154 | a plain number is the ASN of its digits |
| Analyzer.LookupUpperAs | src/route_sherlock/analysis/analyzer.py:153-154 | "AS" followed by digits is the ASN of the digits |
| Analyzer.LookupLowerAs | src/route_sherlock/analysis/analyzer.py:150-154 | "as" followed by digits is the same ASN, since the text is upper-cased first |
| Analyzer.LookupAsnForms | src/route_sherlock/analysis/analyzer.py:150-154 | the plain, "AS" and "as" forms of a number are the same ASN |
| Analyzer.CheckPrefix | src/route_sherlock/analysis/analyzer.py:310-341 | a prefix is MOAS exactly with more than one origin and healthy exactly without anomalies (so with no critical one); origins, path count, anomaly count and risk are carried over |
| Text.NormalizeIgnoresCase | src/route_sherlock/cli/commands.py:31-32 | the ASN normalisation does not depend on letter case |
| Text.NormalizeDigits | src/route_sherlock/cli/commands.py:31-32 | a run of digits, bare or behind "AS", normalises to its value |
| Commands.ParseDuration | src/route_sherlock/cli/commands.py:366-374 | without "h" or "d" the default number of hours applies; days only without an "h"; a failure only when a unit letter is present and the rest does not parse |
| Commands.DurationWithUnit | src/route_sherlock/cli/commands.py:366-374 | a number followed by "h" or "d" is that many hours or days |
| Commands.MixedUnitsRaise | src/route_sherlock/cli/commands.py:829-837 | mixed units such as "1d2h" raise instead of being summed |
| Commands.Winner | src/route_sherlock/cli/commands.py:772-777 | a tie exactly on equal values; otherwise the first network wins exactly when its value is larger, or smaller when lower is better |
| Commands.WinnerSymmetry | src/route_sherlock/cli/commands.py:772-777 | swapping the two networks swaps the winner, and "lower is better" equals "higher is better" on swapped values |
| Commands.IxTier | src/route_sherlock/cli/commands.py:1060-1071 | the exchange tier lies in 0..7 and is 0 exactly without an exchange |
| Commands.IxTierMonotone | src/route_sherlock/cli/commands.py:1060-1071 | more exchanges never give fewer points |
| Commands.ChurnPenalty | src/route_sherlock/cli/commands.py:1112-1135 | the churn deduction is at most 25 and nothing up to ten updates a day |
| Commands.ChurnPenaltyNotMonotone | src/route_sherlock/cli/commands.py:1121-1133 | the deduction is not monotone: 100 updates in a day cost 10 points, 101 cost only 5 |
| Commands.PolicyScore | src/route_sherlock/cli/commands.py:1219-1241 | 0 exactly for an empty policy, 10 exactly for "open", 7 for "selective", 3 for "restrictive" in any letter case, otherwise 5 |
| Commands.MaturitySection | src/route_sherlock/cli/commands.py:1024-1093 | nothing without a PeeringDB entry; otherwise 5 plus 5 for an IRR as-set, 3 for a policy URL and the exchange tier, within 0..20; the network entry the later sections read survives only when every PeeringDB call succeeded |
| Commands.StabilitySection | src/route_sherlock/cli/commands.py:1100-1146 | 30 when the update count cannot be fetched, otherwise 30 less the churn deduction, within 5..30 |
| Commands.IncidentSection | src/route_sherlock/cli/commands.py:1153-1214 | 25 exactly with a single upstream, otherwise 30 |
| Commands.SecuritySection | src/route_sherlock/cli/commands.py:1246-1260 | 5, plus 3 for a recorded IRR as-set, plus 2 for at least two upstreams |
| Commands.ScorePeerRisk | src/route_sherlock/cli/commands.py:1024-1260 | the five section scores are the ones `SectionsOf` states from the fetched facts (maturity, stability, incident, policy, security as above), within their ranges; a failed exchange lookup after the network was found leaves the policy at 5 and drops the IRR security points |
| Commands.RiskFor | src/route_sherlock/cli/commands.py:1273-1290 | LOW exactly from 80, MODERATE exactly from 60 to 79, ELEVATED from 40 to 59, HIGH below 40 |
| Commands.RiskThresholds | src/route_sherlock/cli/commands.py:1273-1290 | a higher total never gives a higher risk, and each threshold separates its neighbours |
| Commands.RunPeerRisk | src/route_sherlock/cli/commands.py:976-1291 | the five section scores are the ones `SectionsOf` states from the facts, and the total is their sum, between 40 and 100, so the level is never HIGH; its risk level and recommendation follow the thresholds; with nothing fetched it is 70 less the churn deduction |
| Commands.NeverHighRisk | src/route_sherlock/cli/commands.py:1024-1290 | for any facts the five sections total at least 40 (at least 5 maturity points for a known network, 5 policy points for an unknown one, and at least 5 + 25 + 5 from the rest), so the risk is never HIGH and the verdict never "not recommended" |
| Commands.UnknownSingleHomed | src/route_sherlock/cli/commands.py:1024-1290 | a network unknown to PeeringDB, with no update count and a single upstream, totals 0 + 30 + 25 + 5 + 5 = 65: MODERATE, acceptable |
| Commands.RatePenalty | src/route_sherlock/cli/commands.py:582-590 | the update-rate deduction is at most 30 and nothing up to ten updates a day |
| Commands.RatePenaltyNotMonotone | src/route_sherlock/cli/commands.py:583-590 | the deduction is not monotone: 100 updates in a day cost 15 points, 101 cost 10 |
| Commands.GradeFor | src/route_sherlock/cli/commands.py:595-606 | Excellent exactly from 90, Good from 70 to 89, Fair from 50 to 69 |
| Commands.RunStability | src/route_sherlock/cli/commands.py:538-606 | the score is 100 less the rate deduction (100 when the fetch fails), between 70 and 100, so only Excellent or Good is ever given |
| Cache.EntryFor | src/route_sherlock/cache/store.py:65-68 | a ttl of None or 0 stores no expiry; any other ttl expires that many seconds after now |
| Cache.Live | src/route_sherlock/cache/store.py:78-87 | the entries a sweep keeps are exactly those not stale, unchanged |
| Cache.ReadBackWithinTtl | src/route_sherlock/cache/store.py:52-68 | a stored value reads back until its expiry, inclusive, and forever without one |
| Cache.GoneAfterTtl | src/route_sherlock/cache/store.py:52-68 | after its expiry a stored value reads as missing |
| Cache.SetIsLocal | src/route_sherlock/cache/store.py:65-68 | storing one key leaves every other key's read unchanged |
| Cache.MissingStaysMissing | src/route_sherlock/cache/store.py:52-63 | a key missing at some time stays missing later |
| Cache.SweepInvisible | src/route_sherlock/cache/store.py:52-87 | a sweep never changes what a read at the same time answers |
| Cache.LiveSize | src/route_sherlock/cache/store.py:78-92 | a sweep shrinks the size by exactly the number of stale entries |
| Cache.MemoryCache.constructor | src/route_sherlock/cache/store.py:49-50 | a new cache is empty |
| Cache.MemoryCache.Get | src/route_sherlock/cache/store.py:52-63 | answers the read at now; a stale entry is removed, shrinking the size by one; otherwise nothing changes |
| Cache.MemoryCache.Set | src/route_sherlock/cache/store.py:65-68 | stores or overwrites this key only, with its expiry |
| Cache.MemoryCache.Delete | src/route_sherlock/cache/store.py:70-72 | removes this key only, and nothing when it is absent |
| Cache.MemoryCache.Clear | src/route_sherlock/cache/store.py:74-76 | the cache becomes empty |
| Cache.MemoryCache.CleanupExpired | src/route_sherlock/cache/store.py:78-87 | leaves exactly the live entries and returns the number of stale ones, by which the size drops |
| AnalysisModels.MaxRisk | src/route_sherlock/analysis/models.py:23-28 | the more severe of two risk levels is one of them and at least as severe as both |
| AnalysisModels.DeploymentThreshold | src/route_sherlock/analysis/models.py:87-89 | the 50 percent threshold is strict, and a fresh status is not deployed |
| AnalysisModels.NewAsPathSettled | src/route_sherlock/analysis/models.py:146-160 | the constructor's filling-in is settled: rebuilding a built path from its own fields changes nothing, and a non-empty path given no length and no origin gets its own length and last AS |
| AnalysisModels.CriticalCount | src/route_sherlock/analysis/models.py:231-233 | the critical count is at most the anomaly count, zero exactly when none is critical and equal to it exactly when all are |
| AtlasModels.PacketLoss | src/route_sherlock/models/atlas.py:181-186 | 0 when nothing was sent; otherwise loss times sent is 100 times the lost packets, within 0..100 when no more were received than sent |
| AtlasModels.ResultsOfKind | src/route_sherlock/models/atlas.py:305-315 | the kept results are exactly those carrying the kind's marker keys, never more than given |
| AtlasModels.ResultsOfKindAppend | src/route_sherlock/models/atlas.py:305-315 | filtering a concatenation filters each part, keeping order |
| PeeringDbModels.SpeedGbps | src/route_sherlock/models/peeringdb.py:237-240 | the speed in Gbit/s is the Mbit/s speed divided by 1000, 0 for no speed and never negative for a non-negative speed |
| PeeringDbModels.CanPeer | src/route_sherlock/models/peeringdb.py:325-330 | two connections can peer exactly when both have an IPv4 address or both an IPv6 address |
| PeeringDbModels.CanPeerSymmetric | src/route_sherlock/models/peeringdb.py:325-330 | whether they can peer does not depend on which network is listed first |
| RipestatModels.DefaultIsSuccess | src/route_sherlock/models/ripestat.py:14-31 | a response built with no fields counts as a success |
| RipestatModels.Ipv4Prefixes | src/route_sherlock/models/ripestat.py:100-102 | every kept prefix is announced and has a dot, every announced prefix with a dot is kept, and no more are kept than announced |
| RipestatModels.Ipv6Prefixes | src/route_sherlock/models/ripestat.py:104-106 | every kept prefix is announced and has a colon, every announced prefix with a colon is kept, and no more are kept than announced |
| RipestatModels.FamilyCopies | src/route_sherlock/models/ripestat.py:100-106 | filtering by family keeps every copy of a prefix of that family and none of any other |
| RipestatModels.Ipv4PrefixesInOrder | src/route_sherlock/models/ripestat.py:100-102 | the IPv4 list keeps announcement order and repetitions: a concatenation gives the concatenated lists, a single prefix is kept exactly when it has a dot, and a dotted prefix is kept as often as it is announced |
| RipestatModels.Ipv6PrefixesInOrder | src/route_sherlock/models/ripestat.py:104-106 | the same for the IPv6 list and the colon |
| RipestatModels.FamilyPrefixCounts | src/route_sherlock/models/ripestat.py:100-110 | the IPv4 and IPv6 lists add up to the prefix count when each prefix is written with exactly one of a dot and a colon, and to no more when none has both |
| RipestatModels.FamilyCounts | src/route_sherlock/models/ripestat.py:100-106 | the same count over a list of prefix strings, by induction over the list |
| RipestatModels.ClassificationPartitions | src/route_sherlock/models/ripestat.py:171-177 | every neighbour goes to exactly one of the two lists |
| RipestatModels.Partition | src/route_sherlock/models/ripestat.py:171-177 | the loop appends the positive-power neighbours to the upstreams and the others to the downstreams, in order |
| RipestatModels.Classify | src/route_sherlock/models/ripestat.py:168-177 | with raw neighbours and no upstreams given, the upstreams become the positive-power neighbours and the rest are appended to the downstreams, losing none; otherwise the record is unchanged |
| Seqs.MostCommon | src/route_sherlock/analysis/peering.py:308 | the n keys (all when fewer) with the largest counts, each once, in non-increasing order of count, no key left out counting more than a chosen one |
| Seqs.SortDesc | src/route_sherlock/analysis/peering.py:163 | the descending sort by score is a permutation of its input with non-increasing scores |
| Seqs.Tally | src/route_sherlock/analysis/peering.py:295-302 | the counter holds exactly the values that occur, each at least once |
| Text.ParseIntMeans | src/route_sherlock/analysis/paths.py:142 | reading a token as an integer accepts exactly an optionally signed run of digits with surrounding whitespace (as `str.isspace` defines it), and gives its value |

## Left out

- The HTTP clients for RIPEstat, PeeringDB and RIPE Atlas and the pybgpstream reader are left out: they do network I/O, retries, pagination and response caching. Their answers are parameters.
- Concurrency is left out. `asyncio.gather` runs its branches independently, so the model composes them in sequence, with a failed branch giving its zero value. The rate-limit sleeps carry no meaning.
- The clock and the `utcnow` default timestamps are left out. The clock is a `now` parameter and event times are integers.
- Floating-point rounding is left out: scores, coverage and loss are exact reals. `round()` and the `:.0f` display formats are presentation only.
- Python's `int()` accepting underscores and non-ASCII digits is left out. The model accepts an optionally signed run of ASCII digits with surrounding whitespace (as `str.isspace` defines it).
- Text.IsDigits: only the ASCII digits count. Python's `str.isdigit` also accepts other Unicode decimal digits (such as "٣") and digit symbols (such as "²"). So the model can differ on such input in the members below.
- Analyzer.ClassifyResource: text of non-ASCII digits is classified as a prefix. Python classifies "٣" as AS 3, because `int()` reads it, and raises ValueError on "²".
- Paths.CheckRpki: a resource of non-ASCII digits is sent to validation. Python treats it as an ASN through `Paths.IsAsnResource` and skips it.
- `compare_asns`, `get_atlas_coverage`, `full_analysis`, `whois`, `get_ix_presence_analysis`, `monitor_changes` and `get_path_changes` are left out. So are `measure_latency`, `compare_latency` and the async context managers. They only forward to providers or build display dictionaries from operations that are modelled.
- The lookup's profile and path-analysis calls after the resource test, the AI report generation and all terminal rendering are left out. Command-line parsing other than the duration argument and ASN normalisation is left out too.
- Free-form text is left out: anomaly and detection descriptions, recommendation titles, descriptions, impact and effort, warning and factor lists, and ISO time strings. Kinds, severities, priorities and the facts a text reports are kept.
- The unused `seen_paths` dictionary of the replay is left out, because nothing reads it. The `roas` entry of an RPKI-invalid anomaly's details is left out, because nothing reads it either.
- Other peer-risk output is left out: the `max_score` and `percentage` of the result, the IX-overlap and topology sections, and the extra network fields. None of them affects the score.
- Asn.GetProfile: the profile has no Atlas coverage facet, because that facet only counts probes and never affects health or recommendations.
- AtlasModels.ResultsOfKind: results stay undecoded key sets. A result that passes the key test but fails to decode (it raises in the source) is not modelled.
- Seqs.MostCommon: ties are broken in an unspecified order, not by first insertion.
- Peering.FindPeeringCandidates: when the target is on more than ten exchanges, which ten are scanned is left open. The result is stated for whichever ones are chosen.
- Peering.RecommendIxes: the same holds for which twenty upstreams are tallied.
- Peering.GetPeeringReport: when there are too many exchanges or upstreams, the same open choice applies to the candidates and recommendations the report holds.
- Peering.GetPeeringReport: the candidate search and the exchange search each fetch the target's connections again. The model gives both the report's one fetch, so a failure of only those later fetches is not modelled.
- BgpStream.LeakBlock: within one announcement, the order of the path-leak findings and the choice among several vouching baseline paths follow Python's set iteration order. Both are left open. Which ASes are reported, and at which announcement, is fixed.
- Text.Lower, Text.Upper: only ASCII letters change case. Python's `str.lower` and `str.upper` map every Unicode letter; for example, the Kelvin sign lowers to "k". So for input with non-ASCII letters the model can differ in Analyzer.ClassifyResource, Paths.IsAsnResource, Text.NormalizeAsn, Peering.IsPeerablePolicy, Peering.IsRestrictive and PeeringDbModels.IsOpenPeering.
