/** The beacon pass (`inspectBeacons`): one beacon per tracking event, the
    hosts of the requests flagged by EasyPrivacy, and a summary with one entry
    per hostname and path. */
module BeaconClassifier {
  import opened Seqs
  import opened Sorting
  import opened EventFeed
  import opened HostAccumulator
  import opened Report
  import opened Grouping

  /** The only block list whose requests are recorded in the host Sets. */
  const EasyPrivacy := "easyprivacy.txt"

  /** The provenance a beacon carries: stack and timestamp, no type and no location. */
  function BeaconLog(e: Event): Log {
    Log(e.stack, None, e.timestamp, None)
  }

  /** The typed events of the `Request.Tracking*` family, in log order. */
  function TrackingEvents(eventData: seq<Event>): seq<Event> {
    Filter(eventData, IsTrackingEvent)
  }

  /** One beacon per tracking event, in log order: the event's request joined
      with a provenance that holds only the stack and the timestamp. */
  function BeaconRecords(eventData: seq<Event>): (r: seq<Beacon>)
    requires TrackingPayloads(eventData)
    ensures |r| == |TrackingEvents(eventData)|
    ensures forall i :: 0 <= i < |r| ==>
              var e := TrackingEvents(eventData)[i];
              && IsTrackingEvent(e) && e in eventData
              && r[i].url == e.data.request.url && r[i].listName == e.data.request.listName
              && r[i].log.eventType.None? && r[i].log.location.None?
              && r[i].log.stack == e.stack && r[i].log.timestamp == e.timestamp
  {
    var ts := TrackingEvents(eventData);
    assert forall e <- ts :: e.data.Tracking?;
    seq(|ts|, i requires 0 <= i < |ts| => Beacon(ts[i].data.request.url, ts[i].data.request.listName, BeaconLog(ts[i])))
  }

  predicate IsEasyPrivacy(b: Beacon) { b.listName == EasyPrivacy }

  /** The beacon Sets after the beacons were visited in order: only
      EasyPrivacy beacons add their hostname. */
  function BeaconHosts(p: Parties, beacons: seq<Beacon>, isFirstParty: string -> bool, parse: string -> ParsedUrl): Parties {
    if beacons == [] then p
    else
      var b := beacons[|beacons| - 1];
      var q := BeaconHosts(p, beacons[..|beacons| - 1], isFirstParty, parse);
      if IsEasyPrivacy(b) then AddHost(q, isFirstParty(b.url), parse(b.url).hostname) else q
  }

  /** A hostname is in a beacon Set exactly when it was there before or an
      EasyPrivacy beacon of that party has it. */
  lemma {:induction false} BeaconHostsMembers(p: Parties, beacons: seq<Beacon>, isFirstParty: string -> bool, parse: string -> ParsedUrl, h: string)
    ensures h in BeaconHosts(p, beacons, isFirstParty, parse).firstParty
      <==> h in p.firstParty || exists b <- beacons :: IsEasyPrivacy(b) && isFirstParty(b.url) && parse(b.url).hostname == h
    ensures h in BeaconHosts(p, beacons, isFirstParty, parse).thirdParty
      <==> h in p.thirdParty || exists b <- beacons :: IsEasyPrivacy(b) && !isFirstParty(b.url) && parse(b.url).hostname == h
  {
    if beacons != [] {
      var init := beacons[..|beacons| - 1];
      assert beacons == init + [beacons[|beacons| - 1]];
      BeaconHostsMembers(p, init, isFirstParty, parse, h);
    }
  }

  /** Beacons from other block lists never change a host Set. */
  lemma {:induction false} BeaconHostsIgnoreOtherLists(p: Parties, beacons: seq<Beacon>, isFirstParty: string -> bool, parse: string -> ParsedUrl)
    ensures BeaconHosts(p, beacons, isFirstParty, parse) == BeaconHosts(p, Filter(beacons, IsEasyPrivacy), isFirstParty, parse)
  {
    if beacons != [] {
      var init, b := beacons[..|beacons| - 1], beacons[|beacons| - 1];
      assert beacons == init + [b];
      FilterAppend(init, [b], IsEasyPrivacy);
      BeaconHostsIgnoreOtherLists(p, init, isFirstParty, parse);
      var f := Filter(init, IsEasyPrivacy);
      if IsEasyPrivacy(b) {
        assert Filter([b], IsEasyPrivacy) == [b];
        assert (f + [b])[..|f + [b]| - 1] == f;
      } else {
        assert Filter([b], IsEasyPrivacy) == [];
        assert f + [] == f;
      }
    }
  }

  /** `pathname.replace(/\/$/, "")`: drops one trailing slash. */
  function StripTrailingSlash(path: string): (r: string)
    ensures |path| > 0 && path[|path| - 1] == '/' ==> r + "/" == path
    ensures !(|path| > 0 && path[|path| - 1] == '/') ==> r == path
  {
    if |path| > 0 && path[|path| - 1] == '/' then path[..|path| - 1] else path
  }

  /** The summary key of a beacon: hostname followed by the path without its
      trailing slash. */
  function GroupKey(b: Beacon, parse: string -> ParsedUrl): string {
    parse(b.url).hostname + StripTrailingSlash(parse(b.url).pathname)
  }

  /** Two beacons on one host whose paths differ only by one trailing slash
      share a summary entry. */
  lemma TrailingSlashSharesKey(b1: Beacon, b2: Beacon, parse: string -> ParsedUrl)
    requires parse(b1.url).hostname == parse(b2.url).hostname
    requires parse(b1.url).pathname == parse(b2.url).pathname + "/"
    requires !(|parse(b2.url).pathname| > 0 && parse(b2.url).pathname[|parse(b2.url).pathname| - 1] == '/')
    ensures GroupKey(b1, parse) == GroupKey(b2, parse)
  {
  }

  /** The grouping key as a function of the beacon alone. */
  function SummaryKey(parse: string -> ParsedUrl): Beacon -> string {
    b => GroupKey(b, parse)
  }

  /** The number of times a summary entry's beacon occurred. */
  function Occurrances(s: BeaconSummary): int { s.occurrances }

  /** The sort key the summary comparator reads: the entries have no field of
      that name, so the difference is NaN, which the sort treats as 0. */
  function MissingOccurances(s: BeaconSummary): int { 0 }

  /** One summary entry per group: its first beacon and the group's size. */
  function Summarize(gs: seq<Group<string, Beacon>>): seq<BeaconSummary>
    requires forall i :: 0 <= i < |gs| ==> gs[i].members != []
  {
    seq(|gs|, i requires 0 <= i < |gs| => BeaconSummary(gs[i].members[0], |gs[i].members|))
  }

  lemma {:induction false} SummarizeSum(gs: seq<Group<string, Beacon>>)
    requires forall i :: 0 <= i < |gs| ==> gs[i].members != []
    ensures SumKeys(Summarize(gs), Occurrances) == TotalMembers(gs)
  {
    if gs != [] {
      assert Summarize(gs)[1..] == Summarize(gs[1..]);
      SummarizeSum(gs[1..]);
    }
  }

  /** The summary of a grouping, stated for any key function. */
  lemma SummaryOfGrouping(bs: seq<Beacon>, key: Beacon -> string)
    ensures var gs := GroupBy(bs, key);
      && (forall i :: 0 <= i < |gs| ==> gs[i].members != [])
      && var r := Summarize(gs);
      && (forall i, j :: 0 <= i < j < |r| ==> key(r[i].beacon) != key(r[j].beacon))
      && (forall i :: 0 <= i < |r| ==>
            && FirstAt(bs, key(r[i].beacon), key) < |bs|
            && r[i].beacon == bs[FirstAt(bs, key(r[i].beacon), key)]
            && r[i].occurrances == |OfKey(bs, key(r[i].beacon), key)|)
      && (forall q :: 0 <= q < |bs| ==> exists i :: 0 <= i < |r| && key(r[i].beacon) == key(bs[q]))
      && (forall i, j :: 0 <= i < j < |r| ==> FirstAt(bs, key(r[i].beacon), key) < FirstAt(bs, key(r[j].beacon), key))
      && SumKeys(r, Occurrances) == |bs|
  {
    var gs := GroupBy(bs, key);
    GroupByGroups(bs, key);
    GroupsHeaded(bs, gs, key);
    SummarizeSum(gs);
    var r := Summarize(gs);
    forall i | 0 <= i < |r| ensures key(r[i].beacon) == gs[i].key {
      assert r[i].beacon in OfKey(bs, gs[i].key, key);
    }
  }

  /** The summary before sorting: one entry per hostname and path, holding the
      first beacon with that key and the number of beacons with it, in the
      order the keys first appear; the counts add up to the number of beacons. */
  function GroupedSummary(bs: seq<Beacon>, parse: string -> ParsedUrl): (r: seq<BeaconSummary>)
    ensures forall i, j :: 0 <= i < j < |r| ==> GroupKey(r[i].beacon, parse) != GroupKey(r[j].beacon, parse)
    ensures forall i :: 0 <= i < |r| ==>
              && FirstAt(bs, GroupKey(r[i].beacon, parse), SummaryKey(parse)) < |bs|
              && r[i].beacon == bs[FirstAt(bs, GroupKey(r[i].beacon, parse), SummaryKey(parse))]
              && r[i].occurrances == |OfKey(bs, GroupKey(r[i].beacon, parse), SummaryKey(parse))|
    ensures forall q :: 0 <= q < |bs| ==> exists i :: 0 <= i < |r| && GroupKey(r[i].beacon, parse) == GroupKey(bs[q], parse)
    ensures forall i, j :: 0 <= i < j < |r| ==>
              FirstAt(bs, GroupKey(r[i].beacon, parse), SummaryKey(parse)) < FirstAt(bs, GroupKey(r[j].beacon, parse), SummaryKey(parse))
    ensures SumKeys(r, Occurrances) == |bs|
  {
    var key := SummaryKey(parse);
    SummaryOfGrouping(bs, key);
    assert forall b :: key(b) == GroupKey(b, parse);
    Summarize(GroupBy(bs, key))
  }

  lemma FirstTwoKeys(r: seq<BeaconSummary>, parse: string -> ParsedUrl)
    requires forall i, j :: 0 <= i < j < |r| ==> GroupKey(r[i].beacon, parse) != GroupKey(r[j].beacon, parse)
    ensures |r| > 1 ==> GroupKey(r[0].beacon, parse) != GroupKey(r[1].beacon, parse)
  {
  }

  /** Beacons that all share one key (say `/px/` and `/px` on one host)
      collapse into a single entry: the first beacon, counted once per beacon. */
  lemma SameKeyOneEntry(bs: seq<Beacon>, parse: string -> ParsedUrl)
    requires bs != [] && forall q :: 0 <= q < |bs| ==> GroupKey(bs[q], parse) == GroupKey(bs[0], parse)
    ensures var r := GroupedSummary(bs, parse);
      |r| == 1 && r[0].beacon == bs[0] && r[0].occurrances == |bs|
  {
    var r := GroupedSummary(bs, parse);
    var k := GroupKey(bs[0], parse);
    forall i | 0 <= i < |r| ensures GroupKey(r[i].beacon, parse) == k {
      var f := FirstAt(bs, GroupKey(r[i].beacon, parse), SummaryKey(parse));
      assert GroupKey(bs[f], parse) == k;
    }
    FirstTwoKeys(r, parse);
    assert |r| <= 1;
    assert 0 < |r| by {
      var i :| 0 <= i < |r| && GroupKey(r[i].beacon, parse) == GroupKey(bs[0], parse);
    }
    assert FirstAt(bs, k, SummaryKey(parse)) == 0;
    assert SumKeys(r, Occurrances) == Occurrances(r[0]) + SumKeys(r[1..], Occurrances);
  }

  /** The summary ordered by occurrence count, largest first; ties keep their
      first-appearance order. */
  function RankedSummary(bs: seq<Beacon>, parse: string -> ParsedUrl): (r: seq<BeaconSummary>)
    ensures multiset(r) == multiset(GroupedSummary(bs, parse))
    ensures SortedDesc(r, Occurrances)
    ensures forall n :: WithKey(r, Occurrances, n) == WithKey(GroupedSummary(bs, parse), Occurrances, n)
    ensures SumKeys(r, Occurrances) == |bs|
  {
    var s := GroupedSummary(bs, parse);
    SortDescSorted(s, Occurrances);
    SortDescSum(s, Occurrances);
    forall n ensures WithKey(SortDesc(s, Occurrances), Occurrances, n) == WithKey(s, Occurrances, n) {
      SortDescStable(s, Occurrances, n);
    }
    SortDesc(s, Occurrances)
  }

  /** The summary as the comparator on the misspelt field sorts it: every
      comparison is a tie, so the summary stays in first-appearance order. */
  function SummaryAsWritten(bs: seq<Beacon>, parse: string -> ParsedUrl): (r: seq<BeaconSummary>)
    ensures r == GroupedSummary(bs, parse)
  {
    SortDescConstantKey(GroupedSummary(bs, parse), MissingOccurances);
    SortDesc(GroupedSummary(bs, parse), MissingOccurances)
  }

  /** A URL parser that reads the whole URL as the hostname, with an empty path. */
  function HostOnly(u: string): ParsedUrl { ParsedUrl(u, "") }

  /** Beacons at `a` once and then at `b` twice. */
  function Scenario(log: Log): seq<Beacon> {
    [Beacon("a", EasyPrivacy, log), Beacon("b", EasyPrivacy, log), Beacon("b", EasyPrivacy, log)]
  }

  lemma ScenarioGroups(log: Log)
    ensures var a, b := Beacon("a", EasyPrivacy, log), Beacon("b", EasyPrivacy, log);
      GroupBy(Scenario(log), SummaryKey(HostOnly)) == [Group("a", [a]), Group("b", [b, b])]
  {
    var a, b := Beacon("a", EasyPrivacy, log), Beacon("b", EasyPrivacy, log);
    var bs := Scenario(log);
    var key := SummaryKey(HostOnly);
    assert key(a) == "a" && key(b) == "b";
    assert bs[..2] == [a, b] && bs[..2][..1] == [a] && bs[..2][..1][..0] == [];
    assert GroupBy([a], key) == [Group("a", [a])];
    var ga, gb := Group("a", [a]), Group("b", [b]);
    assert [ga][1..] == [] && [ga, gb][1..] == [gb] && [gb][1..] == [];
    assert AddToGroups([ga], b, "b") == [ga] + AddToGroups([], b, "b") == [ga, gb];
    assert GroupBy([a, b], key) == [ga, gb];
    assert gb.members + [b] == [b, b];
    assert AddToGroups([gb], b, "b") == [gb.(members := gb.members + [b])] + [gb][1..] == [Group("b", [b, b])];
    assert AddToGroups([ga, gb], b, "b") == [ga] + AddToGroups([gb], b, "b");
  }

  /** The scenario's summary in first-appearance order: `a` once, then `b` twice. */
  lemma ScenarioSummary(log: Log)
    ensures var a, b := Beacon("a", EasyPrivacy, log), Beacon("b", EasyPrivacy, log);
      GroupedSummary(Scenario(log), HostOnly) == [BeaconSummary(a, 1), BeaconSummary(b, 2)]
  {
    var a, b := Beacon("a", EasyPrivacy, log), Beacon("b", EasyPrivacy, log);
    ScenarioGroups(log);
    var gs := [Group("a", [a]), Group("b", [b, b])];
    assert Summarize(gs) == [BeaconSummary(a, 1), BeaconSummary(b, 2)];
  }

  /** The summary as written lists `a` (1) before `b` (2), which is not
      ordered by count; the ranked summary puts `b` first. */
  lemma SummaryAsWrittenUnranked(log: Log)
    ensures var a, b := Beacon("a", EasyPrivacy, log), Beacon("b", EasyPrivacy, log);
      && SummaryAsWritten(Scenario(log), HostOnly) == [BeaconSummary(a, 1), BeaconSummary(b, 2)]
      && !SortedDesc(SummaryAsWritten(Scenario(log), HostOnly), Occurrances)
      && RankedSummary(Scenario(log), HostOnly) == [BeaconSummary(b, 2), BeaconSummary(a, 1)]
  {
    var a, b := Beacon("a", EasyPrivacy, log), Beacon("b", EasyPrivacy, log);
    ScenarioSummary(log);
    var s := [BeaconSummary(a, 1), BeaconSummary(b, 2)];
    assert Occurrances(s[0]) < Occurrances(s[1]);
    assert s[1..] == [s[1]] && [s[1]][1..] == [];
    assert SortDesc([s[1]], Occurrances) == [s[1]];
    assert SortDesc(s, Occurrances) == Insert(s[0], [s[1]], Occurrances) == [s[1], s[0]];
  }

  /** The first loop of the pass: files each EasyPrivacy beacon's hostname
      under its party. */
  method RecordBeaconHosts(beacons: seq<Beacon>, session: PageSession, isFirstParty: string -> bool, parse: string -> ParsedUrl)
    modifies session`beacons
    ensures session.beacons == BeaconHosts(old(session.beacons), beacons, isFirstParty, parse)
  {
    for i := 0 to |beacons|
      invariant session.beacons == BeaconHosts(old(session.beacons), beacons[..i], isFirstParty, parse)
    {
      var b := beacons[i];
      var l := parse(b.url);
      if b.listName == EasyPrivacy {
        if isFirstParty(b.url) {
          session.beacons := session.beacons.(firstParty := Add(session.beacons.firstParty, l.hostname));
        } else {
          session.beacons := session.beacons.(thirdParty := Add(session.beacons.thirdParty, l.hostname));
        }
      }
      assert beacons[..i + 1][..i] == beacons[..i];
    }
    assert beacons[..|beacons|] == beacons;
  }

  /** The second loop of the pass: one entry per group, pushed in group order. */
  method SummarizeGroups(groups: seq<Group<string, Beacon>>) returns (summary: seq<BeaconSummary>)
    requires forall i :: 0 <= i < |groups| ==> groups[i].members != []
    ensures summary == Summarize(groups)
  {
    summary := [];
    for j := 0 to |groups|
      invariant summary == Summarize(groups[..j])
    {
      summary := summary + [BeaconSummary(groups[j].members[0], |groups[j].members|)];
    }
    assert groups[..|groups|] == groups;
  }

  /** `inspectBeacons`: records the hostnames of the EasyPrivacy beacons in
      the session's beacon Sets and writes the ranked summary to the report.
      `parse` stands for `url.parse`. */
  method InspectBeacons(
    eventData: seq<Event>, session: PageSession, report: Report,
    isFirstParty: string -> bool, parse: string -> ParsedUrl)
    requires TrackingPayloads(eventData)
    modifies session`beacons, report`beacons
    ensures session.beacons == BeaconHosts(old(session.beacons), BeaconRecords(eventData), isFirstParty, parse)
    ensures report.beacons == RankedSummary(BeaconRecords(eventData), parse)
  {
    var beacons := BeaconRecords(eventData);
    RecordBeaconHosts(beacons, session, isFirstParty, parse);
    var groups := GroupBy(beacons, SummaryKey(parse));
    SummaryOfGrouping(beacons, SummaryKey(parse));
    var summary := SummarizeGroups(groups);
    report.beacons := SortDesc(summary, Occurrances);
  }
}
