/** The cookie pass (`inspectCookies`): join each snapshot cookie to the first
    logged record that set it, classify it first- or third-party, record its
    domain in the page session, and sort the snapshot by expiry. */
module CookieClassifier {
  import opened Seqs
  import opened Sorting
  import opened EventFeed
  import opened HostAccumulator
  import opened Report

  /** The records of one cookie event, each stamped with the event's provenance. */
  function StampedRecords(e: Event): seq<CookieRecord>
    requires e.data.CookieWrites?
  {
    var data := e.data.records;
    seq(|data|, i requires 0 <= i < |data| => data[i].(log := Some(EventLog(e))))
  }

  lemma StampedRecordsMembers(e: Event)
    requires e.data.CookieWrites?
    ensures forall d <- e.data.records :: d.(log := Some(EventLog(e))) in StampedRecords(e)
    ensures forall rec <- StampedRecords(e) :: exists d <- e.data.records :: rec == d.(log := Some(EventLog(e)))
  {
    var data, r := e.data.records, StampedRecords(e);
    assert forall i :: 0 <= i < |data| ==> r[i] == data[i].(log := Some(EventLog(e)));
  }

  /** `rec` is a payload record of the cookie event `e`, stamped with the
      provenance of `e`. */
  predicate StampedBy(rec: CookieRecord, e: Event) {
    IsCookieEvent(e) && e.data.CookieWrites? && exists d <- e.data.records :: rec == d.(log := Some(EventLog(e)))
  }

  /** The cookie records of all cookie events, flattened in log order and
      payload order, each stamped with the provenance of its event. */
  function CookieRecordsFrom(events: seq<Event>): seq<CookieRecord>
    requires CookiePayloads(events)
  {
    if events == [] then []
    else
      var e := events[|events| - 1];
      assert e in events;
      assert forall x <- events[..|events| - 1] :: x in events;
      CookieRecordsFrom(events[..|events| - 1]) + (if IsCookieEvent(e) then StampedRecords(e) else [])
  }

  /** The flattened records are exactly the payload records of the cookie
      events, each stamped with the provenance of the event that held it. */
  lemma {:induction false} CookieRecordsFromMembers(events: seq<Event>)
    requires CookiePayloads(events)
    ensures forall rec <- CookieRecordsFrom(events) :: exists e <- events :: StampedBy(rec, e)
    ensures forall e <- events :: IsCookieEvent(e) ==> forall d <- e.data.records :: d.(log := Some(EventLog(e))) in CookieRecordsFrom(events)
  {
    if events != [] {
      var e := events[|events| - 1];
      var init := events[..|events| - 1];
      assert forall x <- init :: x in events;
      assert forall x <- events :: x in init || x == e;
      CookieRecordsFromMembers(init);
      if IsCookieEvent(e) {
        StampedRecordsMembers(e);
        forall rec <- CookieRecordsFrom(events)
          ensures exists x <- events :: StampedBy(rec, x)
        {
          if rec in CookieRecordsFrom(init) {
            var x :| x in init && StampedBy(rec, x);
            assert x in events;
          } else {
            assert rec in StampedRecords(e);
            assert StampedBy(rec, e);
          }
        }
      }
    }
  }

  /** Flattening works event by event: it commutes with concatenation, so the
      records of events earlier in the sequence come first. */
  lemma {:induction false} CookieRecordsFromAppend(a: seq<Event>, b: seq<Event>)
    requires CookiePayloads(a) && CookiePayloads(b) && CookiePayloads(a + b)
    ensures CookieRecordsFrom(a + b) == CookieRecordsFrom(a) + CookieRecordsFrom(b)
  {
    if b == [] {
      assert a + b == a;
    } else {
      var init := b[..|b| - 1];
      assert forall x <- init :: x in b;
      assert (a + b)[..|a + b| - 1] == a + init;
      assert forall x <- a + init :: x in a + b;
      CookieRecordsFromAppend(a, init);
      assert (a + b)[|a + b| - 1] == b[|b| - 1];
    }
  }

  /** One event on its own: a cookie event gives its payload records in
      payload order, each stamped with its provenance; any other event gives
      none. */
  lemma CookieRecordsFromSingle(e: Event)
    requires CookiePayloads([e])
    ensures IsCookieEvent(e) ==>
              && |CookieRecordsFrom([e])| == |e.data.records|
              && forall i :: 0 <= i < |e.data.records| ==>
                   CookieRecordsFrom([e])[i] == e.data.records[i].(log := Some(EventLog(e)))
    ensures !IsCookieEvent(e) ==> CookieRecordsFrom([e]) == []
  {
    assert [e][..0] == [] && [e][0] == e;
    var r := CookieRecordsFrom([e]);
    if IsCookieEvent(e) {
      var s := StampedRecords(e);
      assert r == CookieRecordsFrom([]) + s;
      assert forall i :: 0 <= i < |s| ==> s[i] == e.data.records[i].(log := Some(EventLog(e)));
    }
  }

  /** Flattens the cookie events, stamping each record with its event's
      provenance as it goes. */
  method FlattenCookieEvents(events: seq<Event>) returns (records: seq<CookieRecord>)
    requires CookiePayloads(events)
    ensures records == CookieRecordsFrom(events)
  {
    records := [];
    for i := 0 to |events|
      invariant records == CookieRecordsFrom(events[..i])
    {
      var e := events[i];
      assert e in events && events[..i + 1][..i] == events[..i];
      if IsCookieEvent(e) {
        var data := e.data.records;
        for j := 0 to |data|
          invariant records == CookieRecordsFrom(events[..i]) + StampedRecords(e)[..j]
        {
          assert StampedRecords(e)[..j + 1] == StampedRecords(e)[..j] + [data[j].(log := Some(EventLog(e)))];
          records := records + [data[j].(log := Some(EventLog(e)))];
        }
        assert StampedRecords(e)[..|data|] == StampedRecords(e);
      }
    }
    assert events[..|events|] == events;
  }

  /** A logged record sets this cookie: same name, domain and path. */
  predicate Matches(c: CookieEntry, rec: CookieRecord) {
    c.name == rec.key && c.domain == rec.domain && c.path == rec.path
  }

  /** The URL handed to the first-party predicate for a cookie. */
  function CookieUrl(c: CookieEntry): string {
    "cookie://" + c.domain + c.path
  }

  function Expires(c: CookieEntry): int { c.expires }

  /** One cookie after the pass: the provenance of the first matching record
      (kept as it was when none matches) and its party classification. */
  function Classified(c: CookieEntry, records: seq<CookieRecord>, isFirstParty: string -> bool): (r: CookieEntry)
    ensures r.name == c.name && r.domain == c.domain && r.path == c.path && r.expires == c.expires
    ensures r.firstPartyStorage == Some(isFirstParty(CookieUrl(c)))
    ensures forall i :: 0 <= i < |records| && Matches(c, records[i]) && (forall j :: 0 <= j < i ==> !Matches(c, records[j]))
              ==> r.log == records[i].log
    ensures (forall rec <- records :: !Matches(c, rec)) ==> r.log == c.log
  {
    var m := FindIndex(records, rec => Matches(c, rec));
    c.(log := if m.Some? then records[m.value].log else c.log,
       firstPartyStorage := Some(isFirstParty(CookieUrl(c))))
  }

  function ClassifyAll(cookies: seq<CookieEntry>, records: seq<CookieRecord>, isFirstParty: string -> bool): seq<CookieEntry> {
    seq(|cookies|, i requires 0 <= i < |cookies| => Classified(cookies[i], records, isFirstParty))
  }

  /** The snapshot after the cookie pass: every cookie classified, the whole
      a permutation of the classified snapshot, non-increasing in `expires`,
      and cookies with equal `expires` in their snapshot order. */
  function CookiePass(cookies: seq<CookieEntry>, records: seq<CookieRecord>, isFirstParty: string -> bool): (r: seq<CookieEntry>)
    ensures multiset(r) == multiset(ClassifyAll(cookies, records, isFirstParty))
    ensures SortedDesc(r, Expires)
    ensures forall k :: WithKey(r, Expires, k) == WithKey(ClassifyAll(cookies, records, isFirstParty), Expires, k)
    ensures forall c <- r :: c.firstPartyStorage == Some(isFirstParty(CookieUrl(c)))
  {
    var classified := ClassifyAll(cookies, records, isFirstParty);
    SortDescSorted(classified, Expires);
    forall k ensures WithKey(SortDesc(classified, Expires), Expires, k) == WithKey(classified, Expires, k) {
      SortDescStable(classified, Expires, k);
    }
    var r := SortDesc(classified, Expires);
    forall c | c in r ensures c.firstPartyStorage == Some(isFirstParty(CookieUrl(c))) {
      assert c in multiset(classified);
    }
    r
  }

  /** The cookie Sets after the domains of `cookies` were added in order. */
  function CookieHosts(p: Parties, cookies: seq<CookieEntry>, isFirstParty: string -> bool): Parties {
    if cookies == [] then p
    else
      var c := cookies[|cookies| - 1];
      AddHost(CookieHosts(p, cookies[..|cookies| - 1], isFirstParty), isFirstParty(CookieUrl(c)), c.domain)
  }

  /** A domain is in the first-party cookie Set exactly when it was there
      before or some first-party cookie has it, and likewise for third party. */
  lemma {:induction false} CookieHostsMembers(p: Parties, cookies: seq<CookieEntry>, isFirstParty: string -> bool, h: string)
    ensures h in CookieHosts(p, cookies, isFirstParty).firstParty
      <==> h in p.firstParty || exists c <- cookies :: c.domain == h && isFirstParty(CookieUrl(c))
    ensures h in CookieHosts(p, cookies, isFirstParty).thirdParty
      <==> h in p.thirdParty || exists c <- cookies :: c.domain == h && !isFirstParty(CookieUrl(c))
  {
    if cookies != [] {
      var init := cookies[..|cookies| - 1];
      assert cookies == init + [cookies[|cookies| - 1]];
      CookieHostsMembers(p, init, isFirstParty, h);
    }
  }

  /** Cookies whose domains are already recorded change nothing. */
  lemma {:induction false} CookieHostsAlreadyPresent(q: Parties, cookies: seq<CookieEntry>, isFirstParty: string -> bool)
    requires forall c <- cookies :: c.domain in (if isFirstParty(CookieUrl(c)) then q.firstParty else q.thirdParty)
    ensures CookieHosts(q, cookies, isFirstParty) == q
  {
    if cookies != [] {
      var init := cookies[..|cookies| - 1];
      assert forall c <- init :: c in cookies;
      CookieHostsAlreadyPresent(q, init, isFirstParty);
    }
  }

  /** Set insertion is idempotent: recording the same cookies again leaves the
      Sets as they are. */
  lemma CookieHostsIdempotent(p: Parties, cookies: seq<CookieEntry>, isFirstParty: string -> bool)
    ensures CookieHosts(CookieHosts(p, cookies, isFirstParty), cookies, isFirstParty) == CookieHosts(p, cookies, isFirstParty)
  {
    var q := CookieHosts(p, cookies, isFirstParty);
    forall c <- cookies ensures c.domain in (if isFirstParty(CookieUrl(c)) then q.firstParty else q.thirdParty) {
      CookieHostsMembers(p, cookies, isFirstParty, c.domain);
    }
    CookieHostsAlreadyPresent(q, cookies, isFirstParty);
  }

  /** `inspectCookies`: stamps provenance and the party on every snapshot
      cookie, adds its domain to the session's cookie Sets, then sorts the
      snapshot by `expires`, latest first. */
  method InspectCookies(eventData: seq<Event>, session: PageSession, report: Report, isFirstParty: string -> bool)
    requires CookiePayloads(eventData)
    modifies session`cookies, report`cookies
    ensures report.cookies == CookiePass(old(report.cookies), CookieRecordsFrom(eventData), isFirstParty)
    ensures session.cookies == CookieHosts(old(session.cookies), old(report.cookies), isFirstParty)
  {
    var records := FlattenCookieEvents(eventData);
    var i := 0;
    while i < |report.cookies|
      invariant i <= |report.cookies| == |old(report.cookies)|
      invariant forall k :: 0 <= k < i ==> report.cookies[k] == Classified(old(report.cookies)[k], records, isFirstParty)
      invariant forall k :: i <= k < |report.cookies| ==> report.cookies[k] == old(report.cookies)[k]
      invariant session.cookies == CookieHosts(old(session.cookies), old(report.cookies)[..i], isFirstParty)
    {
      var cookie := report.cookies[i];
      assert old(report.cookies)[..i + 1][..i] == old(report.cookies)[..i];
      session.cookies := AddHost(session.cookies, isFirstParty(CookieUrl(cookie)), cookie.domain);
      report.cookies := report.cookies[i := Classified(cookie, records, isFirstParty)];
      i := i + 1;
    }
    assert old(report.cookies)[..i] == old(report.cookies);
    assert report.cookies == ClassifyAll(old(report.cookies), records, isFirstParty);
    report.cookies := SortDesc(report.cookies, Expires);
  }

  /** How the pass ends as written: line 66 reads `page_session`, a name the
      module never binds, so the callback for the first cookie throws a
      ReferenceError after stamping that cookie's provenance. No cookie is
      classified, no domain is recorded and the snapshot is not sorted. */
  datatype CookiePassOutcome = Completed(cookies: seq<CookieEntry>) | ReferenceError(cookies: seq<CookieEntry>)

  function CookiePassAsWritten(cookies: seq<CookieEntry>, records: seq<CookieRecord>): (r: CookiePassOutcome)
    ensures r.Completed? <==> cookies == []
    ensures |r.cookies| == |cookies|
    ensures forall i :: 0 <= i < |cookies| ==> r.cookies[i].firstPartyStorage == cookies[i].firstPartyStorage
  {
    if cookies == [] then Completed([])
    else
      var c := cookies[0];
      var m := FindIndex(records, rec => Matches(c, rec));
      ReferenceError([c.(log := if m.Some? then records[m.value].log else c.log)] + cookies[1..])
  }

  /** A single cookie set by a single `Cookie.Set` event: as written the pass
      throws and leaves it unclassified; the corrected pass attaches the
      event's provenance and classifies it. */
  lemma SingleCookieScenario(isFirstParty: string -> bool)
    ensures CookiePayloads([Event("Cookie.Set", 7, "stack", "https://a.com/", None,
                                  CookieWrites([CookieRecord("sid", "a.com", "/", None)]))])
    ensures
      var e := Event("Cookie.Set", 7, "stack", "https://a.com/", None,
                     CookieWrites([CookieRecord("sid", "a.com", "/", None)]));
      var c := CookieEntry("sid", "a.com", "/", 100, None, None);
      var records := CookieRecordsFrom([e]);
      && CookiePassAsWritten([c], records).ReferenceError?
      && CookiePassAsWritten([c], records).cookies[0].firstPartyStorage == None
      && CookiePass([c], records, isFirstParty)
           == [c.(firstPartyStorage := Some(isFirstParty("cookie://a.com/")), log := Some(EventLog(e)))]
  {
    var e := Event("Cookie.Set", 7, "stack", "https://a.com/", None,
                   CookieWrites([CookieRecord("sid", "a.com", "/", None)]));
    var c := CookieEntry("sid", "a.com", "/", 100, None, None);
    assert e.eventType[..6] == "Cookie";
    assert e.eventType[0] == 'C';
    assert IsCookieEvent(e) && CookiePayloads([e]);
    var records := CookieRecordsFrom([e]);
    assert [e][..0] == [];
    var stamped := StampedRecords(e);
    assert |stamped| == 1 && stamped[0] == CookieRecord("sid", "a.com", "/", Some(EventLog(e)));
    assert records == CookieRecordsFrom([]) + stamped;
    assert records == [CookieRecord("sid", "a.com", "/", Some(EventLog(e)))];
    assert Matches(c, records[0]);
    assert FindIndex(records, rec => Matches(c, rec)) == Some(0);
    assert CookieUrl(c) == "cookie://a.com/";
    var classified := ClassifyAll([c], records, isFirstParty);
    assert |classified| == 1 && classified[0] == Classified(c, records, isFirstParty);
    assert classified == [c.(firstPartyStorage := Some(isFirstParty("cookie://a.com/")), log := Some(EventLog(e)))];
    assert SortDesc(classified, Expires) == Insert(classified[0], SortDesc([], Expires), Expires);
  }
}
