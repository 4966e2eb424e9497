/** The local-storage pass (`inspectLocalStorage`): classify each origin of
    the snapshot once, stamp that classification on every key under it, and
    join each key to the first storage event that wrote it at that origin. */
module StorageClassifier {
  import opened Seqs
  import opened EventFeed
  import opened HostAccumulator
  import opened Report

  /** The storage event was logged at `origin` and its data has `key`. */
  predicate WritesKey(e: Event, origin: string, key: string) {
    e.origin == Some(origin) && e.data.StorageWrites? && key in e.data.entries
  }

  /** The typed events of the `Storage*` family, in log order. */
  function StorageEvents(eventData: seq<Event>): (r: seq<Event>)
    ensures forall e <- r :: IsStorageEvent(e) && e in eventData
    ensures forall e <- eventData :: IsStorageEvent(e) ==> e in r
  {
    Filter(eventData, IsStorageEvent)
  }

  /** One key after the pass: the origin's classification and, when some
      storage event wrote the key at the origin, the first such event's
      provenance. */
  function ClassifiedEntry(origin: string, key: string, entry: StorageEntry, storageEvents: seq<Event>, isFirst: bool): StorageEntry {
    var m := FindIndex(storageEvents, e => WritesKey(e, origin, key));
    entry.(firstPartyStorage := Some(isFirst),
           log := if m.Some? then Some(EventLog(storageEvents[m.value])) else entry.log)
  }

  /** The keys of one origin after the pass: the same keys and values, all
      with the origin's classification, each with the provenance of the first
      event that wrote it there (left as it was when none did). */
  function ClassifiedOrigin(origin: string, entries: map<string, StorageEntry>, storageEvents: seq<Event>, isFirst: bool)
    : (r: map<string, StorageEntry>)
    ensures r.Keys == entries.Keys
    ensures forall k <- r :: r[k].value == entries[k].value && r[k].firstPartyStorage == Some(isFirst)
    ensures forall k <- r, i | 0 <= i < |storageEvents| ::
              WritesKey(storageEvents[i], origin, k) && (forall j | 0 <= j < i :: !WritesKey(storageEvents[j], origin, k))
              ==> r[k].log == Some(EventLog(storageEvents[i]))
    ensures forall k <- r :: (forall e <- storageEvents :: !WritesKey(e, origin, k)) ==> r[k].log == entries[k].log
  {
    map k | k in entries :: ClassifiedEntry(origin, k, entries[k], storageEvents, isFirst)
  }

  /** The whole local-storage snapshot after the pass. Classification is per
      origin: every key under one origin carries the same value. */
  function StoragePass(snapshot: map<string, map<string, StorageEntry>>, storageEvents: seq<Event>, isFirstParty: string -> bool)
    : (r: map<string, map<string, StorageEntry>>)
    ensures r.Keys == snapshot.Keys
    ensures forall o <- r :: r[o].Keys == snapshot[o].Keys
    ensures forall o <- r, k <- r[o] :: r[o][k].value == snapshot[o][k].value
    ensures forall o <- r, k <- r[o] :: r[o][k].firstPartyStorage == Some(isFirstParty(o))
  {
    map o | o in snapshot :: ClassifiedOrigin(o, snapshot[o], storageEvents, isFirstParty(o))
  }

  /** The members of a host Set. */
  function Members(s: seq<string>): set<string> {
    set h | h in s
  }

  /** The hostnames of the origins whose classification is `first`. */
  function OriginHosts(origins: set<string>, isFirstParty: string -> bool, hostnameOf: string -> string, first: bool): set<string> {
    set o | o in origins && isFirstParty(o) == first :: hostnameOf(o)
  }

  lemma OriginHostsAdd(done: set<string>, origin: string, isFirstParty: string -> bool, hostnameOf: string -> string, first: bool)
    ensures OriginHosts(done + {origin}, isFirstParty, hostnameOf, first)
         == OriginHosts(done, isFirstParty, hostnameOf, first) + (if isFirstParty(origin) == first then {hostnameOf(origin)} else {})
  {
  }

  /** The inner loop of the pass: rewrites every key of one origin. */
  method ClassifyKeys(origin: string, entries: map<string, StorageEntry>, storageEvents: seq<Event>, isFirst: bool)
    returns (originStorage: map<string, StorageEntry>)
    ensures originStorage == ClassifiedOrigin(origin, entries, storageEvents, isFirst)
  {
    originStorage := entries;
    var keys := originStorage.Keys;
    while keys != {}
      invariant keys <= originStorage.Keys == entries.Keys
      invariant forall k <- originStorage :: originStorage[k]
                  == if k in keys then entries[k] else ClassifiedEntry(origin, k, entries[k], storageEvents, isFirst)
      decreases keys
    {
      var key :| key in keys;
      originStorage := originStorage[key := ClassifiedEntry(origin, key, originStorage[key], storageEvents, isFirst)];
      keys := keys - {key};
    }
  }

  /** Adding one origin's hostname to the Sets. */
  lemma RecordOrigin(p: Parties, done: set<string>, origin: string, isFirstParty: string -> bool, hostnameOf: string -> string,
                     q0: Parties)
    requires Members(p.firstParty) == Members(q0.firstParty) + OriginHosts(done, isFirstParty, hostnameOf, true)
    requires Members(p.thirdParty) == Members(q0.thirdParty) + OriginHosts(done, isFirstParty, hostnameOf, false)
    ensures var p' := AddHost(p, isFirstParty(origin), hostnameOf(origin));
      && Members(p'.firstParty) == Members(q0.firstParty) + OriginHosts(done + {origin}, isFirstParty, hostnameOf, true)
      && Members(p'.thirdParty) == Members(q0.thirdParty) + OriginHosts(done + {origin}, isFirstParty, hostnameOf, false)
  {
    OriginHostsAdd(done, origin, isFirstParty, hostnameOf, true);
    OriginHostsAdd(done, origin, isFirstParty, hostnameOf, false);
    var first, host := isFirstParty(origin), hostnameOf(origin);
    var p' := AddHost(p, first, host);
    assert Members(p'.firstParty) == Members(p.firstParty) + (if first then {host} else {});
    assert Members(p'.thirdParty) == Members(p.thirdParty) + (if first then {} else {host});
  }

  /** `inspectLocalStorage`: for every origin of the snapshot, records its
      hostname in the session's local-storage Sets and rewrites every key
      under it. `originHostname` stands for `new URL(origin).hostname`. */
  method InspectLocalStorage(
    eventData: seq<Event>, session: PageSession, report: Report,
    isFirstParty: string -> bool, originHostname: string -> string)
    modifies session`localStorage, report`localStorage
    ensures report.localStorage == StoragePass(old(report.localStorage), StorageEvents(eventData), isFirstParty)
    ensures Members(session.localStorage.firstParty) == Members(old(session.localStorage.firstParty))
              + OriginHosts(old(report.localStorage).Keys, isFirstParty, originHostname, true)
    ensures Members(session.localStorage.thirdParty) == Members(old(session.localStorage.thirdParty))
              + OriginHosts(old(report.localStorage).Keys, isFirstParty, originHostname, false)
  {
    var storageEvents := StorageEvents(eventData);
    ghost var snapshot := report.localStorage;
    var origins := report.localStorage.Keys;
    while origins != {}
      invariant origins <= snapshot.Keys == report.localStorage.Keys
      invariant forall o <- snapshot :: report.localStorage[o]
                  == if o in origins then snapshot[o] else ClassifiedOrigin(o, snapshot[o], storageEvents, isFirstParty(o))
      invariant Members(session.localStorage.firstParty) == Members(old(session.localStorage.firstParty))
                  + OriginHosts(snapshot.Keys - origins, isFirstParty, originHostname, true)
      invariant Members(session.localStorage.thirdParty) == Members(old(session.localStorage.thirdParty))
                  + OriginHosts(snapshot.Keys - origins, isFirstParty, originHostname, false)
      decreases origins
    {
      var origin :| origin in origins;
      var hostname := originHostname(origin);
      var isFirst := isFirstParty(origin);
      RecordOrigin(session.localStorage, snapshot.Keys - origins, origin, isFirstParty, originHostname, old(session.localStorage));
      session.localStorage := AddHost(session.localStorage, isFirst, hostname);
      assert snapshot.Keys - (origins - {origin}) == (snapshot.Keys - origins) + {origin};

      var originStorage := ClassifyKeys(origin, report.localStorage[origin], storageEvents, isFirst);
      report.localStorage := report.localStorage[origin := originStorage];
      origins := origins - {origin};
    }
    assert snapshot.Keys - origins == snapshot.Keys;
    assert report.localStorage == StoragePass(snapshot, storageEvents, isFirstParty);
  }
}
