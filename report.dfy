/** The inspection report (`output`): the cookie and local-storage snapshots
    that the inspector enriches in place, and the beacon summary and host
    inventory that it writes. */
module Report {
  import opened Seqs
  import opened EventFeed

  /** A cookie of the end-state snapshot. `firstPartyStorage` and `log` are
      absent until the cookie pass attaches them. */
  datatype CookieEntry = CookieEntry(
    name: string,
    domain: string,
    path: string,
    expires: int,
    firstPartyStorage: Option<bool>,
    log: Option<Log>)

  /** One key of one origin in the local-storage snapshot. */
  datatype StorageEntry = StorageEntry(value: string, firstPartyStorage: Option<bool>, log: Option<Log>)

  /** A tracking request joined with its provenance (`Object.assign({}, data, {log})`). */
  datatype Beacon = Beacon(url: string, listName: string, log: Log)

  /** One beacon-summary entry: the first beacon of its group and the group
      size, under the field name the report uses, `occurrances`. */
  datatype BeaconSummary = BeaconSummary(beacon: Beacon, occurrances: nat)

  /** A category's host Sets turned into arrays. */
  datatype PartyArrays = PartyArrays(firstParty: seq<string>, thirdParty: seq<string>)

  /** `output.hosts`: exactly the five categories. */
  datatype HostsReport = HostsReport(
    requests: PartyArrays,
    beacons: PartyArrays,
    cookies: PartyArrays,
    localStorage: PartyArrays,
    links: PartyArrays)

  class Report {
    var cookies: seq<CookieEntry>
    /** origin -> storage key -> entry */
    var localStorage: map<string, map<string, StorageEntry>>
    var beacons: seq<BeaconSummary>
    var hosts: Option<HostsReport>

    /** A report holding the snapshot taken by the browser driver. */
    constructor (cookies: seq<CookieEntry>, localStorage: map<string, map<string, StorageEntry>>)
      ensures this.cookies == cookies && this.localStorage == localStorage
      ensures beacons == [] && hosts == None
    {
      this.cookies := cookies;
      this.localStorage := localStorage;
      beacons := [];
      hosts := None;
    }
  }
}
