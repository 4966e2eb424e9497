/** The page session's host accumulator: for each of five categories, a
    first-party and a third-party Set of hostnames. */
module HostAccumulator {
  import opened Seqs

  /** A JavaScript Set of hostnames: distinct members, in insertion order. */
  type HostSet = s: seq<string> | NoDup(s) witness []

  /** Set.prototype.add: appends `host` unless it is already a member. */
  function Add(s: HostSet, host: string): (r: HostSet)
    ensures forall h :: h in r <==> h in s || h == host
    ensures |s| <= |r| <= |s| + 1 && r[..|s|] == s
  {
    if host in s then s else s + [host]
  }

  /** Adding a member twice is the same as adding it once. */
  lemma AddIdempotent(s: HostSet, host: string)
    ensures Add(Add(s, host), host) == Add(s, host)
  {
  }

  /** One category's pair of Sets. */
  datatype Parties = Parties(firstParty: HostSet, thirdParty: HostSet)

  const NoParties := Parties([], [])

  /** Adds `host` to the first-party Set when `isFirst` holds and to the
      third-party Set otherwise. */
  function AddHost(p: Parties, isFirst: bool, host: string): (r: Parties)
    ensures isFirst ==> r.thirdParty == p.thirdParty
    ensures !isFirst ==> r.firstParty == p.firstParty
    ensures forall h :: h in r.firstParty <==> h in p.firstParty || (isFirst && h == host)
    ensures forall h :: h in r.thirdParty <==> h in p.thirdParty || (!isFirst && h == host)
  {
    if isFirst then p.(firstParty := Add(p.firstParty, host))
    else p.(thirdParty := Add(p.thirdParty, host))
  }

  /** `pageSession.hosts`. The `requests` and `links` categories are filled
      before the inspector runs; the inspector adds to `cookies`, `beacons`
      and `localStorage`. */
  class PageSession {
    var requests: Parties
    var beacons: Parties
    var cookies: Parties
    var localStorage: Parties
    var links: Parties

    constructor (requests: Parties, links: Parties)
      ensures this.requests == requests && this.links == links
      ensures beacons == NoParties && cookies == NoParties && localStorage == NoParties
    {
      this.requests := requests;
      this.links := links;
      beacons, cookies, localStorage := NoParties, NoParties, NoParties;
    }
  }
}
