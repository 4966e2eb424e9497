/** The host projection (`inspectHosts`): the session's five pairs of host
    Sets become arrays in the report. */
module HostAggregator {
  import opened Seqs
  import opened HostAccumulator
  import opened Report

  /** `Array.from` on a Set: the members, each once, in insertion order. */
  function ToArray(s: HostSet): (r: seq<string>)
    ensures forall h :: h in r <==> h in s
    ensures NoDup(r) && |r| == |s|
  {
    s
  }

  /** `arrayFromParties`: both Sets of one category as arrays. */
  function ArrayFromParties(p: Parties): (r: PartyArrays)
    ensures forall h :: h in r.firstParty <==> h in p.firstParty
    ensures forall h :: h in r.thirdParty <==> h in p.thirdParty
    ensures NoDup(r.firstParty) && NoDup(r.thirdParty)
  {
    PartyArrays(ToArray(p.firstParty), ToArray(p.thirdParty))
  }

  /** `inspectHosts`: the report's hosts hold exactly the five categories,
      each with the members of the session's Sets and no duplicates. */
  method InspectHosts(session: PageSession, report: Report)
    modifies report`hosts
    ensures report.hosts == Some(HostsReport(
              ArrayFromParties(session.requests), ArrayFromParties(session.beacons),
              ArrayFromParties(session.cookies), ArrayFromParties(session.localStorage),
              ArrayFromParties(session.links)))
  {
    report.hosts := Some(HostsReport(
      ArrayFromParties(session.requests), ArrayFromParties(session.beacons),
      ArrayFromParties(session.cookies), ArrayFromParties(session.localStorage),
      ArrayFromParties(session.links)));
  }
}
