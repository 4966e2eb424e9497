# Inspector model

A Dafny model of the inspector of the website evidence collector
(`inspector/index.js`). After a page visit, the inspector takes two inputs:
the event log written by the browser instrumentation, and the end-of-visit
snapshot of cookies and local storage. It turns them into the classified
parts of the report. It has five steps:

- **Event filter**: keeps the logged events that carry a type, in log order, which is newest first (`EventFeed`).
- **Cookie pass**:
  - flattens the `Cookie*` events into records stamped with their event's provenance;
  - gives every snapshot cookie the provenance of the first record with the same name, domain and path;
  - classifies the cookie first- or third-party from `cookie://<domain><path>` and records its domain in the page session's cookie host Sets;
  - sorts the snapshot by `expires`, latest first (`CookieClassifier`).
- **Local-storage pass**:
  - classifies every origin once and records its hostname in the storage host Sets;
  - stamps that classification on every key under the origin;
  - attaches the provenance of the first `Storage*` event at that origin that wrote the key (`StorageClassifier`).
- **Beacon pass**:
  - builds one beacon per `Request.Tracking*` event, whose provenance holds only stack and timestamp;
  - records the hostnames of EasyPrivacy beacons in the beacon host Sets;
  - groups beacons by hostname plus path without one trailing slash, into a summary ranked by occurrence count (`BeaconClassifier`, `Grouping`).
- **Host projection**: turns the five pairs of host Sets into arrays in the report (`HostAggregator`).

Supporting modules:

- `Seqs`: `Option`, prefix test, filter, first-match search.
- `Sorting`: the stable descending sort that `Array.prototype.sort` performs with a `key(b) - key(a)` comparator.
- `HostAccumulator`: a JavaScript Set as a duplicate-free sequence in insertion order, and the `PageSession` whose Sets the passes fill.
- `Report`: the output records and the `Report` object the passes rewrite.

The passes that change state are methods on the two objects:
- `PageSession` holds the host Sets.
- `Report` holds the snapshot and the summaries.

Each method's contract ties its result or new state to specification functions of the old state. For the report fields and the cookie and beacon host Sets, the contract is equality. For the local-storage host Sets, it gives their members. The properties are proved about those functions.

Collaborators the model does not contain are parameters:
- `isFirstParty: string -> bool` is the first-party test with the page's reference patterns already applied. It receives a cookie URL, an origin, or a beacon's URL.
- `parse: string -> ParsedUrl` is `url.parse`.
- `originHostname: string -> string` is `new URL(origin).hostname`.

The beacon summary is ranked by its occurrence count. The code's comparator reads a misspelt field, so as written the summary keeps first-appearance order. The comparator at line 169 is evidently meant to rank the summary by `occurrances`, largest first. The as-written behaviour is modelled and compared under Findings.

## Model

| member | source | states |
|---|---|---|
| EventFeed.TypedEvents | inspector/index.js:28-30 | the event feed holds an event exactly when it is in the log and has a non-empty type; if every cookie (tracking) event of the log carries cookie records (a request), so does every one in the feed |
| EventFeed.TypedEventsInOrder | inspector/index.js:28-30 | the filter keeps log order: it distributes over concatenation and keeps or drops each single event by its type alone |
| Seqs.FindIndex | inspector/index.js:52-58 | `Array.prototype.find`: returns the first index whose element satisfies the test, and None exactly when no element does |
| CookieClassifier.CookieRecordsFromMembers | inspector/index.js:33-49 | about `CookieRecordsFrom`: the flattened records are exactly the payload records of the `Cookie*` events, each stamped with the stack, type, timestamp and location of the event whose payload held it: every result record is such a stamped record, and every such stamped record is in the result |
| CookieClassifier.CookieRecordsFromAppend | inspector/index.js:33-49 | flattening commutes with concatenation of logs, so the records of events earlier in the sequence come first |
| CookieClassifier.CookieRecordsFromSingle | inspector/index.js:38-48 | a single cookie event gives its payload records in payload order, each stamped with the event's provenance; any other event gives none |
| CookieClassifier.StampedRecordsMembers | inspector/index.js:38-47 | the stamped records of one event are exactly its payload records with the event's provenance as `log` |
| CookieClassifier.FlattenCookieEvents | inspector/index.js:33-49 | the nested loop over cookie events and their records produces exactly the flattened, stamped records, in log order and payload order |
| CookieClassifier.Classified | inspector/index.js:51-76 | a cookie keeps its name, domain, path and expiry; it gets the provenance of the first matching record, or keeps its own when none matches; it is first-party exactly when the predicate accepts `cookie://` + domain + path |
| CookieClassifier.CookiePass | inspector/index.js:51-80 | the cookie output is a permutation of the classified snapshot, is non-increasing in `expires`, keeps snapshot order among equal expiries, and every cookie carries its classification |
| CookieClassifier.CookieHostsMembers | inspector/index.js:64-75 | about `CookieHosts`, the cookie Sets after the loop: a domain is in the first-party (third-party) cookie Set exactly when it was there before or a first-party (third-party) cookie has that domain |
| CookieClassifier.CookieHostsAlreadyPresent | inspector/index.js:64-75 | cookies whose domains are already in their party's Set leave the Sets unchanged |
| CookieClassifier.CookieHostsIdempotent | inspector/index.js:64-75 | recording the same cookies twice gives the same Sets as recording them once |
| CookieClassifier.InspectCookies | inspector/index.js:32-81 | the report's cookies become the sorted, classified snapshot; the session's cookie Sets receive every cookie's domain, in snapshot order, under its party; nothing else changes |
| CookieClassifier.CookiePassAsWritten | inspector/index.js:51-76 | as written, the pass ends in a ReferenceError exactly when the snapshot is non-empty, and then no cookie's classification changes |
| CookieClassifier.SingleCookieScenario | inspector/index.js:33-80 | a single cookie set by a single `Cookie.Set` event: as written the pass throws and the cookie stays unclassified; the corrected pass gives it the event's provenance and its party |
| HostAccumulator.Add | inspector/index.js:70-74 | `Set.prototype.add`: membership grows by exactly the new host, existing members keep their positions, and the size grows by at most one |
| HostAccumulator.AddHost | inspector/index.js:92-96 | a host goes into the first-party Set when the test holds and into the third-party Set otherwise; the other Set is unchanged |
| Sorting.SortDesc | inspector/index.js:78-80 | the sort returns a permutation of its input |
| Sorting.SortDescSorted | inspector/index.js:78-80 | the sorted sequence is non-increasing in the key |
| Sorting.SortDescStable | inspector/index.js:78-80 | elements with equal keys keep their input order |
| Sorting.SortDescSum | inspector/index.js:168-170 | sorting keeps the sum of the keys |
| Sorting.SortDescConstantKey | inspector/index.js:168-170 | a comparator that always ties leaves the sequence as it was |
| StorageClassifier.StorageEvents | inspector/index.js:84-86 | the storage events are exactly the `Storage*` events of the feed |
| StorageClassifier.ClassifiedOrigin | inspector/index.js:99-117 | one origin after the pass: same keys and values; every key carries the origin's classification; each key gets the provenance of the first storage event at that origin whose data has the key, and keeps its own when there is none |
| StorageClassifier.StoragePass | inspector/index.js:88-118 | the snapshot keeps its origins, keys and values; every key under an origin carries that origin's classification |
| StorageClassifier.ClassifyKeys | inspector/index.js:99-117 | the loop over one origin's keys produces exactly the classified origin |
| StorageClassifier.RecordOrigin | inspector/index.js:89-96 | recording one more origin adds its hostname to the Set of its party and to no other |
| StorageClassifier.InspectLocalStorage | inspector/index.js:83-119 | the report's local storage becomes the classified snapshot; the storage host Sets gain exactly the hostnames of the first-party and of the third-party origins |
| BeaconClassifier.BeaconRecords | inspector/index.js:123-137 | one beacon per `Request.Tracking*` event, in log order, with the event's URL and list name, and a provenance that holds the stack and timestamp but no type and no location |
| BeaconClassifier.BeaconHostsMembers | inspector/index.js:139-149 | about `BeaconHosts`, the beacon Sets after the loop: a hostname is in a beacon Set exactly when it was there before or an EasyPrivacy beacon of that party resolves to it |
| BeaconClassifier.BeaconHostsIgnoreOtherLists | inspector/index.js:139-149 | beacons from block lists other than EasyPrivacy never change a host Set |
| BeaconClassifier.RecordBeaconHosts | inspector/index.js:139-149 | the loop over the beacons leaves the beacon Sets equal to `BeaconHosts` of the old Sets and the beacons |
| BeaconClassifier.StripTrailingSlash | inspector/index.js:154 | removes one trailing slash when there is one, and otherwise leaves the path as it is |
| BeaconClassifier.TrailingSlashSharesKey | inspector/index.js:152-155 | about `GroupKey`, the grouping key of lines 153-154: two beacons on one host whose paths differ only by one trailing slash share a summary key |
| Grouping.GroupByGroups | inspector/index.js:152-155 | about `GroupBy`, lodash `groupBy`: keys distinct; each group holds exactly the elements with its key, in input order; every element's key has a group; groups in first-appearance order; group sizes sum to the input length |
| Grouping.GroupsHeaded | inspector/index.js:157-166 | every group is non-empty and headed by the first element with its key |
| BeaconClassifier.SummarizeSum | inspector/index.js:157-166 | about `Summarize`, one entry per group: the occurrence counts of the summary add up to the number of grouped beacons |
| BeaconClassifier.SummarizeGroups | inspector/index.js:157-166 | the loop over the groups pushes exactly one entry per group, in group order |
| BeaconClassifier.GroupedSummary | inspector/index.js:152-166 | one entry per distinct key; each entry is the first beacon with its key and counts the beacons with that key; every beacon's key has an entry; entries in first-appearance order; counts sum to the number of beacons |
| BeaconClassifier.SameKeyOneEntry | inspector/index.js:152-166 | beacons that all share one key, such as `/px/` and `/px` on one host, give a single entry counting all of them |
| BeaconClassifier.RankedSummary | inspector/index.js:168-170 | the ranked summary is a permutation of the grouped summary, non-increasing in count, with ties in first-appearance order, and its counts sum to the number of beacons |
| BeaconClassifier.SummaryAsWritten | inspector/index.js:168-170 | as written, the sort compares a field that no entry has, so the summary stays in first-appearance order |
| BeaconClassifier.ScenarioGroups | inspector/index.js:152-155 | beacons at `a`, `b`, `b` form the groups `a` (one beacon) and `b` (two beacons), in that order |
| BeaconClassifier.ScenarioSummary | inspector/index.js:152-166 | for beacons at `a`, `b`, `b`, the grouped summary is `a` counted once, then `b` counted twice, in first-appearance order |
| BeaconClassifier.SummaryAsWrittenUnranked | inspector/index.js:157-170 | for beacons at `a`, `b`, `b`, the as-written summary lists `a` (1) before `b` (2), which is not ranked; the ranked summary lists `b` first |
| BeaconClassifier.InspectBeacons | inspector/index.js:122-173 | the beacon Sets receive the EasyPrivacy hostnames by party, and the report's beacons become the ranked summary; nothing else changes |
| HostAggregator.ToArray | inspector/index.js:177-182 | `Array.from` on a Set: the same members, each once |
| HostAggregator.ArrayFromParties | inspector/index.js:177-182 | both arrays of a category hold exactly the members of the corresponding Set, without duplicates |
| HostAggregator.InspectHosts | inspector/index.js:175-191 | the report's hosts hold exactly the five categories, each projected from the session's Sets |

## Left out

- The log query (inspector/index.js:13-25) is I/O, and so is its rejection path. The log arrives as a sequence of events. The query returns the events newest first (line 17), so the model's sequence is newest first: a first match is the most recent matching event, and first-appearance order is newest-first order.
- The body of the first-party test is a regular-expression match against the page's reference patterns, which this file does not contain. It is a parameter.
- The URL functions are parameters: `url.parse` for beacons and `new URL(origin).hostname` for origins. Lines 1-2 bind neither `url` nor `isFirstParty`, so as written each pass would throw at its first use of them. The model assumes both are bound. The finding on line 66 rests on that assumption.
- The beacon pass calls the first-party test with the parsed URL (inspector/index.js:143). The model calls it with the beacon's URL string, so it assumes the test answers the same for a URL and its parsed form.
- The `hostname` of a parsed URL is always a string here. A URL without a host (`null` in Node) is not modelled.
- The cookie pass writes the provenance into the logged cookie records themselves (inspector/index.js:39-46). The model returns new, stamped records and leaves the input log as it was.
- The cookie pass requires `CookiePayloads`: every `Cookie*` event carries an array of records. On any other payload the source throws at `event.data.forEach` (line 39).
- The beacon pass requires `TrackingPayloads`: every `Request.Tracking*` event carries a request. The source reads `url` and `listName` from whatever `event.data` holds. Other payload shapes are not modelled.
- Neither requirement constrains events of other families. A `Storage*` event whose data is not a key map is accepted everywhere; the storage pass treats it as writing no key.
- Records keep only the fields the inspector reads. In the source, the other fields are copied along or left unchanged:
  - a beacon copies the whole `event.data` (line 129), and a summary entry copies its beacon (line 162);
  - cookie records, snapshot cookies and storage entries keep theirs unchanged.
- `expires` is an integer. Missing or non-numeric values, and the NaN they give in the comparator, are not modelled.
- `Array.prototype.sort` is modelled by the result of a stable sort, not by the engine's in-place algorithm.
- lodash `groupBy` keeps keys in insertion order, which the model follows. JavaScript objects list integer-like keys first; a summary key made only of digits is not modelled.
- StorageClassifier.InspectLocalStorage: states which hostnames the storage host Sets hold, not their insertion order. The model visits origins and keys in an unspecified order, where the source follows the order of `Object.keys`.
- HostAccumulator.PageSession: only the host Sets are modelled. `refs_regexp` is folded into the first-party parameter.
- The `async` wrappers, the context object `c`, and the logger and arguments it carries are plumbing and are not modelled.

## Findings

| source | as written | input that shows it | evidently intended | confidence | as-written member | corrected member |
|---|---|---|---|---|---|---|
| inspector/index.js:66 | the first-party test for cookies reads `page_session.refs_regexp`, a name the module never binds, so the first cookie throws a ReferenceError | a snapshot with one cookie `sid` on `a.com/`, set by one `Cookie.Set` event | `c.pageSession.refs_regexp`, as the storage pass uses on line 90 | not executed | CookieClassifier.CookiePassAsWritten, CookieClassifier.SingleCookieScenario | CookieClassifier.CookiePass |
| inspector/index.js:169 | the comparator reads `occurances`, while line 163 sets `occurrances`; every comparison gives NaN, which counts as a tie, so the summary keeps first-appearance order | beacons at `a`, `b`, `b`: the summary is `a` (1), `b` (2) | rank the summary by `occurrances`, largest first | not executed | BeaconClassifier.SummaryAsWritten, BeaconClassifier.SummaryAsWrittenUnranked | BeaconClassifier.RankedSummary |
