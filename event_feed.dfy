/** The event log as the instrumentation layer recorded it, and the first step
    of the inspector: keep only the events that carry a type. */
module EventFeed {
  import opened Seqs

  /** Provenance attached to a snapshot entry. Cookie and storage provenance
      carries all four parts; beacon provenance carries only the stack and the
      timestamp (`eventType` and `location` are None). */
  datatype Log = Log(stack: string, eventType: Option<string>, timestamp: int, location: Option<string>)

  /** One cookie-setting record inside a `Cookie*` event. The inspector stamps
      `log` onto it when it flattens the cookie events. */
  datatype CookieRecord = CookieRecord(key: string, domain: string, path: string, log: Option<Log>)

  /** The payload of a `Request.Tracking*` event: the request URL and the
      block list that flagged it. */
  datatype TrackingRequest = TrackingRequest(url: string, listName: string)

  /** What the inspector reads of a parsed URL (`url.parse(u)`). */
  datatype ParsedUrl = ParsedUrl(hostname: string, pathname: string)

  /** An event's `data`, whose shape depends on the event family. */
  datatype Payload =
    | CookieWrites(records: seq<CookieRecord>)     // `Cookie*`: an array of cookie records
    | StorageWrites(entries: map<string, string>)  // `Storage*`: storage key to written value
    | Tracking(request: TrackingRequest)           // `Request.Tracking*`: one request
    | Other                                        // any family the inspector does not read

  /** A logged event. A missing or empty `type` is the empty string; `origin`
      is present on storage events only. */
  datatype Event = Event(
    eventType: string,
    timestamp: int,
    stack: string,
    location: string,
    origin: Option<string>,
    data: Payload)

  predicate IsCookieEvent(e: Event) { StartsWith(e.eventType, "Cookie") }
  predicate IsStorageEvent(e: Event) { StartsWith(e.eventType, "Storage") }
  predicate IsTrackingEvent(e: Event) { StartsWith(e.eventType, "Request.Tracking") }

  /** Every `Cookie*` event carries an array of cookie records; on any other
      payload the cookie pass throws when it iterates over it. */
  predicate CookiePayloads(events: seq<Event>) {
    forall e <- events :: IsCookieEvent(e) ==> e.data.CookieWrites?
  }

  /** Every `Request.Tracking*` event carries a request; the beacon pass reads
      its URL and block list. */
  predicate TrackingPayloads(events: seq<Event>) {
    forall e <- events :: IsTrackingEvent(e) ==> e.data.Tracking?
  }

  /** `!!event.type` */
  predicate IsTyped(e: Event) { e.eventType != "" }

  /** The provenance a cookie or storage entry receives from the event that
      wrote it. */
  function EventLog(e: Event): Log {
    Log(e.stack, Some(e.eventType), e.timestamp, Some(e.location))
  }

  /** The event feed: the logged events that have a type, in log order, which is newest first. */
  function TypedEvents(events: seq<Event>): (r: seq<Event>)
    ensures forall e <- r :: e.eventType != "" && e in events
    ensures forall e <- events :: e.eventType != "" ==> e in r
    ensures CookiePayloads(events) ==> CookiePayloads(r)
    ensures TrackingPayloads(events) ==> TrackingPayloads(r)
  {
    Filter(events, IsTyped)
  }

  /** The filter keeps the log order: it works event by event and commutes
      with concatenation. */
  lemma TypedEventsInOrder(a: seq<Event>, b: seq<Event>)
    ensures TypedEvents(a + b) == TypedEvents(a) + TypedEvents(b)
    ensures forall e :: TypedEvents([e]) == if e.eventType != "" then [e] else []
  {
    FilterAppend(a, b, IsTyped);
  }
}
