/** The records the data controller works on. Only the parts the controller
    reads are modelled: the bodies of the record predicates it calls live in
    other files of the app, so they stay abstract here (see RecordPredicates). */
module Records {
  import opened Collections

  /** A point in time, in whole seconds. */
  type Time = int

  /** The length of the look-ahead window of the timeline (SwiftDate's `12.hours`). */
  const TwelveHours: Time := 12 * 60 * 60

  /** A single timed track activity (practice, qualifying, race). Its fields
      are not read by the controller, so it is left abstract. */
  type Session(==, !new)

  /** A race weekend: an identifier and the sessions it owns. */
  datatype RaceEvent = RaceEvent(id: string, sessions: seq<Session>)

  datatype SeriesInfo = SeriesInfo(id: string)

  /** The rest of a series record (name, colours, streaming links, ...),
      which the controller passes on without reading. */
  type SeriesData(==)

  /** The rest of a circuit record (location, layout, ...), passed on
      unread in the same way. */
  type CircuitData(==)

  /** A racing championship; looked up by `seriesInfo.id`. Two records may
      share an identifier and differ in `data`. */
  datatype Series = Series(seriesInfo: SeriesInfo, data: SeriesData)

  /** A race venue; looked up by its name, `circuit`. Two records may share a
      name and differ in `data`. */
  datatype Circuit = Circuit(circuit: string, data: CircuitData)

  /** The decoded JSON document: the three top-level lists. */
  datatype FullDataDownload = FullDataDownload(
    series: seq<Series>,
    circuits: seq<Circuit>,
    events: seq<RaceEvent>)

  /** How one download attempt ended. Only `Decoded` carries data; every other
      way ends the attempt before anything is published. */
  datatype DownloadOutcome =
    | InvalidUrl                       // `URL(string:)` returned nil
    | TransportError                   // the data task reported an error
    | NoData                           // no error, but no body either
    | DecodeError(detail: string)      // `JSONDecoder` threw
    | Decoded(json: FullDataDownload)

  /** The methods of `Session` and `RaceEvent` that the controller calls,
      as seen during one refresh. Their definitions are not part of this
      model, so each is an arbitrary function. */
  datatype RecordPredicates = RecordPredicates(
    raceStartTime: Session -> Time,
    isComplete: Session -> bool,
    isInProgress: Session -> bool,
    firstRaceDate: RaceEvent -> Time,
    eventComplete: RaceEvent -> bool,
    eventInProgress: RaceEvent -> Option<bool>)

  /** Reads an optional in-progress flag with nil counting as false. */
  function NilAsFalse(inProgress: RaceEvent -> Option<bool>): (p: RaceEvent -> bool)
    ensures forall e :: p(e) <==> inProgress(e) == Some(true)
  {
    e => inProgress(e) != None && inProgress(e).value
  }

  /** Sessions that start strictly after `now` and strictly before
      `twelveHoursAway`. */
  function StartsWithin(raceStartTime: Session -> Time, now: Time, twelveHoursAway: Time): (p: Session -> bool)
    ensures forall s :: p(s) <==> now < raceStartTime(s) < twelveHoursAway
  {
    s => raceStartTime(s) < twelveHoursAway && raceStartTime(s) > now
  }
}
