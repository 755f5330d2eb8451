/** The data controller: it keeps the latest downloaded series, circuits and
    events, and the views derived from them that the screens read. */
module DataControllers {
  import opened Collections
  import opened Records

  /** All sessions of all events, event by event, each event's sessions in
      their own order. */
  function Flatten(events: seq<RaceEvent>): seq<Session> {
    if events == [] then [] else events[0].sessions + Flatten(events[1..])
  }

  /** The number of sessions the events hold between them. */
  function SessionCount(events: seq<RaceEvent>): nat {
    if events == [] then 0 else |events[0].sessions| + SessionCount(events[1..])
  }

  lemma {:induction false} FlattenAppend(a: seq<RaceEvent>, b: seq<RaceEvent>)
    ensures Flatten(a + b) == Flatten(a) + Flatten(b)
    decreases |a|
  {
    if a == [] {
      assert a + b == b;
    } else {
      assert (a + b)[1..] == a[1..] + b;
      FlattenAppend(a[1..], b);
    }
  }

  /** Flattening drops nothing and adds nothing: its length is the sum of the
      events' session counts. */
  lemma {:induction false} FlattenLength(events: seq<RaceEvent>)
    ensures |Flatten(events)| == SessionCount(events)
    decreases |events|
  {
    if events != [] {
      FlattenLength(events[1..]);
    }
  }

  /** A session is in the flattened list exactly when some event holds it. */
  lemma {:induction false} FlattenMembership(events: seq<RaceEvent>, s: Session)
    ensures s in Flatten(events) <==> exists i :: 0 <= i < |events| && s in events[i].sessions
    decreases |events|
  {
    if events != [] {
      FlattenMembership(events[1..], s);
      if s in Flatten(events[1..]) {
        var i :| 0 <= i < |events[1..]| && s in events[1..][i].sessions;
        assert s in events[i + 1].sessions;
      }
      if exists i :: 0 <= i < |events| && s in events[i].sessions {
        var i :| 0 <= i < |events| && s in events[i].sessions;
        if i > 0 {
          assert s in events[1..][i - 1].sessions;
        }
      }
    }
  }

  lemma FlattenSingle(e: RaceEvent)
    ensures Flatten([e]) == e.sessions
  {
    assert [e][1..] == [];
  }

  /** The sessions of an event sit between those of the events before it and
      those of the events after it. */
  lemma FlattenAround(left: seq<RaceEvent>, e: RaceEvent, right: seq<RaceEvent>)
    ensures Flatten(left + [e] + right) == Flatten(left) + e.sessions + Flatten(right)
  {
    FlattenAppend(left + [e], right);
    FlattenAppend(left, [e]);
    FlattenSingle(e);
  }

  /** Taking event `k` out of the list takes exactly its sessions out of the
      flattened list. */
  lemma FlattenWithout(left: seq<RaceEvent>, e: RaceEvent, right: seq<RaceEvent>)
    ensures multiset(Flatten(left + [e] + right)) == multiset(e.sessions) + multiset(Flatten(left + right))
  {
    FlattenAround(left, e, right);
    FlattenAppend(left, right);
  }

  /** Removing the same element from two equal multisets of events. */
  lemma RemoveMatching(a: seq<RaceEvent>, left: seq<RaceEvent>, right: seq<RaceEvent>)
    requires a != [] && multiset(a) == multiset(left + [a[0]] + right)
    ensures multiset(a[1..]) == multiset(left + right)
  {
    assert a == [a[0]] + a[1..];
    assert multiset(a[1..]) == multiset(a) - multiset{a[0]};
  }

  /** Flattening a reordering of the events gives a reordering of the
      sessions: which sessions come out does not depend on event order. */
  lemma {:induction false} FlattenPermutation(a: seq<RaceEvent>, b: seq<RaceEvent>)
    requires multiset(a) == multiset(b)
    ensures multiset(Flatten(a)) == multiset(Flatten(b))
    decreases |a|
  {
    if a == [] {
      assert |b| == |multiset(b)| == 0;
    } else {
      var e := a[0];
      assert e in multiset(b);
      var k :| 0 <= k < |b| && b[k] == e;
      var left, right := b[..k], b[k + 1..];
      assert b == left + [e] + right;
      RemoveMatching(a, left, right);
      FlattenPermutation(a[1..], left + right);
      FlattenWithout(left, e, right);
    }
  }

  /** `createSessions`: appends every event's sessions in a loop, then sorts
      the result by race start time. */
  method CreateSessions(events: seq<RaceEvent>, raceStartTime: Session -> Time) returns (sessions: seq<Session>)
    ensures multiset(sessions) == multiset(Flatten(events))
    ensures SortedBy(sessions, raceStartTime)
  {
    sessions := [];
    for i := 0 to |events|
      invariant sessions == Flatten(events[..i])
    {
      assert events[..i + 1] == events[..i] + [events[i]];
      FlattenAppend(events[..i], [events[i]]);
      assert Flatten([events[i]]) == events[i].sessions;
      sessions := sessions + events[i].sessions;
    }
    assert events[..|events|] == events;
    sessions := SortBy(sessions, raceStartTime);
  }

  /** The seven lists the controller publishes about events and sessions. */
  datatype Views = Views(
    events: seq<RaceEvent>,
    eventsInProgress: seq<RaceEvent>,
    eventsInProgressAndUpcoming: seq<RaceEvent>,
    sessions: seq<Session>,
    sessionsInProgressAndUpcoming: seq<Session>,
    liveSessions: seq<Session>,
    sessionsWithinNextTwelveHours: seq<Session>)

  /** `v` is what one refresh publishes when the record predicates behave as
      `p`, the sessions are flattened from `sessionSource`, and the timeline
      window is the open interval (`now`, `twelveHoursAway`): events sorted by
      first race date, sessions a sorted reordering of the flattened sessions,
      and each narrower view the order-keeping filter of its base list. */
  ghost predicate DerivedViews(v: Views, p: RecordPredicates, sessionSource: seq<RaceEvent>, now: Time, twelveHoursAway: Time) {
    && SortedBy(v.events, p.firstRaceDate)
    && v.eventsInProgress == Filter(v.events, NilAsFalse(p.eventInProgress))
    && v.eventsInProgressAndUpcoming == Filter(v.events, Complement(p.eventComplete))
    && multiset(v.sessions) == multiset(Flatten(sessionSource))
    && SortedBy(v.sessions, p.raceStartTime)
    && v.sessionsInProgressAndUpcoming == Filter(v.sessions, Complement(p.isComplete))
    && v.liveSessions == Filter(v.sessions, p.isInProgress)
    && v.sessionsWithinNextTwelveHours == Filter(v.sessions, StartsWithin(p.raceStartTime, now, twelveHoursAway))
  }

  /** The sorting and filtering of `downloadData` (lines 67-111): sorts the
      downloaded events, flattens and sorts the sessions of `previousEvents`
      (the events published before this download), and filters both. */
  method DeriveViews(downloaded: seq<RaceEvent>, previousEvents: seq<RaceEvent>, obs: RecordPredicates, now: Time, secondNow: Time)
    returns (views: Views)
    ensures multiset(views.events) == multiset(downloaded)
    ensures DerivedViews(views, obs, previousEvents, now, secondNow + TwelveHours)
  {
    var sortedEvents := SortBy(downloaded, obs.firstRaceDate);
    var sortedSessions := CreateSessions(previousEvents, obs.raceStartTime);
    sortedSessions := SortBy(sortedSessions, obs.raceStartTime);
    var twelveHoursAway := secondNow + TwelveHours;

    views := Views(
      sortedEvents,
      Filter(sortedEvents, NilAsFalse(obs.eventInProgress)),
      Filter(sortedEvents, Complement(obs.eventComplete)),
      sortedSessions,
      Filter(sortedSessions, Complement(obs.isComplete)),
      Filter(sortedSessions, obs.isInProgress),
      Filter(sortedSessions, StartsWithin(obs.raceStartTime, now, twelveHoursAway)));
  }

  class DataController {
    var series: seq<Series>
    var circuits: seq<Circuit>

    var events: seq<RaceEvent>
    var eventsInProgress: seq<RaceEvent>
    var eventsInProgressAndUpcoming: seq<RaceEvent>

    var sessions: seq<Session>
    var sessionsInProgressAndUpcoming: seq<Session>
    var liveSessions: seq<Session>
    var sessionsWithinNextTwelveHours: seq<Session>

    // What the published views were derived under at the last refresh: the
    // behaviour of the record predicates, the events the sessions were
    // flattened from, and the two ends of the twelve-hour window.
    ghost var predicates: RecordPredicates
    ghost var sessionSource: seq<RaceEvent>
    ghost var now: Time
    ghost var twelveHoursAway: Time

    /** The published lists, bundled. */
    ghost function Published(): Views
      reads this
    {
      Views(events, eventsInProgress, eventsInProgressAndUpcoming,
            sessions, sessionsInProgressAndUpcoming, liveSessions, sessionsWithinNextTwelveHours)
    }

    /** Every published view agrees with the lists it is derived from. */
    ghost predicate Valid()
      reads this
    {
      DerivedViews(Published(), predicates, sessionSource, now, twelveHoursAway)
    }

    /** A new controller publishes nothing until its first download completes. */
    constructor ()
      ensures Valid()
      ensures series == [] && circuits == []
      ensures Published() == Views([], [], [], [], [], [], [])
      ensures sessionSource == []
    {
      series, circuits := [], [];
      events, eventsInProgress, eventsInProgressAndUpcoming := [], [], [];
      sessions, sessionsInProgressAndUpcoming, liveSessions := [], [], [];
      sessionsWithinNextTwelveHours := [];
      predicates := RecordPredicates(_ => 0, _ => false, _ => false, _ => 0, _ => false, _ => None);
      sessionSource := [];
      now, twelveHoursAway := 0, TwelveHours;
    }

    /** The height of the timeline: 50 points per session in the next twelve hours. */
    function TimeLineHeight(): (height: nat)
      reads this
      ensures height % 50 == 0 && height / 50 == |sessionsWithinNextTwelveHours|
    {
      |sessionsWithinNextTwelveHours| * 50
    }

    /** The processing and publication of one download (`downloadData` after
        the network reply). `now` is the clock reading taken after decoding,
        `secondNow` the later reading the twelve-hour bound is computed from.
        Sessions are flattened from the events published by the PREVIOUS
        refresh, not from the ones just downloaded. Any outcome other than a
        decoded document leaves everything as it was. */
    method Refresh(download: DownloadOutcome, obs: RecordPredicates, now: Time, secondNow: Time)
      modifies this
      ensures !download.Decoded? ==> unchanged(this)
      ensures download.Decoded? ==> series == download.json.series && circuits == download.json.circuits
      ensures download.Decoded? ==> multiset(events) == multiset(download.json.events)
      ensures download.Decoded? ==> DerivedViews(Published(), obs, old(events), now, secondNow + TwelveHours)
      ensures download.Decoded? ==>
        && predicates == obs && sessionSource == old(events)
        && this.now == now && twelveHoursAway == secondNow + TwelveHours
        && Valid()
    {
      if !download.Decoded? {
        return;
      }
      var json := download.json;
      var views := DeriveViews(json.events, events, obs, now, secondNow);
      Publish(json, views, obs, events, now, secondNow + TwelveHours);
    }

    /** The block run on the main queue: every published field is replaced
        at once. */
    method Publish(json: FullDataDownload, views: Views, ghost obs: RecordPredicates,
                   ghost source: seq<RaceEvent>, ghost now: Time, ghost twelveHoursAway: Time)
      modifies this
      ensures series == json.series && circuits == json.circuits
      ensures events == views.events && eventsInProgress == views.eventsInProgress && eventsInProgressAndUpcoming == views.eventsInProgressAndUpcoming
      ensures sessions == views.sessions && sessionsInProgressAndUpcoming == views.sessionsInProgressAndUpcoming
      ensures liveSessions == views.liveSessions && sessionsWithinNextTwelveHours == views.sessionsWithinNextTwelveHours
      ensures predicates == obs && sessionSource == source
      ensures this.now == now && this.twelveHoursAway == twelveHoursAway
    {
      PublishEvents(json, views);
      PublishSessions(views, obs, source, now, twelveHoursAway);
    }

    /** The first half of the main-queue block: series, circuits and the
        three event lists. */
    method PublishEvents(json: FullDataDownload, views: Views)
      modifies this`series, this`circuits, this`events, this`eventsInProgress, this`eventsInProgressAndUpcoming
      ensures series == json.series && circuits == json.circuits
      ensures events == views.events && eventsInProgress == views.eventsInProgress && eventsInProgressAndUpcoming == views.eventsInProgressAndUpcoming
    {
      series, circuits := json.series, json.circuits;
      events, eventsInProgress, eventsInProgressAndUpcoming :=
        views.events, views.eventsInProgress, views.eventsInProgressAndUpcoming;
    }

    /** The second half of the main-queue block: the four session lists,
        with what they were derived under. */
    method PublishSessions(views: Views, ghost obs: RecordPredicates,
                           ghost source: seq<RaceEvent>, ghost now: Time, ghost twelveHoursAway: Time)
      modifies this`sessions, this`sessionsInProgressAndUpcoming, this`liveSessions, this`sessionsWithinNextTwelveHours
      modifies this`predicates, this`sessionSource, this`now, this`twelveHoursAway
      ensures sessions == views.sessions && sessionsInProgressAndUpcoming == views.sessionsInProgressAndUpcoming
      ensures liveSessions == views.liveSessions && sessionsWithinNextTwelveHours == views.sessionsWithinNextTwelveHours
      ensures predicates == obs && sessionSource == source
      ensures this.now == now && this.twelveHoursAway == twelveHoursAway
    {
      sessions, sessionsInProgressAndUpcoming, liveSessions, sessionsWithinNextTwelveHours :=
        views.sessions, views.sessionsInProgressAndUpcoming, views.liveSessions, views.sessionsWithinNextTwelveHours;
      predicates, sessionSource := obs, source;
      this.now, this.twelveHoursAway := now, twelveHoursAway;
    }

    /** `getSeriesById`: the first series whose `seriesInfo.id` is `seriesId`,
        or None when there is none. */
    function GetSeriesById(seriesId: string): (r: Option<Series>)
      reads this
      ensures r.None? <==> forall i :: 0 <= i < |series| ==> series[i].seriesInfo.id != seriesId
      ensures r.Some? ==> exists i :: IsFirstMatch(series, HasSeriesId(seriesId), i) && series[i] == r.value
    {
      match FirstIndex(series, HasSeriesId(seriesId))
      case None => None
      case Some(i) => Some(series[i])
    }

    /** `getCircuitByName`: the first circuit named exactly `circuit`, or None
        when there is none. */
    function GetCircuitByName(circuit: string): (r: Option<Circuit>)
      reads this
      ensures r.None? <==> forall i :: 0 <= i < |circuits| ==> circuits[i].circuit != circuit
      ensures r.Some? ==> exists i :: IsFirstMatch(circuits, IsNamed(circuit), i) && circuits[i] == r.value
    {
      match FirstIndex(circuits, IsNamed(circuit))
      case None => None
      case Some(i) => Some(circuits[i])
    }
  }

  /** The closure `getSeriesById` searches with. */
  function HasSeriesId(seriesId: string): Series -> bool {
    (x: Series) => x.seriesInfo.id == seriesId
  }

  /** The closure `getCircuitByName` searches with. */
  function IsNamed(circuit: string): Circuit -> bool {
    (x: Circuit) => x.circuit == circuit
  }
}
