/** What the published views mean for the screens that read them: each view
    holds exactly the elements its filter keeps, in the order of its base
    list, and the twelve-hour window excludes both of its ends. */
module ViewProperties {
  import opened Collections
  import opened Records
  import opened DataControllers

  /** `eventsInProgress` holds exactly the events whose in-progress flag is
      present and true (nil counts as false), in the order of `events`, and
      `eventsInProgressAndUpcoming` exactly the events not complete, in order. */
  lemma EventViews(v: Views, p: RecordPredicates, source: seq<RaceEvent>, now: Time, limit: Time)
    requires DerivedViews(v, p, source, now, limit)
    ensures forall e :: e in v.eventsInProgress <==> e in v.events && p.eventInProgress(e) == Some(true)
    ensures forall e :: e in v.eventsInProgressAndUpcoming <==> e in v.events && !p.eventComplete(e)
    ensures IsSubsequence(v.eventsInProgress, v.events)
    ensures IsSubsequence(v.eventsInProgressAndUpcoming, v.events)
    ensures SortedBy(v.eventsInProgress, p.firstRaceDate)
    ensures SortedBy(v.eventsInProgressAndUpcoming, p.firstRaceDate)
  {
    var inProgress, notComplete := NilAsFalse(p.eventInProgress), Complement(p.eventComplete);
    FilterMembership(v.events, inProgress);
    FilterMembership(v.events, notComplete);
    FilterIsSubsequence(v.events, inProgress);
    FilterIsSubsequence(v.events, notComplete);
    FilterKeepsSorted(v.events, inProgress, p.firstRaceDate);
    FilterKeepsSorted(v.events, notComplete, p.firstRaceDate);
  }

  /** The incomplete events and the complete events split `events` between
      them: every event is in exactly one of the two, as often as in `events`. */
  lemma EventsPartition(v: Views, p: RecordPredicates, source: seq<RaceEvent>, now: Time, limit: Time)
    requires DerivedViews(v, p, source, now, limit)
    ensures multiset(v.eventsInProgressAndUpcoming) + multiset(Filter(v.events, p.eventComplete)) == multiset(v.events)
    ensures forall e :: !(e in v.eventsInProgressAndUpcoming && e in Filter(v.events, p.eventComplete))
  {
    FilterPartition(v.events, p.eventComplete);
  }

  /** `sessionsInProgressAndUpcoming` holds exactly the sessions not complete
      and `liveSessions` exactly the sessions in progress, each in the order
      of `sessions`. */
  lemma SessionViews(v: Views, p: RecordPredicates, source: seq<RaceEvent>, now: Time, limit: Time)
    requires DerivedViews(v, p, source, now, limit)
    ensures forall s :: s in v.sessionsInProgressAndUpcoming <==> s in v.sessions && !p.isComplete(s)
    ensures forall s :: s in v.liveSessions <==> s in v.sessions && p.isInProgress(s)
    ensures IsSubsequence(v.sessionsInProgressAndUpcoming, v.sessions)
    ensures IsSubsequence(v.liveSessions, v.sessions)
    ensures SortedBy(v.sessionsInProgressAndUpcoming, p.raceStartTime)
    ensures SortedBy(v.liveSessions, p.raceStartTime)
  {
    var notComplete := Complement(p.isComplete);
    FilterMembership(v.sessions, notComplete);
    FilterMembership(v.sessions, p.isInProgress);
    FilterIsSubsequence(v.sessions, notComplete);
    FilterIsSubsequence(v.sessions, p.isInProgress);
    FilterKeepsSorted(v.sessions, notComplete, p.raceStartTime);
    FilterKeepsSorted(v.sessions, p.isInProgress, p.raceStartTime);
  }

  /** The published sessions are the sessions of the source events, none
      dropped and none repeated: a session is published exactly when one of
      the source events holds it, and there are as many as the source events
      hold between them. */
  lemma SessionsFromSource(v: Views, p: RecordPredicates, source: seq<RaceEvent>, now: Time, limit: Time)
    requires DerivedViews(v, p, source, now, limit)
    ensures |v.sessions| == SessionCount(source)
    ensures forall s :: s in v.sessions <==> exists i :: 0 <= i < |source| && s in source[i].sessions
  {
    FlattenLength(source);
    assert |v.sessions| == |multiset(v.sessions)| == |multiset(Flatten(source))|;
    forall s ensures s in v.sessions <==> exists i :: 0 <= i < |source| && s in source[i].sessions {
      FlattenMembership(source, s);
      assert s in v.sessions <==> s in multiset(v.sessions);
      assert s in Flatten(source) <==> s in multiset(Flatten(source));
    }
  }

  /** Every session in the timeline starts strictly inside the window; a
      session starting exactly at either end is left out; and the timeline
      keeps the order of `sessions`. */
  lemma WindowBounds(v: Views, p: RecordPredicates, source: seq<RaceEvent>, now: Time, limit: Time)
    requires DerivedViews(v, p, source, now, limit)
    ensures forall s :: s in v.sessionsWithinNextTwelveHours <==> s in v.sessions && now < p.raceStartTime(s) < limit
    ensures forall s :: p.raceStartTime(s) == now || p.raceStartTime(s) == limit ==> s !in v.sessionsWithinNextTwelveHours
    ensures IsSubsequence(v.sessionsWithinNextTwelveHours, v.sessions)
    ensures SortedBy(v.sessionsWithinNextTwelveHours, p.raceStartTime)
  {
    var within := StartsWithin(p.raceStartTime, now, limit);
    FilterMembership(v.sessions, within);
    FilterIsSubsequence(v.sessions, within);
    FilterKeepsSorted(v.sessions, within, p.raceStartTime);
  }

  /** The bound of the window is taken from a second clock reading
      `secondNow`, no earlier than `now`: the timeline then holds every
      session starting in the twelve hours after `now`, and possibly some
      starting up to `secondNow - now` seconds later. */
  lemma WindowCoversTwelveHours(v: Views, p: RecordPredicates, source: seq<RaceEvent>, now: Time, secondNow: Time)
    requires now <= secondNow
    requires DerivedViews(v, p, source, now, secondNow + TwelveHours)
    ensures forall s :: s in v.sessions && now < p.raceStartTime(s) < now + TwelveHours ==> s in v.sessionsWithinNextTwelveHours
    ensures forall s :: s in v.sessionsWithinNextTwelveHours ==> p.raceStartTime(s) < secondNow + TwelveHours
  {
    FilterMembership(v.sessions, StartsWithin(p.raceStartTime, now, secondNow + TwelveHours));
  }

  /** The timeline is 50 points for each published session that starts
      strictly inside the window, so never more than 50 points for each
      session the source events hold. */
  lemma TimeLineHeightBound(c: DataController)
    requires c.Valid()
    ensures c.TimeLineHeight() == 50 * |Filter(c.sessions, StartsWithin(c.predicates.raceStartTime, c.now, c.twelveHoursAway))|
    ensures c.TimeLineHeight() <= 50 * SessionCount(c.sessionSource)
  {
    SessionsFromSource(c.Published(), c.predicates, c.sessionSource, c.now, c.twelveHoursAway);
  }

  /** Three sessions at time `t`: one that started an hour ago and is
      running, one starting in an hour and one starting in twenty hours. Only
      the one starting in an hour is on the timeline, and only the running
      one is live. */
  lemma TimelineExample(past: Session, soon: Session, later: Session, p: RecordPredicates, t: Time)
    requires p.raceStartTime(past) == t - 3600
    requires p.raceStartTime(soon) == t + 3600
    requires p.raceStartTime(later) == t + 20 * 3600
    requires p.isInProgress(past) && !p.isInProgress(soon) && !p.isInProgress(later)
    ensures Filter([past, soon, later], StartsWithin(p.raceStartTime, t, t + TwelveHours)) == [soon]
    ensures Filter([past, soon, later], p.isInProgress) == [past]
  {
    var within := StartsWithin(p.raceStartTime, t, t + TwelveHours);
    assert [past, soon, later][1..] == [soon, later];
    assert [soon, later][1..] == [later];
    assert [later][1..] == [];
    assert Filter([later], within) == [];
    assert Filter([later], p.isInProgress) == [];
  }

  /** Because sessions are flattened from the events published before a
      download, a new controller shows no sessions after its first download,
      however many sessions that download holds; the sessions catch up with
      a second download of the same document. */
  method SessionsLagOneRefresh(json: FullDataDownload, p: RecordPredicates, now: Time, secondNow: Time)
    returns (afterFirst: seq<Session>, afterSecond: seq<Session>)
    ensures afterFirst == []
    ensures multiset(afterSecond) == multiset(Flatten(json.events))
  {
    var c := new DataController();
    c.Refresh(Decoded(json), p, now, secondNow);
    afterFirst := c.sessions;
    var firstEvents := c.events;
    c.Refresh(Decoded(json), p, now, secondNow);
    afterSecond := c.sessions;
    FlattenPermutation(firstEvents, json.events);
  }

  /** Of several series sharing an identifier, `getSeriesById` returns the
      one at the lowest index, whatever the others hold. */
  lemma SeriesLookupTakesFirst(c: DataController, seriesId: string, k: int)
    requires 0 <= k < |c.series| && c.series[k].seriesInfo.id == seriesId
    requires forall j :: 0 <= j < k ==> c.series[j].seriesInfo.id != seriesId
    ensures c.GetSeriesById(seriesId) == Some(c.series[k])
  {
    var r := c.GetSeriesById(seriesId);
    assert r.Some?;
    var i :| IsFirstMatch(c.series, HasSeriesId(seriesId), i) && c.series[i] == r.value;
    assert HasSeriesId(seriesId)(c.series[k]);
    assert c.series[i].seriesInfo.id == seriesId;
  }

  /** Of several circuits sharing a name, `getCircuitByName` returns the one
      at the lowest index, whatever the others hold. */
  lemma CircuitLookupTakesFirst(c: DataController, circuit: string, k: int)
    requires 0 <= k < |c.circuits| && c.circuits[k].circuit == circuit
    requires forall j :: 0 <= j < k ==> c.circuits[j].circuit != circuit
    ensures c.GetCircuitByName(circuit) == Some(c.circuits[k])
  {
    var r := c.GetCircuitByName(circuit);
    assert r.Some?;
    var i :| IsFirstMatch(c.circuits, IsNamed(circuit), i) && c.circuits[i] == r.value;
    assert IsNamed(circuit)(c.circuits[k]);
    assert c.circuits[i].circuit == circuit;
  }
}
