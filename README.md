# The racing line: data controller model

A Dafny model of the data controller of a motorsport schedule app
(`DataControllers/DataController.swift`). The controller downloads one JSON
document holding the racing series, the circuits and the race events (each
event owning its sessions). From it the controller publishes:

- the events sorted by first race date,
- all sessions flattened out of the events and sorted by start time,
- five filtered views: events in progress, events not yet complete, sessions
  not yet complete, live sessions, and sessions starting in the next twelve
  hours.

It also offers a timeline height and two lookups, a series by identifier and
a circuit by name.

Layout:

- `collections.dfy`, module `Collections`: the parts of Swift's library the
  controller uses, stated over sequences. These are a sort by an integer key
  (`SortBy`), `filter` (`Filter`) and `firstIndex(where:)` (`FirstIndex`),
  with their lemmas.
- `records.dfy`, module `Records`: the records (`RaceEvent`, `Series`,
  `Circuit`, the decoded document `FullDataDownload`) and the ways a download
  can end (`DownloadOutcome`). `Session` is an abstract type. The six record
  methods the controller calls (`raceStartTime`, `isComplete`, `isInProgress`,
  `firstRaceDate`, `eventComplete`, `eventInProgress`) are defined in other
  files of the app. Here they are the fields of `RecordPredicates`: arbitrary
  functions, taken as they behave during one refresh.
- `data_controller.dfy`, module `DataControllers`:
  - `CreateSessions`: a loop that appends each event's sessions, then a sort.
  - `DeriveViews`: the sorting and filtering of `downloadData`.
  - The class `DataController`, with the nine published fields. `Refresh`
    handles one download outcome. `Publish` is the main-queue block that
    replaces every field, in two halves (`PublishEvents`, `PublishSessions`).
  - Ghost fields record what the views were derived under: the record
    predicates, the events the sessions came from, and the window's two ends.
  - `Valid()` ties the views to those ghost fields.
- `view_properties.dfy`, module `ViewProperties`: what each published view
  holds, proved from `DerivedViews`, the predicate that `Valid()` and
  `Refresh` establish.

Behaviour worth knowing, modelled as the code has it:

- Sessions come from the events published by the previous refresh. The code
  flattens `self.events`, not the freshly decoded events (line 72). The
  session views therefore lag one download behind the event views. A new
  controller shows no sessions after its first download, and the sessions
  catch up after a second download of the same document
  (`SessionsLagOneRefresh`).
- The window has two clock readings. `now` (line 67) is the lower bound. A
  second reading (line 75), the `secondNow` parameter, plus twelve hours is
  the upper bound. Both bounds are strict.
- The sessions are sorted twice: in `createSessions` (line 146) and again at
  line 73. Both sorts are modelled.
- An event whose in-progress flag is nil counts as not in progress (lines
  91-95).
- The field the code spells `seessionsInProgressAndUpcoming` is named
  `sessionsInProgressAndUpcoming` here.
- The sorts are Swift's `sort`, which is not documented as stable, so only
  sortedness and permutation are promised. The model's `SortBy` is an
  insertion sort standing for it.
- The lookups return the whole record found at the first matching index. A
  `Series` or `Circuit` carries the rest of its record as an opaque payload
  (`SeriesData`, `CircuitData`), so two records with the same key can
  differ, and `SeriesLookupTakesFirst` and `CircuitLookupTakesFirst` show
  which of them comes back.

## Model

| member | source | states |
|---|---|---|
| `Collections.SortBy` | DataControllers/DataController.swift:69-73 | The sort of events by first race date and of sessions by start time: the result is sorted non-decreasingly by the key and is a permutation of the input (same multiset, same length). |
| `Collections.FilterMembership` | DataControllers/DataController.swift:90-111 | A filter keeps an element exactly when it is in the input and satisfies the closure. |
| `Collections.FilterMultiplicity` | DataControllers/DataController.swift:90-111 | A filter keeps every occurrence of a satisfying element and none of the others. |
| `Collections.FilterIsSubsequence` | DataControllers/DataController.swift:90-111 | A filter's result is a subsequence of its input: relative order is kept. |
| `Collections.FilterKeepsSorted` | DataControllers/DataController.swift:90-111 | Filtering a sorted list gives a sorted list. |
| `Collections.FilterPartition` | DataControllers/DataController.swift:98 | Filtering by a predicate and by its complement splits the input: the two multisets add up to the input's, the lengths add up, and no element is in both. |
| `Collections.FirstIndex` | DataControllers/DataController.swift:124-138 | `firstIndex(where:)`: returns an in-range index whose element matches and before which none matches, or None exactly when nothing matches. |
| `DataControllers.FlattenLength` | DataControllers/DataController.swift:142-145 | The flattened sessions number exactly the sum of the events' session counts. |
| `DataControllers.FlattenMembership` | DataControllers/DataController.swift:142-145 | A session is in the flattened list exactly when some event holds it. |
| `DataControllers.FlattenPermutation` | DataControllers/DataController.swift:140-149 | Reordering the events only reorders the flattened sessions: which sessions come out, and how often, does not depend on event order. |
| `DataControllers.CreateSessions` | DataControllers/DataController.swift:140-149 | The loop plus sort returns a permutation of all events' sessions concatenated, sorted non-decreasingly by `raceStartTime()`. |
| `DataControllers.DeriveViews` | DataControllers/DataController.swift:67-111 | The events are a sorted permutation of the downloaded events. The sessions are a sorted permutation of the previous events' flattened sessions. Each of the five views is its filter of the sorted base list. |
| `DataControllers.DataController.constructor` | DataControllers/DataController.swift:16-30 | A new controller publishes empty lists and is valid. |
| `DataControllers.DataController.Refresh` | DataControllers/DataController.swift:45-119 | A failed download leaves every field unchanged: invalid URL, transport error, no data or decode error. A decoded document replaces series and circuits with the downloaded ones. Events become a sorted permutation of the downloaded events. The views are derived from the previous events, `now` and `secondNow + 12h`, and the controller is valid afterwards. |
| `DataControllers.DataController.Publish` | DataControllers/DataController.swift:77-114 | The main-queue block replaces every published field with the derived value. |
| `DataControllers.DataController.PublishEvents` | DataControllers/DataController.swift:79-98 | Series, circuits and the three event lists become the downloaded and derived values; no session field changes. |
| `DataControllers.DataController.PublishSessions` | DataControllers/DataController.swift:104-111 | The four session lists become the derived values; no series, circuit or event field changes. |
| `DataControllers.DataController.GetSeriesById` | DataControllers/DataController.swift:124-130 | Returns the whole record at the first index whose `seriesInfo.id` equals the argument, or None exactly when no series has that id. |
| `DataControllers.DataController.GetCircuitByName` | DataControllers/DataController.swift:132-138 | Returns the whole record at the first index whose name equals the argument, or None exactly when no circuit has that name. |
| `ViewProperties.EventViews` | DataControllers/DataController.swift:88-98 | `eventsInProgress` holds exactly the events whose flag is present and true, and `eventsInProgressAndUpcoming` exactly the incomplete events. Both are subsequences of `events` and sorted by first race date. |
| `ViewProperties.EventsPartition` | DataControllers/DataController.swift:98 | The incomplete events and the complete events partition `events` with no overlap. |
| `ViewProperties.SessionViews` | DataControllers/DataController.swift:104-108 | The incomplete-sessions view holds exactly the sessions not complete, and `liveSessions` exactly those in progress. Both are subsequences of `sessions` and sorted by start time. |
| `ViewProperties.SessionsFromSource` | DataControllers/DataController.swift:72 | The published sessions number exactly the source events' session count, and a session is published exactly when a source event holds it. |
| `ViewProperties.WindowBounds` | DataControllers/DataController.swift:111 | The twelve-hour view holds exactly the sessions starting strictly inside the window, in order and sorted. A session starting at either end is excluded. |
| `ViewProperties.WindowCoversTwelveHours` | DataControllers/DataController.swift:67-111 | With `now <= secondNow`, the view holds every session starting within twelve hours after `now`, and none starting at or after `secondNow + 12h`. |
| `ViewProperties.TimeLineHeightBound` | DataControllers/DataController.swift:32-34 | For a valid controller the height is 50 times the number of published sessions starting strictly inside the window. It is at most 50 times the number of sessions the source events hold. |
| `ViewProperties.TimelineExample` | DataControllers/DataController.swift:108-111 | Three sessions at time t: one started an hour ago and running, one starting in an hour, one starting in twenty hours. Only the second is in the window, and only the first is live. |
| `ViewProperties.SessionsLagOneRefresh` | DataControllers/DataController.swift:72 | After a new controller's first download the sessions are empty. After a second download of the same document they are a permutation of that document's sessions. |
| `ViewProperties.SeriesLookupTakesFirst` | DataControllers/DataController.swift:124-130 | When index k holds the first series with the given id, the lookup returns exactly that record, even if later series share the id. |
| `ViewProperties.CircuitLookupTakesFirst` | DataControllers/DataController.swift:132-138 | When index k holds the first circuit with the given name, the lookup returns exactly that record, even if later circuits share the name. |

## Left out

- The request and the network: the `Keys` collaborator, header construction and the `URLSession` data task (lines 41-53, 121). Their results arrive as a `DownloadOutcome`.
- `JSONDecoder` (line 65) and the schema of the document, which is defined in other files. A decoded document is an input, and a decoding failure is the `DecodeError` outcome.
- Threads and reactivity: `DispatchQueue.main.async`, `@Published`/`ObservableObject` and the `shared` singleton (lines 12-26, 77). The publication is one atomic replacement of the fields (`Publish`). A download that overlaps another is not modelled. Neither is `self.events` changing between the background read at line 72 and the publication.
- `init` starts a download (line 29). The download completes asynchronously, so the constructor publishes empty lists, and the download is a later `Refresh` call.
- The `print` logging throughout.
- `Date`, SwiftDate's `12.hours` and `CGFloat`: times are whole seconds (`Time`), twelve hours is 43200 s, and the timeline height is a natural number.
- The bodies of `firstRaceDate`, `eventComplete`, `eventInProgress`, `raceStartTime`, `isComplete` and `isInProgress`, which are defined outside this file. They are arbitrary functions fixed for one refresh.
- The fields of `Session` and `RaceEvent` that the controller does not read. The unread fields of `Series` and `Circuit` are one opaque payload each.
- Collections.SortBy: promises sortedness and permutation only. Swift's sort is not documented as stable, so tie order is unspecified.
- DataControllers.DataController.GetSeriesById: identifiers compare as sequences of characters. Swift's `String ==` compares by Unicode canonical equivalence, and the model has no Unicode normalisation.
- DataControllers.DataController.GetCircuitByName: names compare as sequences of characters, not by Swift's Unicode canonical equivalence. For example, "Nu\u0308rburgring" does not match "N\u00fcrburgring" here.
