# Lock-transit detector, modelled in Dafny

This project models the core of SoundMariner, a detector that watches a time-ordered stream of
AIS vessel sightings. It reports each passage of a vessel through the Ballard Locks as a
*locking*: the vessel, where it was first seen in the first and in the second lock-side zone it
crossed, and the direction of travel. The model has four parts, one module each, and a fifth
module of worked streams:

- `Zones` (zone.dfy, from `src/zone.ts`): the per-zone occupancy state machine. A zone keeps,
  for each vessel it believes to be inside, a count of inside sightings and the earliest time
  it knows of. It reports at most one of `Entered`, `Within` or `Exited` per sighting. The rule
  against out-of-order reports is modelled too: a sighting earlier than the recorded entry time
  moves that time back, or is ignored when it lies outside the zone.
- `Tracker` (tracker.dfy, from `src/tracker.ts`): the track registry. Each vessel has a list of
  tracking episodes ("tracks"), and only the newest can be active. A track is a list of
  sightings, kept in time order by ordered insertion. The registry also holds vessel names,
  recorded the first time a named record is appended.
- `Transit` (transit.dfy, from `src/main.ts`): the correlator behind the zones' callback
  `myZoneFunction`. `Entered` starts tracking. `Exited` ends the track once it has crossed as
  many distinct zones as are configured, and then records a `Locking` (`recordLocking`).
- `Watch` (watch.dfy, from `src/watcher.ts`): the dispatcher. It stores the zones by
  identifier. Each record goes to every zone in `getZones` order, each zone's event reaching
  the callback before the next zone runs. Then the record goes to the tracker if the vessel is
  tracked at that point.
- `Scenario` (scenario.dfy): two concrete record streams, run whole through `Run`, on the
  detector's configuration: the west-side zone added first, then the east side.

Each module has two layers:

- Value-level functions say what an operation does: `Observe`, `Started`, `Stopped`,
  `Appended`, `React`, `FeedZones`, `Dispatched` and `Run`.
- Classes mirror the source's objects and update their fields in place: `Zone`, `VesselTrack`,
  `VesselTracker`, `Correlator` and `Watcher`. Each method states its new state as the
  value-level function applied to its old state. `VesselTracker` keeps a ghost `Model` of the
  registry, tied to its objects by `Valid()`.

The properties are proved as lemmas about the value-level functions.

Two kinds of failure end a run in the source. Both are modelled as a `false` verdict, after
which nothing more changes:

- the `'IMPOSSIBLE!'` throw, when an `Exited` event arrives for a vessel with no active track;
- the `TypeError` in `recordLocking`, when the track crossed fewer than two distinct zones.

The `'IMPOSSIBLE!'` throw can actually be reached: `Scenario.StaleReportHalts` shows it, on the
detector's own zone order. A report stamped earlier than the west zone's entry time is ignored
by the west zone but taken in by the east zone, so the vessel is held by both zones. The next
outside report completes the transit at the west zone and ends the track. The east zone then
reports `Exited` for a vessel that is no longer tracked. The model keeps this behaviour: the
run stops with verdict `false` after the locking has been recorded.

Where the program's evident intent and its code differ, the model follows the code:

- A vessel is meant to have at most one active track. `startTracking` does not enforce this: it
  pushes a new active track even while one is active, and only the newest track is ever
  consulted. The model does the same. `StartedKeepsOnlyNewestActive` shows that "every track
  but the newest is ended" survives `startTracking` exactly when the vessel was not tracked.
  That is the only way `myZoneFunction` calls it.
- A zone could count as visited when any sighting of the track lies inside it. `zonesInPath`
  (src/main.ts:16-26) credits each sighting only to the first configured zone that holds it,
  so where zones overlap a sighting counts for one zone only. The model does the same (`ZoneOf`,
  `ZonesInPathMembers`).
- The model takes the zone order as a parameter. `Scenario` uses the order in which
  src/main.ts adds the zones: the west side, then the east side.

## Model

| member | source | states |
|---|---|---|
| Zones.Observe | src/zone.ts:27-59 | `addSighting` on one table, as a value: the new table and the event reported, if any. `ObserveSpec` states what it means. |
| Zones.ObserveSpec | src/zone.ts:27-59 | One sighting reports `Entered` exactly when it is inside and the vessel has no entry. It reports `Within` exactly when it is inside and not earlier than the entry time, and `Exited` exactly when it is outside and not earlier. Only the sighting vessel's entry changes. An inside sighting adds one to the count and can only move the entry time back. A stale outside sighting leaves the entry as it was. |
| Zones.Replay | src/zone.ts:27-59 | Feeding a sequence of sightings yields one report slot per sighting. |
| Zones.InsideRun | src/zone.ts:29-45 | Take a new vessel seen only inside, never before its first sighting. Its first sighting reports `Entered` and every later one `Within`. The count equals the number of sightings, the entry time is the first sighting's, and other entries are untouched. |
| Zones.RepeatedSighting | src/zone.ts:29-38 | The same inside sighting twice, for a vessel already in since no later than the sighting's time: two `Within` reports and the count up by two. |
| Zones.Zone.constructor | src/zone.ts:10-17 | A new zone has its identifier and region and an empty table. |
| Zones.Zone.GetVesselsWithin | src/zone.ts:19-25 | A vessel is listed exactly when `containsVessel` holds for it. |
| Zones.Zone.AddSighting | src/zone.ts:27-59 | The new table and the reported event are those `Observe` gives for the old table and the zone's verdict on the position. |
| Tracker.FindLater | src/tracker.ts:34 | `findIndex`: the first position with a strictly later time, every earlier one no later; -1 exactly when there is none. |
| Tracker.InsertionPoint | src/tracker.ts:34-38 | Every sighting before the insertion point is no later than the new one, and the one at it is strictly later. |
| Tracker.Insert | src/tracker.ts:32-40 | Insertion makes the track one longer. |
| Tracker.InsertAt | src/tracker.ts:34-39 | Insertion splices the sighting in at its insertion point. |
| Tracker.InsertIsSplice | src/tracker.ts:34-39 | Insertion is the `splice` at the `findIndex` position, or a `push` when it is -1. |
| Tracker.InsertContents | src/tracker.ts:32-40 | The new sighting is at the insertion point; earlier elements stay in place and later ones move up by one. |
| Tracker.InsertPermutation | src/tracker.ts:32-40 | The result holds exactly the old sightings plus the new one (multiset). |
| Tracker.InsertSorted | src/tracker.ts:32-40 | A track sorted by time stays sorted. |
| Tracker.InsertEarliest | src/tracker.ts:34-36 | A sighting earlier than all others becomes element 0. |
| Tracker.InsertAfterEqual | src/tracker.ts:34 | In a sorted track, a sighting goes after every sighting no later than it, so after those of equal time. |
| Tracker.VesselTrack.constructor | src/tracker.ts:23-27 | A new track is empty and active. |
| Tracker.VesselTrack.End | src/tracker.ts:30 | `end` makes the track inactive and keeps its sightings; ending again changes nothing further. |
| Tracker.VesselTrack.AddSighting | src/tracker.ts:32-40 | The track becomes the ordered insertion of the sighting; the active flag is unchanged. |
| Tracker.AllTracks | src/tracker.ts:96-98 | A vessel never tracked has no tracks. |
| Tracker.ActiveIndex | src/tracker.ts:58-61 | The active index exists exactly when the newest track exists and is active, and it is the newest track's position. |
| Tracker.Tracking | src/tracker.ts:79-81 | `isTracking` on the registry value: true exactly when the vessel's newest track exists and is active, so an older active track is never consulted. |
| Tracker.ActiveOf | src/tracker.ts:100-103 | An active track is found exactly when the vessel is tracked, and it is the newest track. |
| Tracker.VesselData | src/tracker.ts:105-107 | Metadata is absent exactly for an unknown vessel. |
| Tracker.Started | src/tracker.ts:65-70 | `startTracking` on the registry value: a fresh, empty, active track pushed onto the vessel's list. `StartedSpec` states what it means. |
| Tracker.StartedSpec | src/tracker.ts:65-70 | `startTracking` appends one empty active track, leaves earlier tracks and other vessels alone, and the new track is the active one. |
| Tracker.Stopped | src/tracker.ts:72-77 | `stopTracking` on the registry value: the track at `activeTrackIndex`, if any, ended. `StoppedSpec` states what it means. |
| Tracker.StoppedSpec | src/tracker.ts:72-77 | After `stopTracking` the vessel is not tracked. Only active flags of its tracks change, and only the newest one can change. Other vessels are unaffected, and nothing changes for an untracked vessel. |
| Tracker.WithVessel | src/tracker.ts:109-114 | `setVesselData` on the registry value: the vessel's record set to its identifier and name. `WithVesselSpec` states what it means. |
| Tracker.WithVesselSpec | src/tracker.ts:109-114 | `setVesselData` overwrites the vessel's metadata and nothing else. |
| Tracker.InsertedIntoActive | src/tracker.ts:90-93 | The track half of `addSighting` on the registry value: ordered insertion into the track at `activeTrackIndex`, if any. `InsertedIntoActiveSpec` states what it means. |
| Tracker.InsertedIntoActiveSpec | src/tracker.ts:90-93 | Only the vessel's active (newest) track receives the sighting, by ordered insertion. Nothing changes when it is untracked, and whether it is tracked is unchanged. |
| Tracker.Appended | src/tracker.ts:85-94 | `addSighting` on the registry value: the name of a named record stored when the vessel has no metadata, then the insertion into the active track. `AppendedSpec` states what it means. |
| Tracker.AppendedSpec | src/tracker.ts:85-94 | A record's name is stored only when the vessel has no metadata yet; existing metadata is never overwritten. The tracks change only by the insertion into the active track. |
| Tracker.InsertedIntoActiveReadsTracks | src/tracker.ts:90-93 | Insertion into the active track does not depend on the metadata. |
| Tracker.AtMostOneActive | src/tracker.ts:58-61 | While only the newest track can be active, no two tracks of a vessel are active. |
| Tracker.StartedKeepsOnlyNewestActive | src/tracker.ts:65-70 | Starting a track keeps "every track but the newest is ended" exactly when the vessel was not tracked. |
| Tracker.StartedWellFormed | src/tracker.ts:65-70 | Starting a track keeps every track filed under its vessel and sorted. |
| Tracker.StoppedKeepsInvariants | src/tracker.ts:72-77 | Stopping keeps the registry well formed and only the newest track active. |
| Tracker.AppendedKeepsInvariants | src/tracker.ts:85-94 | Appending a record keeps every track sorted and only the newest active. |
| Tracker.VesselTracker.constructor | src/tracker.ts:55-63 | A new tracker has no tracks and no metadata. |
| Tracker.VesselTracker.ActiveTrackIndex | src/tracker.ts:58-61 | Agrees with `ActiveIndex` on the model: the last position, when that track is active. |
| Tracker.VesselTracker.IsTracking | src/tracker.ts:79-81 | True exactly when the model tracks the vessel. |
| Tracker.VesselTracker.GetActiveTrack | src/tracker.ts:100-103 | Returns the newest track object exactly when the vessel is tracked, and its state is the model's active track. |
| Tracker.VesselTracker.GetAllTracks | src/tracker.ts:96-98 | The track objects, in order, with the model's states. |
| Tracker.VesselTracker.GetVesselData | src/tracker.ts:105-107 | Agrees with `VesselData` on the model. |
| Tracker.VesselTracker.StartTracking | src/tracker.ts:65-70 | The model becomes `Started` of the old one, with a fresh track object. |
| Tracker.VesselTracker.StopTracking | src/tracker.ts:72-77 | The model becomes `Stopped` of the old one; no objects are added. |
| Tracker.VesselTracker.SetVesselData | src/tracker.ts:109-114 | The model becomes `WithVessel` of the old one. |
| Tracker.VesselTracker.AddSighting | src/tracker.ts:85-94 | The model becomes `Appended` of the old one. |
| Tracker.VesselTracker.InsertIntoActive | src/tracker.ts:90-93 | The model becomes `InsertedIntoActive` of the old one. |
| Transit.FirstZoneIndex | src/main.ts:19 | The position found is a zone index, or -1. |
| Transit.FirstZoneIndexSpec | src/main.ts:19 | `getZones().find(...)`: the zone found holds the position and no zone before it does; -1 exactly when no zone holds it. |
| Transit.ZoneOf | src/main.ts:19 | The identifier of the first configured zone holding a position, absent when none does (`find(...)?.id`). `ZoneOfSpec` states what it means. |
| Transit.ZoneOfSpec | src/main.ts:19 | A sighting has a zone exactly when some configured zone holds it, and that zone is configured. |
| Transit.ZonesInPath | src/main.ts:16-26 | The path is no longer than the track. |
| Transit.ZonesInPathIds | src/main.ts:16-26 | Only configured zone identifiers occur on the path. |
| Transit.ZonesInPathSingle | src/main.ts:18-24 | One sighting's path is its zone, or nothing when it is in no zone. |
| Transit.ZonesInPathConcat | src/main.ts:16-26 | The path of a concatenation is the concatenation of the paths, so it follows track order. |
| Transit.ZonesInPathMembers | src/main.ts:16-26 | A zone is on the path exactly when some sighting lies first in it. |
| Transit.ZonesInPathLength | src/main.ts:16-26 | The path is as long as the track exactly when every sighting lies in some zone. |
| Transit.Tally | src/main.ts:30-34 | The reduction of `zoneCountsInPath`: starting from an empty dictionary, each zone's entry set to 0 on first sight, then incremented. `TallySpec` states what it means. |
| Transit.TallySpec | src/main.ts:30-34 | The reduction's keys are exactly the path's elements, each holding its number of occurrences, which is positive. |
| Transit.ZoneCountsInPath | src/main.ts:28-35 | `zoneCountsInPath`: the tally of the track's path. `ZoneCountsInPathSpec` states what it means. |
| Transit.ZoneCountsInPathSpec | src/main.ts:28-35 | `zoneCountsInPath`: every zone on the path counted with its multiplicity, and no other key. |
| Transit.PositiveCount | src/main.ts:52 | `Object.values(counts).filter(n => n > 0).length`: the number of keys with a positive count. `PositiveCountAll` and `DistinctZones` state what it is on a tally. |
| Transit.PositiveCountAll | src/main.ts:52 | With all counts positive, the filter keeps every key. |
| Transit.Dedup | src/main.ts:142 | Removing repetitions never lengthens the list. |
| Transit.DedupSpec | src/main.ts:142 | `[...new Set(p)]` has no repetition, exactly the elements of `p`, and `p`'s first element first. |
| Transit.DedupOrder | src/main.ts:142 | The distinct zones appear in the order of their first occurrence on the path. |
| Transit.DistinctZones | src/main.ts:52 | `Exited`'s test counts the distinct zones on the path. |
| Transit.Completed | src/main.ts:52 | `Exited`'s completion test: as many positive counts as configured zones. `DistinctZones` shows it counts the distinct zones on the path. |
| Transit.ZoneById | src/watcher.ts:20 | `getZone` over the configured zones: the zone with that identifier, absent when none has it. `ZoneByIdSpec` states what it means. |
| Transit.ZoneByIdSpec | src/watcher.ts:20 | `getZone` finds a zone exactly when one has the identifier. The zone found has that identifier, and it is the only one when identifiers are unique. |
| Transit.FindInside | src/main.ts:146-147 | `t.find`'s position is a track index, or -1. |
| Transit.FindInsideSpec | src/main.ts:146-147 | The position found is inside the region and none before it is; -1 exactly when none is. |
| Transit.Traversed | src/main.ts:142 | `traversedZones`: the path without repetitions, in order of first occurrence. `TraversedSpec` and `DedupOrder` state what it means. |
| Transit.TraversedSpec | src/main.ts:142 | The traversed zones are distinct and are exactly the zones on the path. |
| Transit.TraversedZoneReached | src/main.ts:142-147 | With unique identifiers, a traversed zone is found by `getZone`, and some sighting of the track lies inside it. |
| Transit.FirstInside | src/main.ts:146-147 | `t.find(...)`, falling back to `t[0]`: the first sighting inside the region, else the track's first sighting. `FindInsideSpec` and `LockingEndpoints` state what it gives. |
| Transit.MakeLocking | src/main.ts:139-151 | The record `recordLocking` pushes, absent where building it throws. `MakeLockingSpec`, `LockingEndpoints` and `DirectionOfTransit` state what it means. |
| Transit.MakeLockingSpec | src/main.ts:139-151 | A locking is built exactly when at least two zones were traversed. Its `mmsi` is the track's, `from` and `to` are sightings of the track, and it goes west exactly when the first traversed zone is the east side. |
| Transit.LockingEndpoints | src/main.ts:146-147 | With unique identifiers, `from` and `to` are the first sightings inside the first and second traversed zones; the `t[0]` fallback never applies. |
| Transit.DirectionOfTransit | src/main.ts:148 | A transit that meets the east side first goes west. |
| Transit.SortByFrom | src/main.ts:86-88 | The comparator is negative, zero or positive as the first locking starts earlier than, at the same time as, or later than the second. |
| Transit.React | src/main.ts:37-62 | `myZoneFunction` on the registry and lockings as values, with `false` where it throws. `ReactEffect`, `ReactKeepsInvariants` and `ReactLocking` state what it means. |
| Transit.ReactEffect | src/main.ts:37-62 | `Entered` starts tracking unless it is on. `Within` changes nothing. `Exited` of an untracked vessel fails. `Exited` of a tracked vessel ends the track and appends its locking exactly when the track crossed as many distinct zones as are configured, and fails when that locking cannot be built. No metadata and no other vessel is touched. |
| Transit.ReactKeepsInvariants | src/main.ts:37-62 | A zone event keeps every track sorted and only the newest active. |
| Transit.ReactLocking | src/main.ts:50-55 | A recorded locking comes from an `Exited` event of a tracked vessel. It is that vessel's, its endpoints are sightings of the ended track, and the vessel is no longer tracked. |
| Transit.Correlator.constructor | src/main.ts:137 | No lockings at the start. |
| Transit.Correlator.OnZoneEvent | src/main.ts:37-62 | The tracker's model and the lockings become what `React` gives for the old ones; `false` where the source throws. |
| Transit.Correlator.RecordLocking | src/main.ts:139-151 | The track's locking is appended when it can be built; otherwise the result is `false` and nothing is appended. |
| Watch.FeedZone | src/watcher.ts:29-31 | One zone's turn keeps one table per zone. |
| Watch.FeedZones | src/watcher.ts:29-31 | Feeding the zones keeps one table per zone. |
| Watch.FeedNext | src/watcher.ts:29-31 | Feeding zones up to the one after a given point keeps one table per zone. |
| Watch.Turn | src/watcher.ts:30 | One zone's turn, after the zones before it, keeps one table per zone. |
| Watch.FeedZonesTables | src/watcher.ts:29-31 | Zones not reached keep their tables. When no callback failed, each zone holds the table its own state machine computes. |
| Watch.FeedZonesNext | src/watcher.ts:29-31 | One more zone is fed in the state the earlier zones and their callbacks left, unless a callback has failed. |
| Watch.FeedZonesStopped | src/watcher.ts:29-31 | Once a callback has failed, later zones change nothing. |
| Watch.Dispatched | src/watcher.ts:28-35 | A record keeps one table per zone. |
| Watch.DispatchedZonesOnly | src/watcher.ts:33-35 | The tracker append changes neither the zones' tables, nor the lockings, nor the verdict. |
| Watch.Run | src/watcher.ts:27-36 | A run keeps one table per zone. |
| Watch.RunStopped | src/watcher.ts:27-36 | After a failed record, later records change nothing. |
| Watch.StartedExtends | src/tracker.ts:65-70 | Starting a track only appends an empty one. |
| Watch.StoppedExtends | src/tracker.ts:72-77 | Stopping only clears an active flag. |
| Watch.ReactExtends | src/main.ts:37-62 | A zone event starts, keeps or ends tracks but adds no sightings. |
| Watch.FeedZonesInvariants | src/watcher.ts:29-31 | Feeding the zones keeps every track sorted and only the newest active. |
| Watch.FeedZonesExtends | src/watcher.ts:29-31 | Feeding the zones only grows a vessel's tracks: old tracks keep their sightings and are never re-activated, and new ones are empty. |
| Watch.FeedZonesFrame | src/watcher.ts:29-31 | Feeding the zones records no name and leaves other vessels' tracks alone. |
| Watch.FeedZonesRegistry | src/watcher.ts:29-31 | The three facts above together for the whole zone loop. |
| Watch.DispatchedKeepsInvariants | src/watcher.ts:28-35 | A record keeps every track sorted and only the newest active. |
| Watch.DispatchedUntracked | src/watcher.ts:33-35 | A record for a vessel untracked after the zone updates leaves the tracks as the zones left them and records no name. |
| Watch.DispatchedStartsTrack | src/watcher.ts:29-35 | A record whose `Entered` event started tracking becomes the first and only sighting of the new track. |
| Watch.DispatchedTrackFate | src/watcher.ts:29-35 | The vessel's track from before the record receives the record exactly when it is still active afterwards; a track an `Exited` event ended is not appended to. |
| Watch.DispatchedOtherVessels | src/watcher.ts:28-35 | A record leaves other vessels' tracks and metadata alone. |
| Watch.RunKeepsInvariants | src/watcher.ts:27-36 | A run over any stream keeps every track sorted and only the newest active. |
| Watch.Watcher.constructor | src/watcher.ts:9-14 | A new watcher has no zones. |
| Watch.Watcher.AddZone | src/watcher.ts:16-18 | The zone is stored under its identifier, replacing a zone of the same identifier in its place in the listing; `getZone` of that identifier then returns it, and other identifiers are unaffected. |
| Watch.Watcher.GetZone | src/watcher.ts:20 | Absent exactly for an identifier never added; otherwise the stored zone, which has that identifier. |
| Watch.ZoneByIdIsGetZone | src/watcher.ts:20-21 | The zones `getZones` lists have distinct identifiers, and looking an identifier up among them finds the zone `getZone` returns, or nothing for an identifier never added. |
| Watch.Watcher.GetZones | src/watcher.ts:21 | Every stored zone exactly once, in insertion order, with one zone per identifier. |
| Watch.Watcher.Dispatch | src/watcher.ts:28-35 | The zones' tables, the tracker's model and the lockings become what `Dispatched` gives for the old ones. |
| Watch.Watcher.AppendIfTracked | src/watcher.ts:33-35 | The tracker's model becomes `Appended` of the old one when the vessel is tracked, and is unchanged otherwise. |
| Watch.Watcher.PassToZones | src/watcher.ts:29-31 | The zone loop leaves the state `FeedZones` gives. |
| Watch.Watcher.PassToZone | src/watcher.ts:30 | One zone's `addSighting`, with its callback, leaves the state one more step of `FeedZones` gives. |
| Watch.Watcher.Go | src/watcher.ts:27-36 | The record loop over a finite stream leaves the state `Run` gives. |
| Scenario.WestboundTransit | src/watcher.ts:27-36 | Two zones (west side added first). A vessel seen in the east-side zone, then the west-side zone, then outside both, gives a successful run with exactly one locking: from the east-side sighting to the west-side sighting, westbound. The vessel is then no longer tracked. |
| Scenario.WestboundLocking | src/main.ts:139-151 | A track of an east-side sighting then a west-side sighting yields the westbound locking between those two sightings. |
| Scenario.EarlyEastRecord | src/zone.ts:47-50 | A stale outside report, earlier than the west zone's entry time, is ignored there. The east zone takes it in, and it is inserted first in the track. |
| Scenario.LateOutsideRecord | src/main.ts:50-51 | After the west zone's `Exited` completes the transit, the east zone's `Exited` for the now untracked vessel fails the run. |
| Scenario.StaleReportHalts | src/main.ts:50-51 | West-side at time 10, east-side stamped 5, then outside at time 20: the locking is recorded and then the run stops where the source throws `'IMPOSSIBLE!'`. |

## Left out

- src/mod.ts is not part of this model. Its file reading and CSV parsing (`LineFile`,
  `CSVSource`) are I/O. The record stream is a finite sequence of `Report`s instead. A report's
  optional name stands for `instanceOfAIS`.
- Zone geometry. `PolygonZone`, `RadialZone` and `locationInZone` are floating-point geometry
  in a library (`insidePolygon`, `insideCircle`, `toLonLatTuple`). Each zone has an arbitrary
  region predicate `Coord -> bool` instead. The concrete coordinates of the two lock-side zones
  are not modelled; only their identifiers are.
- `showCurrentState`, the timer, and all logging, including the speed and duration arithmetic
  in the display. `showCurrentState` also sorts the recorded lockings in place by `sortByFrom`
  (src/main.ts:93), so after each display the source's list is in `from` order. The model's
  list stays in recording order; `SortByFrom` models only the comparator.
- The asynchronous, never-ending shape of `go`: its `await`, the hard-coded data file, and the
  end of input by rejection. One record step is modelled, plus a loop over a finite stream. The
  `catch` handlers log and stop; the first also displays the state once more
  (src/main.ts:121), which sorts the lockings as noted above. In the model the run stops with
  verdict `false`.
- The unused `listeners` field of the watcher, and the commented-out `TrackMarker` code.
- Dates are integer millisecond timestamps.
- Zones.Zone.GetVesselsWithin: returns a set; the order of JavaScript's integer-like object
  keys is not modelled.
- Watch.Watcher.GetZones: lists zones in first-insertion order of their identifiers. This is
  `Object.values`' order for identifiers that do not look like array indices. Identifiers such
  as `"1"`, which JavaScript lists first in numeric order, are not modelled.
- Zone identifiers are arbitrary map keys. In the source, the zone table and the per-zone tally
  are plain objects, so an identifier that names an `Object.prototype` member misbehaves: under
  `"__proto__"`, `addZone` creates no own key (src/watcher.ts:17), and under `"constructor"`
  the tally's `undefined` test fails and the count becomes `NaN` (src/main.ts:31-32). The
  detector's two identifiers are not such names.
- Transit.MakeLocking: a failure wherever `recordLocking` throws. The corner where
  `getZone(undefined)` finds a zone literally named `"undefined"` is not modelled. In the
  source, an empty track yields a locking with undefined endpoints instead of throwing; this
  cannot arise, since `recordLocking` runs only for a track that crossed every configured zone,
  and with no zones no event arises.
- Transit.ZoneCountsInPathSpec: states that every count is the zone's multiplicity in the
  path. That the counts sum to the path's length follows from this but is not stated.
- `Zone.containsVessel`, `VesselTrack.isActive`, `getTrack` and `getMMSI` are plain field
  reads with no contract of their own. They are used by the members above.
