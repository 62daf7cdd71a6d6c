/** Two worked streams on the detector's two-zone configuration (west side added first, then
    east side). In order: a vessel seen in the east-side zone, then in the west-side zone, then
    outside both, yields exactly one westbound locking from its east-side sighting to its
    west-side sighting, and is no longer tracked. Out of order: a stale east-side report leaves
    the vessel in both zones' tables, so the outside report that completes the transit also
    reaches the east zone's `Exited` for a vessel no longer tracked, and the run stops where the
    source throws `'IMPOSSIBLE!'`. */
module Scenario {
  import opened Common
  import opened Zones
  import opened Tracker
  import opened Transit
  import opened Watch

  const Vessel1: MMSI := 366123456

  /** The two lock-side zones, in the order the detector adds them; positions with latitude 1
      lie in the west-side zone, those with latitude 2 in the east-side zone. */
  const Config: seq<ZoneShape> :=
    [ZoneShape(WestSide, (c: Coord) => c.lat == 1.0), ZoneShape(EastSide, (c: Coord) => c.lat == 2.0)]

  const EastPos: Coord := Coord(2.0, 0.0)
  const WestPos: Coord := Coord(1.0, 0.0)
  const OutPos: Coord := Coord(0.0, 0.0)

  const InEast: Sighting := Sighting(Vessel1, 0, EastPos)
  const InWest: Sighting := Sighting(Vessel1, 5, WestPos)
  const Outside: Sighting := Sighting(Vessel1, 8, OutPos)

  const Start: World := World([map[], map[]], Registry(map[], map[]), [])

  /** After the east-side sighting: the east zone holds the vessel, whose new track has it. */
  const AfterEast: World :=
    World([map[], map[Vessel1 := Occupancy(1, 0)]],
          Registry(map[Vessel1 := [TrackState(Vessel1, [InEast], true)]], map[]), [])

  /** After the west-side sighting: the vessel moved from the east zone to the west zone. */
  const AfterWest: World :=
    World([map[Vessel1 := Occupancy(1, 5)], map[]],
          Registry(map[Vessel1 := [TrackState(Vessel1, [InEast, InWest], true)]], map[]), [])

  /** After the outside sighting: the track is ended and the locking recorded. */
  const AfterOutside: World :=
    World([map[], map[]],
          Registry(map[Vessel1 := [TrackState(Vessel1, [InEast, InWest], false)]], map[]),
          [Locking(Vessel1, InEast, InWest, West)])

  /** Each position's zone: the east-side, the west-side, and none. */
  lemma Placement()
    ensures ZoneOf(Config, EastPos) == Some(EastSide)
    ensures ZoneOf(Config, WestPos) == Some(WestSide)
    ensures ZoneOf(Config, OutPos) == None
  {
    assert Config[1..] == [Config[1]] && Config[1..][1..] == [];
    assert FirstZoneIndex(Config[1..][1..], OutPos) == -1;
    assert FirstZoneIndex(Config[1..], EastPos) == 0;
    assert FirstZoneIndex(Config[1..], OutPos) == -1;
  }

  /** The east-side sighting: `Entered` from the east zone starts a track, which then gets the
      sighting. */
  lemma EastRecord()
    ensures Dispatched(Config, Start, Report(InEast, None)) == Step(AfterEast, true)
  {
    FeedZonesNext(Config, Start, InEast, 1);
    FeedZonesNext(Config, Start, InEast, 2);
    var a := FeedZones(Config, Start, InEast, 1);
    assert a == Step(Start, true);
    var started := Registry(map[Vessel1 := [TrackState(Vessel1, [], true)]], map[]);
    assert AllTracks(Start.reg, Vessel1) + [TrackState(Vessel1, [], true)] == [TrackState(Vessel1, [], true)];
    assert Started(Start.reg, Vessel1) == started;
    var b := FeedZones(Config, Start, InEast, 2);
    assert b == Step(World(AfterEast.tables, started, []), true);
    assert ActiveIndex(started, Vessel1) == Some(0);
    assert Insert([], InEast) == [InEast];
    var h := started.tracks[Vessel1];
    assert h[0 := h[0].(sightings := [InEast])] == [TrackState(Vessel1, [InEast], true)];
    assert started.tracks[Vessel1 := [TrackState(Vessel1, [InEast], true)]] == AfterEast.reg.tracks;
    assert InsertedIntoActive(started, InEast) == AfterEast.reg;
    assert Appended(started, Report(InEast, None)) == AfterEast.reg;
  }

  /** The west-side sighting: `Entered` from the west zone while already tracked changes nothing;
      `Exited` from the east zone finds one zone crossed of two, so the track goes on, and then
      gets the sighting. */
  lemma WestRecord()
    ensures Dispatched(Config, AfterEast, Report(InWest, None)) == Step(AfterWest, true)
  {
    FeedZonesNext(Config, AfterEast, InWest, 1);
    FeedZonesNext(Config, AfterEast, InWest, 2);
    assert ActiveIndex(AfterEast.reg, Vessel1) == Some(0);
    assert ActiveOf(AfterEast.reg, Vessel1) == Some(TrackState(Vessel1, [InEast], true));
    var a := FeedZones(Config, AfterEast, InWest, 1);
    var westTable := map[Vessel1 := Occupancy(1, 5)];
    assert a == Step(AfterEast.(tables := [westTable, AfterEast.tables[1]]), true);
    var t := [InEast];
    assert t[..0] == [];
    Placement();
    assert ZonesInPath(Config, t) == [EastSide];
    assert Dedup([EastSide]) == [EastSide] by {
      assert [EastSide][..0] == [];
    }
    DistinctZones(Config, t);
    assert !Completed(Config, t);
    assert map[Vessel1 := Occupancy(1, 0)] - {Vessel1} == map[];
    var b := FeedZones(Config, AfterEast, InWest, 2);
    assert b == Step(AfterEast.(tables := [westTable, map[]]), true);
    assert Insert([], InWest) == [InWest];
    assert Insert([InEast], InWest) == [InEast, InWest];
    var h := AfterEast.reg.tracks[Vessel1];
    assert h[0 := h[0].(sightings := [InEast, InWest])] == [TrackState(Vessel1, [InEast, InWest], true)];
    assert AfterEast.reg.tracks[Vessel1 := [TrackState(Vessel1, [InEast, InWest], true)]] == AfterWest.reg.tracks;
    assert InsertedIntoActive(AfterEast.reg, InWest) == AfterWest.reg;
    assert Appended(AfterEast.reg, Report(InWest, None)) == AfterWest.reg;
  }

  /** A track of an east-side sighting followed by a west-side sighting crossed both
      configured zones, east side first. */
  lemma CrossedBoth(a: Sighting, b: Sighting)
    requires a.where == EastPos && b.where == WestPos
    ensures Traversed(Config, [a, b]) == [EastSide, WestSide]
    ensures Completed(Config, [a, b])
  {
    var t := [a, b];
    assert t[..1] == [a] && [a][..0] == [];
    Placement();
    assert ZonesInPath(Config, t) == [EastSide, WestSide];
    assert [EastSide, WestSide][..1] == [EastSide] && [EastSide][..0] == [];
    assert Dedup([EastSide]) == [EastSide];
    assert Dedup([EastSide, WestSide]) == [EastSide, WestSide];
    DistinctZones(Config, t);
  }

  /** Its locking: from the east-side sighting to the west-side sighting, westbound. */
  lemma WestboundLocking(a: Sighting, b: Sighting)
    requires a.where == EastPos && b.where == WestPos
    ensures MakeLocking(Config, Vessel1, [a, b]) == Some(Locking(Vessel1, a, b, West))
  {
    var t := [a, b];
    CrossedBoth(a, b);
    assert Config[1..] == [Config[1]];
    assert ZoneById(Config, EastSide) == Some(Config[1]);
    assert ZoneById(Config, WestSide) == Some(Config[0]);
    assert t[1..] == [b];
    assert FindInside(t[1..], Config[0].region) == 0;
    assert FirstInside(t, Config[1].region) == a;
    assert FirstInside(t, Config[0].region) == b;
  }

  /** The outside sighting: `Exited` from the west zone finds both zones crossed, so the track
      is ended and its locking recorded; the east zone no longer holds the vessel, and the
      ended track gets no sighting. */
  lemma OutsideRecord()
    ensures Dispatched(Config, AfterWest, Report(Outside, None)) == Step(AfterOutside, true)
  {
    FeedZonesNext(Config, AfterWest, Outside, 1);
    FeedZonesNext(Config, AfterWest, Outside, 2);
    CrossedBoth(InEast, InWest);
    WestboundLocking(InEast, InWest);
    assert ActiveIndex(AfterWest.reg, Vessel1) == Some(0);
    assert ActiveOf(AfterWest.reg, Vessel1) == Some(TrackState(Vessel1, [InEast, InWest], true));
    var h := AfterWest.reg.tracks[Vessel1];
    assert h[0 := h[0].(active := false)] == [TrackState(Vessel1, [InEast, InWest], false)];
    assert Stopped(AfterWest.reg, Vessel1) == AfterOutside.reg;
    assert map[Vessel1 := Occupancy(1, 5)] - {Vessel1} == map[];
    var a := FeedZones(Config, AfterWest, Outside, 1);
    assert a == Step(AfterOutside.(tables := [map[], map[]]), true);
    assert ActiveIndex(AfterOutside.reg, Vessel1) == None;
  }

  /** The whole stream: one westbound locking from the east-side sighting to the west-side
      sighting, and the vessel no longer tracked. */
  lemma WestboundTransit()
    ensures var r := Run(Config, Start, [Report(InEast, None), Report(InWest, None), Report(Outside, None)]);
            && r.ok
            && r.world.lockings == [Locking(Vessel1, InEast, InWest, West)]
            && !Tracking(r.world.reg, Vessel1)
  {
    var reps := [Report(InEast, None), Report(InWest, None), Report(Outside, None)];
    var first := [Report(InEast, None)];
    var firstTwo := [Report(InEast, None), Report(InWest, None)];
    assert first[..0] == [] && firstTwo[..1] == first && reps[..2] == firstTwo;
    EastRecord();
    assert Run(Config, Start, first) == Step(AfterEast, true);
    WestRecord();
    assert Run(Config, Start, firstTwo) == Step(AfterWest, true);
    OutsideRecord();
    assert Run(Config, Start, reps) == Step(AfterOutside, true);
    assert ActiveIndex(AfterOutside.reg, Vessel1) == None;
  }

  // ---------------------------------------------------------------------------------------
  // A stale report

  const LateWest: Sighting := Sighting(Vessel1, 10, WestPos)
  const EarlyEast: Sighting := Sighting(Vessel1, 5, EastPos)
  const LateOutside: Sighting := Sighting(Vessel1, 20, OutPos)

  /** After the west-side sighting at time 10: the west zone holds the vessel, whose new track
      has the sighting. */
  const AfterLateWest: World :=
    World([map[Vessel1 := Occupancy(1, 10)], map[]],
          Registry(map[Vessel1 := [TrackState(Vessel1, [LateWest], true)]], map[]), [])

  /** After the stale east-side report stamped 5: the west zone ignored it, the east zone took
      it in, and the track has it first. */
  const AfterEarlyEast: World :=
    World([map[Vessel1 := Occupancy(1, 10)], map[Vessel1 := Occupancy(1, 5)]],
          Registry(map[Vessel1 := [TrackState(Vessel1, [EarlyEast, LateWest], true)]], map[]), [])

  /** When the east zone's `Exited` arrives: the west zone completed the transit, ended the
      track and recorded its locking. */
  const AtEastExit: World :=
    World([map[], map[]],
          Registry(map[Vessel1 := [TrackState(Vessel1, [EarlyEast, LateWest], false)]], map[]),
          [Locking(Vessel1, EarlyEast, LateWest, West)])

  lemma LateWestRecord()
    ensures Dispatched(Config, Start, Report(LateWest, None)) == Step(AfterLateWest, true)
  {
    FeedZonesNext(Config, Start, LateWest, 1);
    FeedZonesNext(Config, Start, LateWest, 2);
    var started := Registry(map[Vessel1 := [TrackState(Vessel1, [], true)]], map[]);
    assert AllTracks(Start.reg, Vessel1) + [TrackState(Vessel1, [], true)] == [TrackState(Vessel1, [], true)];
    assert Started(Start.reg, Vessel1) == started;
    var a := FeedZones(Config, Start, LateWest, 1);
    assert a == Step(World(AfterLateWest.tables, started, []), true);
    assert ActiveIndex(started, Vessel1) == Some(0);
    assert Insert([], LateWest) == [LateWest];
    var h := started.tracks[Vessel1];
    assert h[0 := h[0].(sightings := [LateWest])] == [TrackState(Vessel1, [LateWest], true)];
    assert started.tracks[Vessel1 := [TrackState(Vessel1, [LateWest], true)]] == AfterLateWest.reg.tracks;
    assert InsertedIntoActive(started, LateWest) == AfterLateWest.reg;
    assert Appended(started, Report(LateWest, None)) == AfterLateWest.reg;
  }

  /** The stale report: the west zone ignores an outside sighting earlier than its entry, the
      east zone reports `Entered` (tracking is on already), and the sighting is inserted before
      the later one. */
  lemma EarlyEastRecord()
    ensures Dispatched(Config, AfterLateWest, Report(EarlyEast, None)) == Step(AfterEarlyEast, true)
  {
    FeedZonesNext(Config, AfterLateWest, EarlyEast, 1);
    FeedZonesNext(Config, AfterLateWest, EarlyEast, 2);
    assert ActiveIndex(AfterLateWest.reg, Vessel1) == Some(0);
    var a := FeedZones(Config, AfterLateWest, EarlyEast, 1);
    assert a == Step(AfterLateWest, true);
    var b := FeedZones(Config, AfterLateWest, EarlyEast, 2);
    assert b == Step(AfterLateWest.(tables := AfterEarlyEast.tables), true);
    assert Insert([LateWest], EarlyEast) == [EarlyEast, LateWest];
    var h := AfterLateWest.reg.tracks[Vessel1];
    assert h[0 := h[0].(sightings := [EarlyEast, LateWest])] == [TrackState(Vessel1, [EarlyEast, LateWest], true)];
    assert AfterLateWest.reg.tracks[Vessel1 := [TrackState(Vessel1, [EarlyEast, LateWest], true)]]
           == AfterEarlyEast.reg.tracks;
    assert InsertedIntoActive(AfterLateWest.reg, EarlyEast) == AfterEarlyEast.reg;
    assert Appended(AfterLateWest.reg, Report(EarlyEast, None)) == AfterEarlyEast.reg;
  }

  /** The outside report: the west zone's `Exited` completes the transit; the east zone, which
      still holds the vessel, then reports `Exited` for an untracked vessel and the run fails. */
  lemma LateOutsideRecord()
    ensures Dispatched(Config, AfterEarlyEast, Report(LateOutside, None)) == Step(AtEastExit, false)
  {
    FeedZonesNext(Config, AfterEarlyEast, LateOutside, 1);
    FeedZonesNext(Config, AfterEarlyEast, LateOutside, 2);
    var t := [EarlyEast, LateWest];
    CrossedBoth(EarlyEast, LateWest);
    WestboundLocking(EarlyEast, LateWest);
    assert ActiveIndex(AfterEarlyEast.reg, Vessel1) == Some(0);
    assert ActiveOf(AfterEarlyEast.reg, Vessel1) == Some(TrackState(Vessel1, t, true));
    var h := AfterEarlyEast.reg.tracks[Vessel1];
    assert h[0 := h[0].(active := false)] == [TrackState(Vessel1, t, false)];
    assert Stopped(AfterEarlyEast.reg, Vessel1) == AtEastExit.reg;
    assert map[Vessel1 := Occupancy(1, 10)] - {Vessel1} == map[];
    assert map[Vessel1 := Occupancy(1, 5)] - {Vessel1} == map[];
    var a := FeedZones(Config, AfterEarlyEast, LateOutside, 1);
    assert a == Step(AtEastExit.(tables := [map[], map[Vessel1 := Occupancy(1, 5)]]), true);
    assert ActiveIndex(AtEastExit.reg, Vessel1) == None;
  }

  /** The stale stream: the transit is recorded, and then the run stops where the source throws
      `'IMPOSSIBLE!'`. */
  lemma StaleReportHalts()
    ensures var r := Run(Config, Start, [Report(LateWest, None), Report(EarlyEast, None), Report(LateOutside, None)]);
            && !r.ok
            && r.world.lockings == [Locking(Vessel1, EarlyEast, LateWest, West)]
            && !Tracking(r.world.reg, Vessel1)
  {
    var reps := [Report(LateWest, None), Report(EarlyEast, None), Report(LateOutside, None)];
    var first := [Report(LateWest, None)];
    var firstTwo := [Report(LateWest, None), Report(EarlyEast, None)];
    assert first[..0] == [] && firstTwo[..1] == first && reps[..2] == firstTwo;
    LateWestRecord();
    assert Run(Config, Start, first) == Step(AfterLateWest, true);
    EarlyEastRecord();
    assert Run(Config, Start, firstTwo) == Step(AfterEarlyEast, true);
    LateOutsideRecord();
    assert Run(Config, Start, reps) == Step(AtEastExit, false);
    assert ActiveIndex(AtEastExit.reg, Vessel1) == None;
  }
}
