/** The transit correlator (src/main.ts). A zone's `Entered` event starts tracking the vessel;
    an `Exited` event checks whether the vessel's active track has been seen in as many distinct
    zones as are configured, and if so ends the track and records a `Locking`: where the
    vessel was first seen in the first and in the second zone it crossed, and which way it went. */
module Transit {
  import opened Common
  import opened Zones
  import opened Tracker

  // ---------------------------------------------------------------------------------------
  // The zones a track passes through

  /** The identifiers of the configured zones, in configuration order. */
  function Ids(zones: seq<ZoneShape>): (r: seq<string>)
    ensures |r| == |zones| && forall i :: 0 <= i < |zones| ==> r[i] == zones[i].id
  {
    seq(|zones|, i requires 0 <= i < |zones| => zones[i].id)
  }

  /** The position of the first configured zone whose region holds `c`, or -1. */
  function FirstZoneIndex(zones: seq<ZoneShape>, c: Coord): (r: int)
    ensures -1 <= r < |zones|
  {
    if |zones| == 0 then -1
    else if zones[0].region(c) then 0
    else
      var k := FirstZoneIndex(zones[1..], c);
      if k < 0 then -1 else k + 1
  }

  /** The position found holds `c` and no zone before it does; -1 means no zone holds `c`. */
  lemma {:induction false} FirstZoneIndexSpec(zones: seq<ZoneShape>, c: Coord)
    ensures var r := FirstZoneIndex(zones, c);
            && (r >= 0 ==> zones[r].region(c) && forall j :: 0 <= j < r ==> !zones[j].region(c))
            && (r == -1 <==> forall j :: 0 <= j < |zones| ==> !zones[j].region(c))
  {
    if |zones| > 0 && !zones[0].region(c) {
      FirstZoneIndexSpec(zones[1..], c);
      assert forall j :: 1 <= j < |zones| ==> zones[j] == zones[1..][j - 1];
    }
  }

  /** The identifier of the first configured zone holding `c`, absent when no zone does. */
  function ZoneOf(zones: seq<ZoneShape>, c: Coord): Option<string>
  {
    var k := FirstZoneIndex(zones, c);
    if k >= 0 then Some(zones[k].id) else None
  }

  /** A position has a zone exactly when some configured zone holds it, and that zone is a
      configured one. */
  lemma ZoneOfSpec(zones: seq<ZoneShape>, c: Coord)
    ensures ZoneOf(zones, c).None? <==> forall j :: 0 <= j < |zones| ==> !zones[j].region(c)
    ensures ZoneOf(zones, c).Some? ==> ZoneOf(zones, c).value in Ids(zones)
  {
    FirstZoneIndexSpec(zones, c);
    var k := FirstZoneIndex(zones, c);
    if k >= 0 {
      assert Ids(zones)[k] == zones[k].id;
    }
  }

  /** `zonesInPath`: for each sighting of the track in order, the zone it lies in, sightings
      in no zone skipped. */
  function ZonesInPath(zones: seq<ZoneShape>, t: seq<Sighting>): (p: seq<string>)
    ensures |p| <= |t|
  {
    if |t| == 0 then []
    else
      var init := ZonesInPath(zones, t[..|t| - 1]);
      match ZoneOf(zones, t[|t| - 1].where)
      case Some(z) => init + [z]
      case None => init
  }

  /** Only configured zones occur on a path. */
  lemma {:induction false} ZonesInPathIds(zones: seq<ZoneShape>, t: seq<Sighting>)
    ensures forall z :: z in ZonesInPath(zones, t) ==> z in Ids(zones)
  {
    if |t| > 0 {
      ZonesInPathIds(zones, t[..|t| - 1]);
      ZoneOfSpec(zones, t[|t| - 1].where);
    }
  }

  /** The path of a single sighting. */
  lemma ZonesInPathSingle(zones: seq<ZoneShape>, s: Sighting)
    ensures ZonesInPath(zones, [s]) == match ZoneOf(zones, s.where)
                                       case Some(z) => [z]
                                       case None => []
  {
    assert [s][..0] == [];
  }

  /** The path of a concatenation is the concatenation of the paths, so the path follows the
      track's order. */
  lemma {:induction false} ZonesInPathConcat(zones: seq<ZoneShape>, a: seq<Sighting>, b: seq<Sighting>)
    ensures ZonesInPath(zones, a + b) == ZonesInPath(zones, a) + ZonesInPath(zones, b)
    decreases |b|
  {
    if |b| == 0 {
      assert a + b == a;
    } else {
      var b' := b[..|b| - 1];
      ZonesInPathConcat(zones, a, b');
      assert (a + b)[..|a + b| - 1] == a + b';
      assert (a + b)[|a + b| - 1] == b[|b| - 1];
    }
  }

  /** A zone is on the path exactly when some sighting of the track lies first in it. */
  lemma {:induction false} ZonesInPathMembers(zones: seq<ZoneShape>, t: seq<Sighting>, z: string)
    ensures z in ZonesInPath(zones, t) <==> exists i :: 0 <= i < |t| && ZoneOf(zones, t[i].where) == Some(z)
  {
    if |t| > 0 {
      var init := t[..|t| - 1];
      var last := |t| - 1;
      ZonesInPathMembers(zones, init, z);
      assert z in ZonesInPath(zones, t) <==>
             z in ZonesInPath(zones, init) || ZoneOf(zones, t[last].where) == Some(z);
      if z in ZonesInPath(zones, t) {
        if z !in ZonesInPath(zones, init) {
          assert ZoneOf(zones, t[last].where) == Some(z);
        } else {
          var i :| 0 <= i < |init| && ZoneOf(zones, init[i].where) == Some(z);
          assert t[i] == init[i];
        }
      } else {
        forall i | 0 <= i < |t|
          ensures ZoneOf(zones, t[i].where) != Some(z)
        {
          if i < |init| {
            assert t[i] == init[i];
          }
        }
      }
    }
  }

  /** The path is as long as the track exactly when every sighting lies in some zone. */
  lemma {:induction false} ZonesInPathLength(zones: seq<ZoneShape>, t: seq<Sighting>)
    ensures |ZonesInPath(zones, t)| == |t| <==> forall i :: 0 <= i < |t| ==> ZoneOf(zones, t[i].where).Some?
  {
    if |t| > 0 {
      var init := t[..|t| - 1];
      ZonesInPathLength(zones, init);
      if |ZonesInPath(zones, t)| == |t| {
        forall i | 0 <= i < |t|
          ensures ZoneOf(zones, t[i].where).Some?
        {
          if i < |init| {
            assert t[i] == init[i];
          }
        }
      }
    }
  }

  // ---------------------------------------------------------------------------------------
  // Counting and de-duplicating the path

  /** The dictionary built by `zoneCountsInPath`'s reduction over a path. */
  function Tally(p: seq<string>): map<string, nat>
  {
    if |p| == 0 then map[]
    else
      var q := Tally(p[..|p| - 1]);
      var z := p[|p| - 1];
      q[z := (if z in q then q[z] else 0) + 1]
  }

  /** The tally has a key for each element of the path and no other, holding the number of
      its occurrences. */
  lemma {:induction false} TallySpec(p: seq<string>)
    ensures forall z :: z in Tally(p) <==> z in p
    ensures forall z :: z in Tally(p) ==> Tally(p)[z] == multiset(p)[z] && Tally(p)[z] > 0
  {
    if |p| > 0 {
      var init := p[..|p| - 1];
      TallySpec(init);
      assert p == init + [p[|p| - 1]];
    }
  }

  /** `zoneCountsInPath`: how often each zone occurs on the track's path. */
  function ZoneCountsInPath(zones: seq<ZoneShape>, t: seq<Sighting>): map<string, nat>
  {
    Tally(ZonesInPath(zones, t))
  }

  /** Each zone on the path is counted, with the number of its occurrences, and no other. */
  lemma ZoneCountsInPathSpec(zones: seq<ZoneShape>, t: seq<Sighting>)
    ensures var r := ZoneCountsInPath(zones, t);
            && (forall z :: z in r <==> z in ZonesInPath(zones, t))
            && (forall z :: z in r ==> r[z] == multiset(ZonesInPath(zones, t))[z] && r[z] > 0)
  {
    TallySpec(ZonesInPath(zones, t));
  }

  /** `Object.values(counts).filter(n => n > 0).length`. */
  function PositiveCount(counts: map<string, nat>): nat
  {
    |set z | z in counts && counts[z] > 0|
  }

  /** Where every count is positive, the positive counts are all the keys. */
  lemma PositiveCountAll(counts: map<string, nat>)
    requires forall z :: z in counts ==> counts[z] > 0
    ensures PositiveCount(counts) == |counts.Keys|
  {
    assert (set z | z in counts && counts[z] > 0) == counts.Keys;
  }

  /** `[...new Set(p)]`: each element once, in order of first occurrence. */
  function Dedup(p: seq<string>): (r: seq<string>)
    ensures |r| <= |p|
  {
    if |p| == 0 then []
    else
      var d := Dedup(p[..|p| - 1]);
      var z := p[|p| - 1];
      if z in d then d else d + [z]
  }

  /** No element twice, exactly the elements of `p`, and the first element of `p` first. */
  lemma {:induction false} DedupSpec(p: seq<string>)
    ensures Distinct(Dedup(p))
    ensures forall z :: z in Dedup(p) <==> z in p
    ensures |p| > 0 ==> |Dedup(p)| > 0 && Dedup(p)[0] == p[0]
  {
    if |p| > 0 {
      var init := p[..|p| - 1];
      DedupSpec(init);
      assert forall x :: x in p <==> x in init || x == p[|p| - 1];
      if |init| > 0 {
        assert init[0] == p[0];
      }
    }
  }

  /** The position of the first occurrence of `z` in `p`. */
  function FirstIndex(p: seq<string>, z: string): (k: nat)
    requires z in p
    ensures k < |p| && p[k] == z
  {
    if p[0] == z then 0 else 1 + FirstIndex(p[1..], z)
  }

  /** No occurrence of `z` comes before the position found. */
  lemma {:induction false} FirstIndexSpec(p: seq<string>, z: string)
    requires z in p
    ensures forall j :: 0 <= j < FirstIndex(p, z) ==> p[j] != z
  {
    if p[0] != z {
      FirstIndexSpec(p[1..], z);
      assert forall j :: 1 <= j < |p| ==> p[j] == p[1..][j - 1];
    }
  }

  /** Appending to a sequence does not move the first occurrence of an element already in it. */
  lemma {:induction false} FirstIndexAppend(p: seq<string>, y: string, z: string)
    requires z in p
    ensures FirstIndex(p + [y], z) == FirstIndex(p, z)
  {
    FirstIndexSpec(p, z);
    FirstIndexSpec(p + [y], z);
    assert (p + [y])[FirstIndex(p, z)] == z;
  }

  /** `Dedup` keeps the order of first occurrence. */
  lemma {:induction false} DedupOrder(p: seq<string>)
    ensures forall z :: z in Dedup(p) ==> z in p
    ensures forall i, j :: 0 <= i < j < |Dedup(p)| ==>
              FirstIndex(p, Dedup(p)[i]) < FirstIndex(p, Dedup(p)[j])
  {
    DedupSpec(p);
    if |p| > 0 {
      var init := p[..|p| - 1];
      DedupOrder(init);
      DedupSpec(init);
      forall i, j | 0 <= i < j < |Dedup(p)|
        ensures FirstIndex(p, Dedup(p)[i]) < FirstIndex(p, Dedup(p)[j])
      {
        DedupOrderStep(p, i, j);
      }
    }
  }

  /** The induction step of `DedupOrder`: one more element keeps the order of the elements
      already listed and, when new, comes last. */
  lemma DedupOrderStep(p: seq<string>, i: nat, j: nat)
    requires |p| > 0
    requires var init := p[..|p| - 1];
             && (forall x :: x in Dedup(init) <==> x in init)
             && (forall a, b :: 0 <= a < b < |Dedup(init)| ==>
                   FirstIndex(init, Dedup(init)[a]) < FirstIndex(init, Dedup(init)[b]))
    requires forall x :: x in Dedup(p) <==> x in p
    requires i < j < |Dedup(p)|
    ensures FirstIndex(p, Dedup(p)[i]) < FirstIndex(p, Dedup(p)[j])
  {
    var init := p[..|p| - 1];
    var z := p[|p| - 1];
    assert p == init + [z];
    var d := Dedup(init);
    assert Dedup(p) == if z in d then d else d + [z];
    assert Dedup(p)[i] == d[i];
    FirstIndexAppend(init, z, d[i]);
    if j < |d| {
      assert Dedup(p)[j] == d[j];
      FirstIndexAppend(init, z, d[j]);
    } else {
      assert Dedup(p)[j] == z && z !in init;
    }
  }

  /** The completion test counts the distinct zones on the path. */
  lemma DistinctZones(zones: seq<ZoneShape>, t: seq<Sighting>)
    ensures PositiveCount(ZoneCountsInPath(zones, t)) == |Dedup(ZonesInPath(zones, t))|
  {
    var p := ZonesInPath(zones, t);
    var counts := ZoneCountsInPath(zones, t);
    ZoneCountsInPathSpec(zones, t);
    PositiveCountAll(counts);
    DedupSpec(p);
    assert counts.Keys == Elements(Dedup(p));
    DistinctCardinality(Dedup(p));
  }

  /** `Exited`'s completion test: as many distinct zones on the path as zones configured. */
  predicate Completed(zones: seq<ZoneShape>, t: seq<Sighting>)
  {
    PositiveCount(ZoneCountsInPath(zones, t)) == |zones|
  }

  // ---------------------------------------------------------------------------------------
  // Lockings

  datatype Direction = West | East

  /** One transit of the locks. */
  datatype Locking = Locking(mmsi: MMSI, from: Sighting, to: Sighting, direction: Direction)

  /** The zone on the east side of the locks; a transit that crosses it first goes west. */
  const EastSide: string := "ballardlocks-eastside"

  /** The zone on the west side of the locks. */
  const WestSide: string := "ballardlocks-westside"

  /** `watcher.getZone(id)` over the configured zones: the zone with that identifier. */
  function ZoneById(zones: seq<ZoneShape>, id: string): Option<ZoneShape>
  {
    if |zones| == 0 then None
    else if zones[0].id == id then Some(zones[0])
    else ZoneById(zones[1..], id)
  }

  /** A zone is found exactly when one has the identifier; it is a configured zone with that
      identifier, and when identifiers are unique it is the only one. */
  lemma {:induction false} ZoneByIdSpec(zones: seq<ZoneShape>, id: string)
    ensures var r := ZoneById(zones, id);
            && (r.Some? <==> id in Ids(zones))
            && (r.Some? ==> r.value in zones && r.value.id == id)
            && (r.Some? && Distinct(Ids(zones)) ==>
                  forall i :: 0 <= i < |zones| && zones[i].id == id ==> r.value == zones[i])
  {
    if |zones| > 0 {
      var ids := Ids(zones);
      var rest := Ids(zones[1..]);
      IdsCons(zones);
      if zones[0].id != id {
        ZoneByIdSpec(zones[1..], id);
        if Distinct(ids) {
          assert Distinct(rest) by {
            forall i, j | 0 <= i < j < |rest|
              ensures rest[i] != rest[j]
            {
              assert rest[i] == ids[i + 1] && rest[j] == ids[j + 1];
            }
          }
        }
      } else if Distinct(ids) {
        forall i | 0 <= i < |zones| && zones[i].id == id
          ensures i == 0
        {
          assert ids[i] == ids[0];
        }
      }
    }
  }

  /** The identifiers of a nonempty list of zones: the first zone's, then the others'. */
  lemma IdsCons(zones: seq<ZoneShape>)
    requires |zones| > 0
    ensures Ids(zones) == [zones[0].id] + Ids(zones[1..])
  {
    assert forall i :: 1 <= i < |zones| ==> Ids(zones)[i] == Ids(zones[1..])[i - 1];
  }

  /** `t.find(ti => region(ti.where))`: the position of the first sighting inside the region,
      or -1. */
  function FindInside(t: seq<Sighting>, region: Coord -> bool): (r: int)
    ensures -1 <= r < |t|
  {
    if |t| == 0 then -1
    else if region(t[0].where) then 0
    else
      var k := FindInside(t[1..], region);
      if k < 0 then -1 else k + 1
  }

  /** The position found is inside the region and none before it is; -1 means none is. */
  lemma {:induction false} FindInsideSpec(t: seq<Sighting>, region: Coord -> bool)
    ensures var r := FindInside(t, region);
            && (r >= 0 ==> region(t[r].where) && forall j :: 0 <= j < r ==> !region(t[j].where))
            && (r == -1 <==> forall j :: 0 <= j < |t| ==> !region(t[j].where))
  {
    if |t| > 0 && !region(t[0].where) {
      FindInsideSpec(t[1..], region);
      assert forall j :: 1 <= j < |t| ==> t[j] == t[1..][j - 1];
    }
  }

  /** The first sighting of a nonempty track inside the region, the track's first sighting when
      none is (`t.find(...) || t[0]`). */
  function FirstInside(t: seq<Sighting>, region: Coord -> bool): Sighting
    requires |t| > 0
  {
    var k := FindInside(t, region);
    if k >= 0 then t[k] else t[0]
  }

  /** The zones a track crossed, each once, in the order it first reached them. */
  function Traversed(zones: seq<ZoneShape>, t: seq<Sighting>): seq<string>
  {
    Dedup(ZonesInPath(zones, t))
  }

  /** Each zone on the path, once. */
  lemma TraversedSpec(zones: seq<ZoneShape>, t: seq<Sighting>)
    ensures Distinct(Traversed(zones, t))
    ensures forall z :: z in Traversed(zones, t) <==> z in ZonesInPath(zones, t)
  {
    DedupSpec(ZonesInPath(zones, t));
  }

  /** A track whose first traversed zone is `id` has a sighting inside the zone of that
      identifier, when identifiers are unique. */
  lemma TraversedZoneReached(zones: seq<ZoneShape>, t: seq<Sighting>, id: string)
    requires Distinct(Ids(zones)) && id in Traversed(zones, t)
    ensures ZoneById(zones, id).Some?
    ensures FindInside(t, ZoneById(zones, id).value.region) >= 0
  {
    TraversedSpec(zones, t);
    ZonesInPathMembers(zones, t, id);
    var i :| 0 <= i < |t| && ZoneOf(zones, t[i].where) == Some(id);
    var k := FirstZoneIndex(zones, t[i].where);
    FirstZoneIndexSpec(zones, t[i].where);
    assert zones[k].id == id && Ids(zones)[k] == id;
    ZoneByIdSpec(zones, id);
    assert ZoneById(zones, id).value == zones[k];
    FindInsideSpec(t, zones[k].region);
  }

  /** `recordLocking`'s record for a track, absent where building it throws: when the track
      crossed fewer than two zones (then `traversedZones[1]`, or `[0]`, is undefined), or when
      no zone has a crossed identifier (`getZone` yields undefined). */
  function MakeLocking(zones: seq<ZoneShape>, m: MMSI, t: seq<Sighting>): Option<Locking>
  {
    var tz := Traversed(zones, t);
    if |tz| < 2 then None
    else
      match (ZoneById(zones, tz[0]), ZoneById(zones, tz[1]))
      case (Some(z0), Some(z1)) =>
        var from := FirstInside(t, z0.region);
        var to := FirstInside(t, z1.region);
        Some(Locking(m, from, to, if tz[0] == EastSide then West else East))
      case _ => None
  }

  /** A locking is built exactly when the track crossed two zones or more; it is the vessel's,
      its endpoints are sightings of the track, and it goes west exactly when the first zone
      crossed is the east side. */
  lemma MakeLockingSpec(zones: seq<ZoneShape>, m: MMSI, t: seq<Sighting>)
    ensures var r := MakeLocking(zones, m, t);
            && (r.Some? <==> |Traversed(zones, t)| >= 2)
            && (r.Some? ==> r.value.mmsi == m && r.value.from in t && r.value.to in t)
            && (r.Some? ==> (r.value.direction == West <==> Traversed(zones, t)[0] == EastSide))
  {
    var tz := Traversed(zones, t);
    if |tz| >= 2 {
      TraversedSpec(zones, t);
      ZonesInPathIds(zones, t);
      ZoneByIdSpec(zones, tz[0]);
      ZoneByIdSpec(zones, tz[1]);
    }
  }

  /** With unique zone identifiers, `from` and `to` are the first sightings inside the first
      and second traversed zones: the fall-back to the track's first sighting never applies. */
  lemma LockingEndpoints(zones: seq<ZoneShape>, m: MMSI, t: seq<Sighting>)
    requires Distinct(Ids(zones)) && |Traversed(zones, t)| >= 2
    ensures var tz := Traversed(zones, t);
            && MakeLocking(zones, m, t).Some?
            && ZoneById(zones, tz[0]).Some? && ZoneById(zones, tz[1]).Some?
    ensures var l := MakeLocking(zones, m, t).value;
            var tz := Traversed(zones, t);
            var r0 := ZoneById(zones, tz[0]).value.region;
            var r1 := ZoneById(zones, tz[1]).value.region;
            && FindInside(t, r0) >= 0 && l.from == t[FindInside(t, r0)]
            && FindInside(t, r1) >= 0 && l.to == t[FindInside(t, r1)]
  {
    var tz := Traversed(zones, t);
    MakeLockingSpec(zones, m, t);
    TraversedZoneReached(zones, t, tz[0]);
    TraversedZoneReached(zones, t, tz[1]);
  }

  /** A transit whose first traversed zone is the east side goes west. */
  lemma DirectionOfTransit(zones: seq<ZoneShape>, m: MMSI, t: seq<Sighting>)
    requires |Traversed(zones, t)| >= 2 && Traversed(zones, t)[0] == EastSide
    ensures MakeLocking(zones, m, t).Some? && MakeLocking(zones, m, t).value.direction == West
  {
    MakeLockingSpec(zones, m, t);
  }

  /** `sortByFrom`: negative, zero or positive as the first locking's start is earlier than,
      equal to or later than the second's. */
  function SortByFrom(a: Locking, b: Locking): (d: int)
    ensures d < 0 <==> a.from.when < b.from.when
    ensures d == 0 <==> a.from.when == b.from.when
    ensures d > 0 <==> a.from.when > b.from.when
  {
    a.from.when - b.from.when
  }

  // ---------------------------------------------------------------------------------------
  // The zone callback

  /** The registry and the lockings after a zone event, and whether the run goes on (`false`
      when the callback throws). */
  datatype Effect = Effect(reg: Registry, lockings: seq<Locking>, ok: bool)

  /** `myZoneFunction` as a function of the state it reads and writes: the configured zones,
      the registry and the lockings so far. */
  function React(zones: seq<ZoneShape>, reg: Registry, lockings: seq<Locking>, s: Sighting,
                 ev: ZoneActivity): Effect
  {
    var m := s.mmsi;
    match ev
    case Entered => Effect(if Tracking(reg, m) then reg else Started(reg, m), lockings, true)
    case Within => Effect(reg, lockings, true)
    case Exited =>
      match ActiveOf(reg, m)
      case None => Effect(reg, lockings, false)
      case Some(t) =>
        if !Completed(zones, t.sightings) then Effect(reg, lockings, true)
        else
          var l := MakeLocking(zones, t.mmsi, t.sightings);
          Effect(Stopped(reg, m), if l.Some? then lockings + [l.value] else lockings, l.Some?)
  }

  /** What a zone event does: `Entered` starts tracking unless it is on, `Within` does
      nothing, `Exited` fails for an untracked vessel and otherwise ends the track and records
      its locking exactly when the track crossed as many distinct zones as are configured. */
  lemma ReactEffect(zones: seq<ZoneShape>, reg: Registry, lockings: seq<Locking>, s: Sighting,
                    ev: ZoneActivity)
    ensures var e := React(zones, reg, lockings, s, ev);
            // no names are recorded, no other vessel is touched, at most one locking is added
            && e.reg.vessels == reg.vessels
            && (forall n :: n != s.mmsi ==> AllTracks(e.reg, n) == AllTracks(reg, n))
            && |lockings| <= |e.lockings| <= |lockings| + 1
            && e.lockings[..|lockings|] == lockings
    // Entered: tracking starts unless it is already on
    ensures var e := React(zones, reg, lockings, s, ev);
            ev == Entered ==>
              && e.ok && e.lockings == lockings && Tracking(e.reg, s.mmsi)
              && e.reg == if Tracking(reg, s.mmsi) then reg else Started(reg, s.mmsi)
    // Within: nothing happens
    ensures ev == Within ==> React(zones, reg, lockings, s, ev) == Effect(reg, lockings, true)
    // Exited of a vessel not tracked: the run fails
    ensures ev == Exited && !Tracking(reg, s.mmsi) ==>
              React(zones, reg, lockings, s, ev) == Effect(reg, lockings, false)
    // Exited of a tracked vessel: the track is complete when it crossed as many distinct zones
    // as are configured; a complete track is ended, and its locking recorded unless building
    // it fails
    ensures var e := React(zones, reg, lockings, s, ev);
            ev == Exited && Tracking(reg, s.mmsi) ==>
              var t := ActiveOf(reg, s.mmsi).value;
              var complete := |Traversed(zones, t.sightings)| == |zones|;
              && (!complete ==> e == Effect(reg, lockings, true))
              && (complete ==> e.reg == Stopped(reg, s.mmsi))
              && (complete ==> (e.ok <==> |Traversed(zones, t.sightings)| >= 2))
              && (complete && e.ok ==> e.lockings == lockings + [MakeLocking(zones, t.mmsi, t.sightings).value])
              && (complete && !e.ok ==> e.lockings == lockings)
  {
    if ev == Exited && Tracking(reg, s.mmsi) {
      var t := ActiveOf(reg, s.mmsi).value;
      DistinctZones(zones, t.sightings);
      MakeLockingSpec(zones, t.mmsi, t.sightings);
    }
  }

  /** A zone event keeps the registry's invariants. */
  lemma ReactKeepsInvariants(zones: seq<ZoneShape>, reg: Registry, lockings: seq<Locking>,
                             s: Sighting, ev: ZoneActivity)
    requires WellFormed(reg) && OnlyNewestActive(reg)
    ensures WellFormed(React(zones, reg, lockings, s, ev).reg)
    ensures OnlyNewestActive(React(zones, reg, lockings, s, ev).reg)
  {
    if ev == Entered && !Tracking(reg, s.mmsi) {
      StartedWellFormed(reg, s.mmsi);
      StartedKeepsOnlyNewestActive(reg, s.mmsi);
    } else if ev == Exited {
      StoppedKeepsInvariants(reg, s.mmsi);
    }
  }

  /** A locking recorded by a zone event belongs to the vessel of the event, and its endpoints
      are sightings of the track that was just ended. */
  lemma ReactLocking(zones: seq<ZoneShape>, reg: Registry, lockings: seq<Locking>,
                     s: Sighting, ev: ZoneActivity)
    requires WellFormed(reg)
    requires |React(zones, reg, lockings, s, ev).lockings| > |lockings|
    ensures ev == Exited && Tracking(reg, s.mmsi)
    ensures var l := React(zones, reg, lockings, s, ev).lockings[|lockings|];
            var t := ActiveOf(reg, s.mmsi).value.sightings;
            && l.mmsi == s.mmsi && l.from in t && l.to in t
            && !Tracking(React(zones, reg, lockings, s, ev).reg, s.mmsi)
  {
    var h := AllTracks(reg, s.mmsi);
    assert h[|h| - 1].mmsi == s.mmsi;
  }

  // ---------------------------------------------------------------------------------------
  // The callback's state

  /** The state `myZoneFunction` works on: the tracker it shares with the watcher, and the
      list of lockings recorded so far. */
  class Correlator {
    const tracker: VesselTracker
    var lockings: seq<Locking>

    constructor(tracker: VesselTracker)
      ensures this.tracker == tracker && lockings == []
    {
      this.tracker := tracker;
      lockings := [];
    }

    /** `myZoneFunction` for an event a zone reported for sighting `s`, the configured zones
        being `zones`; the result is `false` where the source throws. */
    method OnZoneEvent(zones: seq<ZoneShape>, s: Sighting, ev: ZoneActivity) returns (ok: bool)
      requires tracker.Valid()
      modifies this, tracker, tracker.Repr
      ensures tracker.Valid() && old(tracker.Repr) <= tracker.Repr
      ensures fresh(tracker.Repr - old(tracker.Repr))
      ensures Effect(tracker.Model, lockings, ok) == React(zones, old(tracker.Model), old(lockings), s, ev)
    {
      var m := s.mmsi;
      match ev
      case Entered =>
        if !tracker.IsTracking(m) {
          tracker.StartTracking(m);
        }
        ok := true;
      case Within =>
        ok := true;
      case Exited =>
        var active := tracker.GetActiveTrack(m);
        if active.None? {
          ok := false;
          return;
        }
        var track := active.value;
        var counts := ZoneCountsInPath(zones, track.GetTrack());
        if PositiveCount(counts) == |zones| {
          tracker.StopTracking(m);
          ok := RecordLocking(zones, track);
        } else {
          ok := true;
        }
    }

    /** `recordLocking`: appends the track's locking, or fails where building it throws. */
    method RecordLocking(zones: seq<ZoneShape>, track: VesselTrack) returns (ok: bool)
      modifies this
      ensures ok == MakeLocking(zones, track.mmsi, track.track).Some?
      ensures lockings == old(lockings) + if ok then [MakeLocking(zones, track.mmsi, track.track).value] else []
    {
      var l := MakeLocking(zones, track.GetMMSI(), track.GetTrack());
      if l.Some? {
        lockings := lockings + [l.value];
        ok := true;
      } else {
        ok := false;
      }
    }
  }
}
