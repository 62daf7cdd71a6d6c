/** The dispatcher (src/watcher.ts): the configured zones, keyed by identifier, and the step
    that hands each record to every zone in turn — each zone's event reaching the correlator
    before the next zone runs — and then to the tracker when the vessel is being tracked. */
module Watch {
  import opened Common
  import opened Zones
  import opened Tracker
  import opened Transit

  // ---------------------------------------------------------------------------------------
  // The dispatch step as a function

  /** Everything a record can change: the zones' tables (in `getZones` order), the registry
      and the lockings. */
  datatype World = World(tables: seq<Table>, reg: Registry, lockings: seq<Locking>)

  /** A state, and whether the run is still going (`false` once a callback has thrown). */
  datatype Step = Step(world: World, ok: bool)

  /** Zone `i` fed sighting `s`, its event, if any, handed to the callback. */
  function FeedZone(shapes: seq<ZoneShape>, w: World, s: Sighting, i: nat): (st: Step)
    requires |w.tables| == |shapes| && i < |shapes|
    ensures |st.world.tables| == |shapes|
  {
    var u := Observe(w.tables[i], shapes[i].region(s.where), s);
    var tables := w.tables[i := u.table];
    match u.event
    case None => Step(w.(tables := tables), true)
    case Some(ev) =>
      var e := React(shapes, w.reg, w.lockings, s, ev);
      Step(World(tables, e.reg, e.lockings), e.ok)
  }

  /** The first `n` zones fed sighting `s` in order, each event handed to the callback at once;
      a zone after a failed callback is not reached. */
  function FeedZones(shapes: seq<ZoneShape>, w: World, s: Sighting, n: nat): (st: Step)
    requires |w.tables| == |shapes| && n <= |shapes|
    ensures |st.world.tables| == |shapes|
    decreases n, 2
  {
    if n == 0 then Step(w, true) else FeedNext(shapes, w, s, n)
  }

  /** The first `n > 0` zones: the zones before zone `n - 1`, then that zone's turn unless one
      of their callbacks failed. */
  function FeedNext(shapes: seq<ZoneShape>, w: World, s: Sighting, n: nat): (st: Step)
    requires |w.tables| == |shapes| && 0 < n <= |shapes|
    ensures |st.world.tables| == |shapes|
    decreases n, 1
  {
    var p := FeedZones(shapes, w, s, n - 1);
    if !p.ok then p else Turn(shapes, w, s, n)
  }

  /** Zone `n - 1`'s turn: it takes the sighting in the state the zones before it left. */
  function Turn(shapes: seq<ZoneShape>, w: World, s: Sighting, n: nat): (st: Step)
    requires |w.tables| == |shapes| && 0 < n <= |shapes|
    ensures |st.world.tables| == |shapes|
    decreases n, 0
  {
    FeedZone(shapes, FeedZones(shapes, w, s, n - 1).world, s, n - 1)
  }

  /** Each zone sees a record once, whatever the callbacks do: zones not reached keep their
      tables, and when no callback failed each of the first `n` zones holds the table its
      state machine computes. */
  lemma {:induction false} FeedZonesTables(shapes: seq<ZoneShape>, w: World, s: Sighting, n: nat)
    requires |w.tables| == |shapes| && n <= |shapes|
    ensures var st := FeedZones(shapes, w, s, n);
            && (forall i :: n <= i < |shapes| ==> st.world.tables[i] == w.tables[i])
            && (st.ok ==> forall i :: 0 <= i < n ==>
                  st.world.tables[i] == Observe(w.tables[i], shapes[i].region(s.where), s).table)
    decreases n
  {
    if n > 0 {
      FeedZonesTables(shapes, w, s, n - 1);
      FeedZonesNext(shapes, w, s, n);
    }
  }

  /** An unfolding step of `FeedZones`: one more zone is the next zone fed, unless a callback
      has already failed. */
  lemma FeedZonesNext(shapes: seq<ZoneShape>, w: World, s: Sighting, n: nat)
    requires |w.tables| == |shapes| && 0 < n <= |shapes|
    ensures var p := FeedZones(shapes, w, s, n - 1);
            FeedZones(shapes, w, s, n) == if p.ok then FeedZone(shapes, p.world, s, n - 1) else p
  {
    var p := FeedZones(shapes, w, s, n - 1);
    assert FeedZones(shapes, w, s, n) == FeedNext(shapes, w, s, n);
    if p.ok {
      assert FeedNext(shapes, w, s, n) == Turn(shapes, w, s, n);
      assert Turn(shapes, w, s, n) == FeedZone(shapes, p.world, s, n - 1);
    }
  }

  /** Once a callback has failed, feeding further zones changes nothing. */
  lemma {:induction false} FeedZonesStopped(shapes: seq<ZoneShape>, w: World, s: Sighting, i: nat, n: nat)
    requires |w.tables| == |shapes| && i <= n <= |shapes|
    requires !FeedZones(shapes, w, s, i).ok
    ensures FeedZones(shapes, w, s, n) == FeedZones(shapes, w, s, i)
    decreases n
  {
    if n > i {
      FeedZonesStopped(shapes, w, s, i, n - 1);
      FeedZonesNext(shapes, w, s, n);
    }
  }

  /** One iteration of the record loop of `go`: every zone, then the tracker append for a
      vessel tracked after the zones have run. */
  function Dispatched(shapes: seq<ZoneShape>, w: World, rep: Report): (st: Step)
    requires |w.tables| == |shapes|
    ensures |st.world.tables| == |shapes|
  {
    var f := FeedZones(shapes, w, rep.sighting, |shapes|);
    if f.ok && Tracking(f.world.reg, rep.sighting.mmsi) then
      Step(f.world.(reg := Appended(f.world.reg, rep)), true)
    else f
  }

  /** The tracker append touches only the registry: the zones' tables, the lockings and the
      verdict of a record are those its zones produced. */
  lemma DispatchedZonesOnly(shapes: seq<ZoneShape>, w: World, rep: Report)
    requires |w.tables| == |shapes|
    ensures var f := FeedZones(shapes, w, rep.sighting, |shapes|);
            var d := Dispatched(shapes, w, rep);
            d.world.tables == f.world.tables && d.world.lockings == f.world.lockings && d.ok == f.ok
  {
  }

  /** An unfolding step of `Dispatched`: the zones, then the tracker append when the vessel is
      tracked afterwards. */
  lemma DispatchedAfterZones(shapes: seq<ZoneShape>, w: World, rep: Report)
    requires |w.tables| == |shapes|
    ensures var f := FeedZones(shapes, w, rep.sighting, |shapes|);
            Dispatched(shapes, w, rep) ==
              if f.ok && Tracking(f.world.reg, rep.sighting.mmsi)
              then Step(f.world.(reg := Appended(f.world.reg, rep)), true) else f
  {
  }

  /** The record loop of `go` over a finite stream, stopping at the first failure. */
  function Run(shapes: seq<ZoneShape>, w: World, reps: seq<Report>): (st: Step)
    requires |w.tables| == |shapes|
    ensures |st.world.tables| == |shapes|
  {
    if |reps| == 0 then Step(w, true)
    else
      var p := Run(shapes, w, reps[..|reps| - 1]);
      if !p.ok then p else Dispatched(shapes, p.world, reps[|reps| - 1])
  }

  /** Once a record has failed, later records change nothing. */
  lemma {:induction false} RunStopped(shapes: seq<ZoneShape>, w: World, reps: seq<Report>, i: nat)
    requires |w.tables| == |shapes| && i <= |reps|
    requires !Run(shapes, w, reps[..i]).ok
    ensures Run(shapes, w, reps) == Run(shapes, w, reps[..i])
    decreases |reps|
  {
    if i < |reps| {
      var init := reps[..|reps| - 1];
      assert init[..i] == reps[..i];
      RunStopped(shapes, w, init, i);
    } else {
      assert reps[..i] == reps;
    }
  }

  // ---------------------------------------------------------------------------------------
  // What a record does to the registry

  /** Between two registries, a vessel's tracks only grew: old tracks keep their sightings
      and never become active again, and new tracks are empty. */
  ghost predicate Extends(a: Registry, b: Registry, m: MMSI)
  {
    var ha := AllTracks(a, m);
    var hb := AllTracks(b, m);
    && |ha| <= |hb|
    && (forall i :: 0 <= i < |ha| ==> hb[i].sightings == ha[i].sightings && (hb[i].active ==> ha[i].active))
    && (forall i :: |ha| <= i < |hb| ==> hb[i].sightings == [])
  }

  lemma ExtendsReflexive(a: Registry, m: MMSI)
    ensures Extends(a, a, m)
  {
  }

  lemma ExtendsTransitive(a: Registry, b: Registry, c: Registry, m: MMSI)
    requires Extends(a, b, m) && Extends(b, c, m)
    ensures Extends(a, c, m)
  {
    var hb := AllTracks(b, m);
    var hc := AllTracks(c, m);
    forall i | |AllTracks(a, m)| <= i < |hc|
      ensures hc[i].sightings == []
    {
      if i < |hb| {
        assert hc[i].sightings == hb[i].sightings;
      }
    }
  }

  /** Starting a track only appends an empty one. */
  lemma StartedExtends(reg: Registry, n: MMSI, m: MMSI)
    ensures Extends(reg, Started(reg, n), m)
  {
    StartedSpec(reg, n);
    var ha := AllTracks(reg, m);
    var hb := AllTracks(Started(reg, n), m);
    if m == n {
      assert hb == ha + [TrackState(m, [], true)];
      assert forall i :: 0 <= i < |ha| ==> hb[i] == ha[i];
    }
  }

  /** Ending a track only clears an active flag. */
  lemma StoppedExtends(reg: Registry, n: MMSI, m: MMSI)
    ensures Extends(reg, Stopped(reg, n), m)
  {
    StoppedSpec(reg, n);
  }

  /** Zone events start, keep or end tracks but never add sightings. */
  lemma ReactExtends(zones: seq<ZoneShape>, reg: Registry, lockings: seq<Locking>, s: Sighting,
                     ev: ZoneActivity, m: MMSI)
    ensures Extends(reg, React(zones, reg, lockings, s, ev).reg, m)
  {
    var r := React(zones, reg, lockings, s, ev).reg;
    if r == Started(reg, s.mmsi) {
      StartedExtends(reg, s.mmsi, m);
    } else if r == Stopped(reg, s.mmsi) {
      StoppedExtends(reg, s.mmsi, m);
    } else {
      assert r == reg;
    }
  }

  /** Feeding the zones keeps the registry's invariants. */
  lemma {:induction false} FeedZonesInvariants(shapes: seq<ZoneShape>, w: World, s: Sighting, n: nat)
    requires |w.tables| == |shapes| && n <= |shapes|
    requires WellFormed(w.reg) && OnlyNewestActive(w.reg)
    ensures WellFormed(FeedZones(shapes, w, s, n).world.reg)
    ensures OnlyNewestActive(FeedZones(shapes, w, s, n).world.reg)
    decreases n
  {
    if n > 0 {
      FeedZonesInvariants(shapes, w, s, n - 1);
      FeedZonesInvariantsStep(shapes, w, s, n);
    }
  }

  /** The next zone keeps the registry's invariants. */
  lemma FeedZonesInvariantsStep(shapes: seq<ZoneShape>, w: World, s: Sighting, n: nat)
    requires |w.tables| == |shapes| && 0 < n <= |shapes|
    requires var r := FeedZones(shapes, w, s, n - 1).world.reg; WellFormed(r) && OnlyNewestActive(r)
    ensures WellFormed(FeedZones(shapes, w, s, n).world.reg)
    ensures OnlyNewestActive(FeedZones(shapes, w, s, n).world.reg)
  {
    var p := FeedZones(shapes, w, s, n - 1);
    FeedZonesNext(shapes, w, s, n);
    if p.ok {
      var u := Observe(p.world.tables[n - 1], shapes[n - 1].region(s.where), s);
      if u.event.Some? {
        ReactKeepsInvariants(shapes, p.world.reg, p.world.lockings, s, u.event.value);
      }
    }
  }

  /** The next zone only grows each vessel's tracks. */
  lemma FeedZonesExtendsStep(shapes: seq<ZoneShape>, w: World, s: Sighting, n: nat, m: MMSI)
    requires |w.tables| == |shapes| && 0 < n <= |shapes|
    ensures Extends(FeedZones(shapes, w, s, n - 1).world.reg, FeedZones(shapes, w, s, n).world.reg, m)
  {
    var p := FeedZones(shapes, w, s, n - 1);
    FeedZonesNext(shapes, w, s, n);
    if p.ok {
      var u := Observe(p.world.tables[n - 1], shapes[n - 1].region(s.where), s);
      if u.event.Some? {
        ReactExtends(shapes, p.world.reg, p.world.lockings, s, u.event.value, m);
      } else {
        ExtendsReflexive(p.world.reg, m);
      }
    } else {
      FeedZonesNext(shapes, w, s, n);
      ExtendsReflexive(p.world.reg, m);
    }
  }

  /** Feeding the zones only grows each vessel's tracks. */
  lemma {:induction false} FeedZonesExtends(shapes: seq<ZoneShape>, w: World, s: Sighting, n: nat, m: MMSI)
    requires |w.tables| == |shapes| && n <= |shapes|
    ensures Extends(w.reg, FeedZones(shapes, w, s, n).world.reg, m)
    decreases n
  {
    if n > 0 {
      FeedZonesExtends(shapes, w, s, n - 1, m);
      FeedZonesExtendsStep(shapes, w, s, n, m);
      ExtendsTransitive(w.reg, FeedZones(shapes, w, s, n - 1).world.reg, FeedZones(shapes, w, s, n).world.reg, m);
    }
  }

  /** Feeding the zones leaves other vessels' tracks alone and never records a name. */
  lemma {:induction false} FeedZonesFrame(shapes: seq<ZoneShape>, w: World, s: Sighting, n: nat, m: MMSI)
    requires |w.tables| == |shapes| && n <= |shapes|
    ensures FeedZones(shapes, w, s, n).world.reg.vessels == w.reg.vessels
    ensures m != s.mmsi ==> AllTracks(FeedZones(shapes, w, s, n).world.reg, m) == AllTracks(w.reg, m)
    decreases n
  {
    if n > 0 {
      FeedZonesFrame(shapes, w, s, n - 1, m);
      FeedZonesNext(shapes, w, s, n);
    }
  }

  /** Feeding the zones keeps the invariants and only grows the vessel's tracks. */
  lemma FeedZonesRegistry(shapes: seq<ZoneShape>, w: World, s: Sighting, m: MMSI)
    requires |w.tables| == |shapes| && WellFormed(w.reg) && OnlyNewestActive(w.reg)
    ensures var r := FeedZones(shapes, w, s, |shapes|).world.reg;
            && WellFormed(r) && OnlyNewestActive(r) && Extends(w.reg, r, m)
            && r.vessels == w.reg.vessels
            && (m != s.mmsi ==> AllTracks(r, m) == AllTracks(w.reg, m))
  {
    FeedZonesInvariants(shapes, w, s, |shapes|);
    FeedZonesExtends(shapes, w, s, |shapes|, m);
    FeedZonesFrame(shapes, w, s, |shapes|, m);
  }

  /** A record keeps the registry's invariants. */
  lemma DispatchedKeepsInvariants(shapes: seq<ZoneShape>, w: World, rep: Report)
    requires |w.tables| == |shapes| && WellFormed(w.reg) && OnlyNewestActive(w.reg)
    ensures WellFormed(Dispatched(shapes, w, rep).world.reg)
    ensures OnlyNewestActive(Dispatched(shapes, w, rep).world.reg)
  {
    FeedZonesRegistry(shapes, w, rep.sighting, rep.sighting.mmsi);
    AppendedKeepsInvariants(FeedZones(shapes, w, rep.sighting, |shapes|).world.reg, rep);
  }

  /** A record for a vessel not tracked once the zones have run leaves the tracks as the zones
      left them and records no name: names are captured only by the tracker append. */
  lemma DispatchedUntracked(shapes: seq<ZoneShape>, w: World, rep: Report)
    requires |w.tables| == |shapes| && WellFormed(w.reg) && OnlyNewestActive(w.reg)
    requires !Tracking(FeedZones(shapes, w, rep.sighting, |shapes|).world.reg, rep.sighting.mmsi)
    ensures Dispatched(shapes, w, rep) == FeedZones(shapes, w, rep.sighting, |shapes|)
    ensures Dispatched(shapes, w, rep).world.reg.vessels == w.reg.vessels
  {
    FeedZonesRegistry(shapes, w, rep.sighting, rep.sighting.mmsi);
  }

  /** A record whose `Entered` event started tracking the vessel is the first sighting of the
      new track. */
  lemma DispatchedStartsTrack(shapes: seq<ZoneShape>, w: World, rep: Report)
    requires |w.tables| == |shapes| && WellFormed(w.reg) && OnlyNewestActive(w.reg)
    requires !Tracking(w.reg, rep.sighting.mmsi)
    requires Dispatched(shapes, w, rep).ok && Tracking(Dispatched(shapes, w, rep).world.reg, rep.sighting.mmsi)
    ensures ActiveOf(Dispatched(shapes, w, rep).world.reg, rep.sighting.mmsi).value.sightings == [rep.sighting]
  {
    var m := rep.sighting.mmsi;
    FeedZonesRegistry(shapes, w, rep.sighting, m);
    var f := FeedZones(shapes, w, rep.sighting, |shapes|).world.reg;
    var hw := AllTracks(w.reg, m);
    var hf := AllTracks(f, m);
    var j := |hf| - 1;
    if j < |hw| {
      assert false;
    }
    assert hf[j].sightings == [];
    assert Insert([], rep.sighting) == [rep.sighting];
  }

  /** The track a vessel had when the record arrived gets the record exactly when it is still
      active afterwards; a track an `Exited` event ended during the record is not appended to. */
  lemma DispatchedTrackFate(shapes: seq<ZoneShape>, w: World, rep: Report)
    requires |w.tables| == |shapes| && WellFormed(w.reg) && OnlyNewestActive(w.reg)
    requires Tracking(w.reg, rep.sighting.mmsi)
    ensures var m := rep.sighting.mmsi;
            var k := |AllTracks(w.reg, m)| - 1;
            var d := Dispatched(shapes, w, rep);
            && k < |AllTracks(d.world.reg, m)|
            && AllTracks(d.world.reg, m)[k].sightings ==
               if d.ok && AllTracks(d.world.reg, m)[k].active
               then Insert(AllTracks(w.reg, m)[k].sightings, rep.sighting)
               else AllTracks(w.reg, m)[k].sightings
  {
    var m := rep.sighting.mmsi;
    FeedZonesRegistry(shapes, w, rep.sighting, m);
    var f := FeedZones(shapes, w, rep.sighting, |shapes|);
    var d := Dispatched(shapes, w, rep);
    var hf := AllTracks(f.world.reg, m);
    var k := |AllTracks(w.reg, m)| - 1;
    assert hf[k].sightings == AllTracks(w.reg, m)[k].sightings;
    if f.ok && Tracking(f.world.reg, m) {
      var hd := AllTracks(d.world.reg, m);
      assert d.world.reg == Appended(f.world.reg, rep);
      assert hd == hf[|hf| - 1 := hf[|hf| - 1].(sightings := Insert(hf[|hf| - 1].sightings, rep.sighting))];
      if k < |hf| - 1 {
        assert !hf[k].active && hd[k] == hf[k];
      }
    } else {
      assert d == f;
      if k < |hf| - 1 {
        assert !hf[k].active;
      }
    }
  }

  /** A record leaves every other vessel's tracks and metadata alone. */
  lemma DispatchedOtherVessels(shapes: seq<ZoneShape>, w: World, rep: Report, n: MMSI)
    requires |w.tables| == |shapes| && WellFormed(w.reg) && OnlyNewestActive(w.reg)
    requires n != rep.sighting.mmsi
    ensures AllTracks(Dispatched(shapes, w, rep).world.reg, n) == AllTracks(w.reg, n)
    ensures VesselData(Dispatched(shapes, w, rep).world.reg, n) == VesselData(w.reg, n)
  {
    FeedZonesRegistry(shapes, w, rep.sighting, n);
  }

  /** A run over any stream keeps the registry's invariants. */
  lemma {:induction false} RunKeepsInvariants(shapes: seq<ZoneShape>, w: World, reps: seq<Report>)
    requires |w.tables| == |shapes| && WellFormed(w.reg) && OnlyNewestActive(w.reg)
    ensures WellFormed(Run(shapes, w, reps).world.reg) && OnlyNewestActive(Run(shapes, w, reps).world.reg)
  {
    if |reps| > 0 {
      RunKeepsInvariants(shapes, w, reps[..|reps| - 1]);
      var p := Run(shapes, w, reps[..|reps| - 1]);
      if p.ok {
        DispatchedKeepsInvariants(shapes, p.world, reps[|reps| - 1]);
      }
    }
  }

  // ---------------------------------------------------------------------------------------
  // The watcher object

  /** The stored zones listed in insertion order of their identifiers. */
  function InOrder(zones: map<string, Zone>, order: seq<string>): (r: seq<Zone>)
    requires forall i :: 0 <= i < |order| ==> order[i] in zones
    ensures |r| == |order| && forall i :: 0 <= i < |order| ==> r[i] == zones[order[i]]
  {
    seq(|order|, i requires 0 <= i < |order| && order[i] in zones => zones[order[i]])
  }

  /** What the correlator sees of a list of zones. */
  function Shapes(zs: seq<Zone>): (r: seq<ZoneShape>)
    ensures |r| == |zs| && forall i :: 0 <= i < |zs| ==> r[i] == ZoneShape(zs[i].id, zs[i].region)
  {
    seq(|zs|, i requires 0 <= i < |zs| => zs[i].Shape())
  }

  /** The occupancy tables of a list of zones. */
  ghost function Tables(zs: seq<Zone>): (r: seq<Table>)
    reads zs
    ensures |r| == |zs| && forall i :: 0 <= i < |zs| ==> r[i] == zs[i].vesselsInZone
  {
    seq(|zs|, i reads zs requires 0 <= i < |zs| => zs[i].vesselsInZone)
  }

  class Watcher {
    var zones: map<string, Zone>
    /** Identifiers in the order they were first added: the order `Object.values` lists the
        zones in. */
    var order: seq<string>
    const tracker: VesselTracker

    /** Each stored zone is filed under its own identifier, and `order` lists every
        identifier once. */
    ghost predicate Valid()
      reads this
    {
      && Distinct(order)
      && (forall id :: id in zones <==> id in order)
      && (forall id :: id in zones ==> zones[id].id == id)
    }

    constructor(tracker: VesselTracker)
      ensures Valid() && this.tracker == tracker && zones == map[] && order == []
    {
      this.tracker := tracker;
      zones := map[];
      order := [];
    }

    /** `addZone`: stores the zone under its identifier, replacing a zone of the same
        identifier in its place in the listing. */
    method AddZone(z: Zone)
      requires Valid()
      modifies this
      ensures Valid()
      ensures zones == old(zones)[z.id := z]
      ensures order == if z.id in old(zones) then old(order) else old(order) + [z.id]
      ensures GetZone(z.id) == Some(z)
      ensures forall id :: id != z.id ==> GetZone(id) == old(GetZone(id))
    {
      if z.id !in zones {
        order := order + [z.id];
      }
      zones := zones[z.id := z];
    }

    /** `getZone`: absent for an identifier never added. */
    function GetZone(id: string): (r: Option<Zone>)
      reads this
      ensures r.Some? <==> id in zones
      ensures r.Some? ==> r.value == zones[id] && (Valid() ==> r.value.id == id)
    {
      if id in zones then Some(zones[id]) else None
    }

    /** `getZones`: every stored zone exactly once, in insertion order, one per identifier. */
    function GetZones(): (r: seq<Zone>)
      reads this
      requires Valid()
      ensures |r| == |order| && forall i :: 0 <= i < |r| ==> r[i] == zones[order[i]] && r[i].id == order[i]
      ensures forall id :: id in zones ==> zones[id] in r
      ensures forall i, j :: 0 <= i < j < |r| ==> r[i].id != r[j].id && r[i] != r[j]
    {
      var r := InOrder(zones, order);
      assert forall id :: id in zones ==> zones[id] in r by {
        forall id | id in zones
          ensures zones[id] in r
        {
          var i :| 0 <= i < |order| && order[i] == id;
          assert r[i] == zones[id];
        }
      }
      r
    }

    /** The state a record can change. */
    ghost function Snapshot(c: Correlator): (w: World)
      reads this, zones.Values, tracker, c
      requires Valid()
      ensures |w.tables| == |order|
    {
      World(Tables(GetZones()), tracker.Model, c.lockings)
    }

    /** The body of `go`'s record loop: the record goes to every zone in `getZones` order, each
        event to the callback at once, and then to the tracker if the vessel is tracked; the
        result is `false` where a callback throws, which ends the run. */
    method Dispatch(c: Correlator, rep: Report) returns (ok: bool)
      requires Valid() && tracker.Valid() && c.tracker == tracker
      modifies zones.Values, tracker, tracker.Repr, c
      ensures tracker.Valid() && old(tracker.Repr) <= tracker.Repr
      ensures fresh(tracker.Repr - old(tracker.Repr))
      ensures Step(Snapshot(c), ok) == Dispatched(Shapes(GetZones()), old(Snapshot(c)), rep)
    {
      var zs := GetZones();
      var shapes := Shapes(zs);
      ghost var w0 := World(Tables(zs), tracker.Model, c.lockings);
      ok := PassToZones(c, zs, shapes, rep.sighting);
      ghost var f := FeedZones(shapes, w0, rep.sighting, |zs|);
      assert Step(World(Tables(zs), tracker.Model, c.lockings), ok) == f;
      if ok {
        AppendIfTracked(rep);
      }
      assert GetZones() == zs;
      DispatchedAfterZones(shapes, w0, rep);
    }

    /** The tracker part of a record: appended to the vessel's active track, if any. */
    method AppendIfTracked(rep: Report)
      requires tracker.Valid()
      modifies tracker, tracker.Repr
      ensures tracker.Valid() && old(tracker.Repr) <= tracker.Repr
      ensures fresh(tracker.Repr - old(tracker.Repr))
      ensures tracker.Model == if Tracking(old(tracker.Model), rep.sighting.mmsi)
                               then Appended(old(tracker.Model), rep) else old(tracker.Model)
    {
      if tracker.IsTracking(rep.sighting.mmsi) {
        tracker.AddSighting(rep);
      }
    }

    /** The zone loop of a record. */
    method PassToZones(c: Correlator, zs: seq<Zone>, shapes: seq<ZoneShape>, s: Sighting)
      returns (ok: bool)
      requires tracker.Valid() && c.tracker == tracker && shapes == Shapes(zs)
      requires forall j, k :: 0 <= j < k < |zs| ==> zs[j] != zs[k]
      modifies zs, tracker, tracker.Repr, c
      ensures tracker.Valid() && old(tracker.Repr) <= tracker.Repr
      ensures fresh(tracker.Repr - old(tracker.Repr))
      ensures Step(World(Tables(zs), tracker.Model, c.lockings), ok) ==
              FeedZones(shapes, old(World(Tables(zs), tracker.Model, c.lockings)), s, |zs|)
    {
      ghost var w0 := World(Tables(zs), tracker.Model, c.lockings);
      var i := 0;
      ok := true;
      while i < |zs| && ok
        invariant 0 <= i <= |zs|
        invariant tracker.Valid() && old(tracker.Repr) <= tracker.Repr
        invariant fresh(tracker.Repr - old(tracker.Repr))
        invariant Step(World(Tables(zs), tracker.Model, c.lockings), ok) == FeedZones(shapes, w0, s, i)
      {
        ok := PassToZone(c, zs, shapes, i, s, w0);
        i := i + 1;
      }
      if !ok {
        FeedZonesStopped(shapes, w0, s, i, |zs|);
      }
    }

    /** One turn of the zone loop: zone `i` takes the sighting, and its event, if any, goes to
        the callback. */
    method PassToZone(c: Correlator, zs: seq<Zone>, shapes: seq<ZoneShape>, i: nat, s: Sighting,
                      ghost w0: World)
      returns (ok: bool)
      requires tracker.Valid() && c.tracker == tracker
      requires i < |zs| && shapes == Shapes(zs) && |w0.tables| == |zs|
      requires forall j, k :: 0 <= j < k < |zs| ==> zs[j] != zs[k]
      requires Step(World(Tables(zs), tracker.Model, c.lockings), true) == FeedZones(shapes, w0, s, i)
      modifies zs[i], tracker, tracker.Repr, c
      ensures tracker.Valid() && old(tracker.Repr) <= tracker.Repr
      ensures fresh(tracker.Repr - old(tracker.Repr))
      ensures Step(World(Tables(zs), tracker.Model, c.lockings), ok) == FeedZones(shapes, w0, s, i + 1)
    {
      ghost var before := World(Tables(zs), tracker.Model, c.lockings);
      var ev := zs[i].AddSighting(s);
      assert Tables(zs) == before.tables[i := zs[i].vesselsInZone];
      ok := true;
      if ev.Some? {
        ok := c.OnZoneEvent(shapes, s, ev.value);
      }
      FeedZonesNext(shapes, w0, s, i + 1);
      assert FeedZones(shapes, w0, s, i + 1) == FeedZone(shapes, before, s, i);
    }

    /** `go` over a finite stream of records, stopping at the first failure. */
    method Go(c: Correlator, reps: seq<Report>) returns (ok: bool)
      requires Valid() && tracker.Valid() && c.tracker == tracker
      modifies zones.Values, tracker, tracker.Repr, c
      ensures tracker.Valid() && old(tracker.Repr) <= tracker.Repr
      ensures fresh(tracker.Repr - old(tracker.Repr))
      ensures Step(Snapshot(c), ok) == Run(Shapes(GetZones()), old(Snapshot(c)), reps)
    {
      ghost var shapes := Shapes(GetZones());
      ghost var w0 := Snapshot(c);
      var i := 0;
      ok := true;
      while i < |reps| && ok
        invariant 0 <= i <= |reps|
        invariant tracker.Valid() && old(tracker.Repr) <= tracker.Repr
        invariant fresh(tracker.Repr - old(tracker.Repr))
        invariant Step(Snapshot(c), ok) == Run(shapes, w0, reps[..i])
      {
        assert reps[..i + 1][..i] == reps[..i];
        ok := Dispatch(c, reps[i]);
        i := i + 1;
      }
      if !ok {
        RunStopped(shapes, w0, reps, i);
      } else {
        assert reps[..i] == reps;
      }
    }
  }

  /** `getZone` at the correlator's level agrees with the watcher's `getZone`: the listed zones
      have distinct identifiers, so the lemmas that need that (such as `LockingEndpoints`) apply
      to a watcher's zones, and the first zone found under an identifier is the one stored. */
  lemma ZoneByIdIsGetZone(w: Watcher, id: string)
    requires w.Valid()
    ensures Distinct(Ids(Shapes(w.GetZones())))
    ensures ZoneById(Shapes(w.GetZones()), id) == if id in w.zones then Some(w.zones[id].Shape()) else None
  {
    var zs := Shapes(w.GetZones());
    assert forall i :: 0 <= i < |zs| ==> zs[i].id == w.order[i];
    assert Ids(zs) == w.order;
    ZoneByIdSpec(zs, id);
    if id in w.zones {
      var i :| 0 <= i < |w.order| && w.order[i] == id;
      assert zs[i] == w.zones[id].Shape();
    }
  }
}
