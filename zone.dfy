/** The per-zone occupancy state machine (src/zone.ts). A zone keeps, for every vessel it
    believes to be inside, how many inside sightings it has seen and the earliest time it knows
    of; each sighting yields at most one of `Entered`, `Within` or `Exited`. */
module Zones {
  import opened Common

  datatype ZoneActivity = Entered | Exited | Within

  /** The occupancy entry of one vessel: inside sightings seen, and earliest known entry time. */
  datatype Occupancy = Occupancy(count: nat, firstSighting: Time)

  /** The `vesselsInZone` dictionary. */
  type Table = map<MMSI, Occupancy>

  /** What the rest of the detector needs of a zone: its identifier and its region test
      (`locationInZone`; the polygon and circle geometry stays outside the model). */
  datatype ZoneShape = ZoneShape(id: string, region: Coord -> bool)

  /** The new table after one sighting, and the event the zone reports for it, if any. */
  datatype Update = Update(table: Table, event: Option<ZoneActivity>)

  function Min(a: int, b: int): int
  {
    if a <= b then a else b
  }

  /** The effect of one sighting on a zone's table, `inside` being the zone's verdict on the
      sighting's position. */
  function Observe(t: Table, inside: bool, s: Sighting): Update
  {
    var m := s.mmsi;
    if inside then
      if m in t then
        var e := t[m];
        if s.when < e.firstSighting then
          Update(t[m := Occupancy(e.count + 1, s.when)], None)
        else
          Update(t[m := Occupancy(e.count + 1, e.firstSighting)], Some(Within))
      else
        Update(t[m := Occupancy(1, s.when)], Some(Entered))
    else if m in t then
      if s.when < t[m].firstSighting then
        Update(t, None)
      else
        Update(t - {m}, Some(Exited))
    else
      Update(t, None)
  }

  /** What one sighting does to a zone: which event it reports, and how the occupancy table
      changes. */
  lemma ObserveSpec(t: Table, inside: bool, s: Sighting)
    ensures var u := Observe(t, inside, s);
            // only the entry of the sighting's vessel can change
            && (forall m :: m != s.mmsi ==> (m in u.table <==> m in t))
            && (forall m :: m != s.mmsi && m in t ==> u.table[m] == t[m])
    // which event is reported
    ensures var u := Observe(t, inside, s);
            && (u.event == Some(Entered) <==> inside && s.mmsi !in t)
            && (u.event == Some(Within) <==> inside && s.mmsi in t && s.when >= t[s.mmsi].firstSighting)
            && (u.event == Some(Exited) <==> !inside && s.mmsi in t && s.when >= t[s.mmsi].firstSighting)
    // the vessel is still (or now) inside, unless a timely outside sighting removed it
    ensures var u := Observe(t, inside, s);
            s.mmsi in u.table <==> inside || (s.mmsi in t && s.when < t[s.mmsi].firstSighting)
    // an inside sighting is counted and can only move the entry time back
    ensures var u := Observe(t, inside, s);
            inside ==>
              && u.table[s.mmsi].count == (if s.mmsi in t then t[s.mmsi].count + 1 else 1)
              && u.table[s.mmsi].firstSighting ==
                 (if s.mmsi in t then Min(t[s.mmsi].firstSighting, s.when) else s.when)
    // a stale outside sighting leaves the entry as it was
    ensures var u := Observe(t, inside, s);
            !inside && s.mmsi in u.table ==> u.table[s.mmsi] == t[s.mmsi]
  {
  }

  /** A zone's table and the events it reported after a sequence of sightings fed in order. */
  datatype Trace = Trace(table: Table, events: seq<Option<ZoneActivity>>)

  function Replay(t: Table, region: Coord -> bool, ss: seq<Sighting>): (r: Trace)
    ensures |r.events| == |ss|
  {
    if |ss| == 0 then Trace(t, [])
    else
      var p := Replay(t, region, ss[..|ss| - 1]);
      var last := ss[|ss| - 1];
      var u := Observe(p.table, region(last.where), last);
      Trace(u.table, p.events + [u.event])
  }

  /** A vessel not yet in the zone, seen only inside it and never earlier than its first
      sighting: the first sighting is reported as `Entered`, every later one as `Within`, the
      count equals the number of sightings and the entry time is the first sighting's. */
  lemma {:induction false} InsideRun(t: Table, region: Coord -> bool, ss: seq<Sighting>, m: MMSI)
    requires m !in t && |ss| > 0
    requires forall i :: 0 <= i < |ss| ==> ss[i].mmsi == m && region(ss[i].where)
    requires forall i :: 0 <= i < |ss| ==> ss[0].when <= ss[i].when
    ensures Replay(t, region, ss).events == [Some(Entered)] + seq(|ss| - 1, _ => Some(Within))
    ensures m in Replay(t, region, ss).table
    ensures Replay(t, region, ss).table[m] == Occupancy(|ss|, ss[0].when)
    ensures Replay(t, region, ss).table - {m} == t
  {
    if |ss| > 1 {
      var init := ss[..|ss| - 1];
      InsideRun(t, region, init, m);
      var p := Replay(t, region, init);
      var u := Observe(p.table, region(ss[|ss| - 1].where), ss[|ss| - 1]);
      assert u.table == p.table[m := Occupancy(|ss|, ss[0].when)];
      assert u.table - {m} == p.table - {m};
      assert p.events + [u.event] == [Some(Entered)] + seq(|ss| - 1, _ => Some(Within));
    } else {
      assert t[m := Occupancy(1, ss[0].when)] - {m} == t;
    }
  }

  /** The same inside sighting twice in a row, for a vessel already inside since no later than
      that time: two `Within` reports, the count up by two, no spurious `Entered`/`Exited`. */
  lemma {:induction false} RepeatedSighting(t: Table, region: Coord -> bool, s: Sighting)
    requires s.mmsi in t && region(s.where) && t[s.mmsi].firstSighting <= s.when
    ensures Replay(t, region, [s, s]).events == [Some(Within), Some(Within)]
    ensures Replay(t, region, [s, s]).table ==
            t[s.mmsi := Occupancy(t[s.mmsi].count + 2, t[s.mmsi].firstSighting)]
  {
    assert [s, s][..1] == [s];
    assert [s][..0] == [];
    assert Replay(t, region, []) == Trace(t, []);
    var u := Observe(t, region(s.where), s);
    assert u.table == t[s.mmsi := Occupancy(t[s.mmsi].count + 1, t[s.mmsi].firstSighting)];
    var once := Replay(t, region, [s]);
    assert once == Trace(u.table, [u.event]);
    assert once.table == t[s.mmsi := Occupancy(t[s.mmsi].count + 1, t[s.mmsi].firstSighting)];
    assert once.events == [Some(Within)];
  }

  /** A geofenced zone and its occupancy table. */
  class Zone {
    const id: string
    const region: Coord -> bool
    var vesselsInZone: Table

    constructor(id: string, region: Coord -> bool)
      ensures this.id == id && this.region == region && vesselsInZone == map[]
    {
      this.id := id;
      this.region := region;
      vesselsInZone := map[];
    }

    function Shape(): (z: ZoneShape)
      ensures z.id == id && z.region == region
    {
      ZoneShape(id, region)
    }

    function ContainsVessel(m: MMSI): bool
      reads this
    {
      m in vesselsInZone
    }

    /** The vessels currently believed inside, each once (the source lists the table's keys). */
    function GetVesselsWithin(): (r: set<MMSI>)
      reads this
      ensures forall m :: m in r <==> ContainsVessel(m)
    {
      vesselsInZone.Keys
    }

    /** Feeds one sighting to the zone and returns the event its callback would receive. */
    method AddSighting(s: Sighting) returns (ev: Option<ZoneActivity>)
      modifies this
      ensures Update(vesselsInZone, ev) == Observe(old(vesselsInZone), region(s.where), s)
    {
      var m := s.mmsi;
      if region(s.where) {
        if ContainsVessel(m) {
          var e := vesselsInZone[m];
          if s.when < e.firstSighting {
            vesselsInZone := vesselsInZone[m := Occupancy(e.count + 1, s.when)];
            ev := None;
          } else {
            vesselsInZone := vesselsInZone[m := Occupancy(e.count + 1, e.firstSighting)];
            ev := Some(Within);
          }
        } else {
          vesselsInZone := vesselsInZone[m := Occupancy(1, s.when)];
          ev := Some(Entered);
        }
      } else if ContainsVessel(m) {
        if s.when < vesselsInZone[m].firstSighting {
          ev := None;
        } else {
          vesselsInZone := vesselsInZone - {m};
          ev := Some(Exited);
        }
      } else {
        ev := None;
      }
    }
  }
}
