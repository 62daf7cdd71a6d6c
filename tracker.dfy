/** The track registry (src/tracker.ts): per vessel, a list of tracks of which only the newest
    can be active, each track a time-ordered list of sightings; plus vessel names recorded the
    first time a named record is appended. */
module Tracker {
  import opened Common

  /** Vessel metadata (the `Vessel` record of `mmsilist`). */
  datatype Vessel = Vessel(mmsi: MMSI, name: string)

  // ---------------------------------------------------------------------------------------
  // Ordered insertion into a track

  /** `findIndex(t => t.when > when)`: the first position holding a strictly later sighting,
      or -1 when there is none. */
  function FindLater(t: seq<Sighting>, when: Time): (r: int)
    ensures -1 <= r < |t|
    ensures r >= 0 ==> t[r].when > when && forall j :: 0 <= j < r ==> t[j].when <= when
    ensures r == -1 <==> forall j :: 0 <= j < |t| ==> t[j].when <= when
  {
    if |t| == 0 then -1
    else if t[0].when > when then 0
    else
      var k := FindLater(t[1..], when);
      if k < 0 then -1 else k + 1
  }

  /** Where `VesselTrack.addSighting` puts a sighting of time `w`: before the first strictly
      later sighting, at the end when there is none. */
  function InsertionPoint(t: seq<Sighting>, w: Time): (k: nat)
    ensures k <= |t|
    ensures forall j :: 0 <= j < k ==> t[j].when <= w
    ensures k < |t| ==> t[k].when > w
  {
    var p := FindLater(t, w);
    if p >= 0 then p else |t|
  }

  /** Ordered insertion: `s` goes before the first strictly later sighting, at the end when
      there is none. */
  function Insert(t: seq<Sighting>, s: Sighting): (r: seq<Sighting>)
    ensures |r| == |t| + 1
  {
    if |t| == 0 then [s]
    else if t[0].when > s.when then [s] + t
    else [t[0]] + Insert(t[1..], s)
  }

  /** Putting an element in front commutes with a splice one position further on. */
  lemma SpliceCons(x: Sighting, u: seq<Sighting>, s: Sighting, k: nat)
    requires k <= |u|
    ensures [x] + (u[..k] + [s] + u[k..]) == ([x] + u)[..k + 1] + [s] + ([x] + u)[k + 1..]
  {
    assert ([x] + u)[..k + 1] == [x] + u[..k];
    assert ([x] + u)[k + 1..] == u[k..];
  }

  /** Ordered insertion splices `s` in at its insertion point. */
  lemma {:induction false} InsertAt(t: seq<Sighting>, s: Sighting)
    ensures var k := InsertionPoint(t, s.when);
            Insert(t, s) == t[..k] + [s] + t[k..]
  {
    if |t| == 0 {
    } else if t[0].when > s.when {
      assert InsertionPoint(t, s.when) == 0;
      assert t[..0] + [s] + t[0..] == [s] + t;
    } else {
      var u := t[1..];
      InsertAt(u, s);
      var k := InsertionPoint(u, s.when);
      assert InsertionPoint(t, s.when) == k + 1;
      SpliceCons(t[0], u, s, k);
      assert [t[0]] + u == t;
    }
  }

  /** Ordered insertion is the splice `VesselTrack.addSighting` performs at the `findIndex`
      position, or a push when there is no later sighting. */
  lemma InsertIsSplice(t: seq<Sighting>, s: Sighting)
    ensures var p := FindLater(t, s.when);
            Insert(t, s) == if p >= 0 then t[..p] + [s] + t[p..] else t + [s]
  {
    InsertAt(t, s);
    if FindLater(t, s.when) < 0 {
      assert t[..|t|] == t && t[|t|..] == [];
    }
  }

  /** The track with `s` inserted at its insertion point; nothing else moves or changes. */
  lemma InsertContents(t: seq<Sighting>, s: Sighting)
    ensures var r := Insert(t, s);
            var k := InsertionPoint(t, s.when);
            && r[k] == s
            && (forall j :: 0 <= j < k ==> r[j] == t[j])
            && (forall j :: k < j < |r| ==> r[j] == t[j - 1])
  {
    InsertAt(t, s);
  }

  /** Insertion adds exactly the one sighting: the result is a permutation of the old track
      plus `s`. */
  lemma {:induction false} InsertPermutation(t: seq<Sighting>, s: Sighting)
    ensures multiset(Insert(t, s)) == multiset(t) + multiset{s}
  {
    if |t| > 0 && t[0].when <= s.when {
      InsertPermutation(t[1..], s);
      assert t == [t[0]] + t[1..];
    }
  }

  /** Ordered insertion keeps a track sorted by time. */
  lemma InsertSorted(t: seq<Sighting>, s: Sighting)
    requires Sorted(t)
    ensures Sorted(Insert(t, s))
  {
    InsertContents(t, s);
    var r := Insert(t, s);
    var k := InsertionPoint(t, s.when);
    forall i, j | 0 <= i < j < |r|
      ensures r[i].when <= r[j].when
    {
      if j < k {
        assert r[i] == t[i] && r[j] == t[j];
      } else if i > k {
        assert r[i] == t[i - 1] && r[j] == t[j - 1];
      } else if i == k {
        assert r[j] == t[j - 1] && t[k].when <= t[j - 1].when;
      } else if j == k {
        assert r[i] == t[i];
      } else {
        assert r[i] == t[i] && r[j] == t[j - 1];
      }
    }
  }

  /** A sighting earlier than every sighting of a track becomes its first element. */
  lemma InsertEarliest(t: seq<Sighting>, s: Sighting)
    requires forall j :: 0 <= j < |t| ==> s.when < t[j].when
    ensures Insert(t, s) == [s] + t
  {
    assert forall j :: 0 < j < |t| + 1 ==> Insert(t, s)[j] == ([s] + t)[j];
  }

  /** In a sorted track, a sighting goes after every sighting no later than it, so after the
      sightings of equal time already there. */
  lemma InsertAfterEqual(t: seq<Sighting>, s: Sighting)
    requires Sorted(t)
    ensures forall j :: 0 <= j < |t| && t[j].when <= s.when ==> j < InsertionPoint(t, s.when)
  {
  }

  /** One tracking episode of a vessel. */
  class VesselTrack {
    const mmsi: MMSI
    var track: seq<Sighting>
    var active: bool

    constructor(mmsi: MMSI)
      ensures this.mmsi == mmsi && track == [] && active
    {
      this.mmsi := mmsi;
      track := [];
      active := true;
    }

    function IsActive(): bool
      reads this
    {
      active
    }

    /** Ends the episode; ending it again changes nothing further. */
    method End()
      modifies this
      ensures !active && track == old(track)
    {
      active := false;
    }

    method AddSighting(s: Sighting)
      modifies this
      ensures track == Insert(old(track), s) && active == old(active)
    {
      InsertIsSplice(track, s);
      var putBefore := FindLater(track, s.when);
      if putBefore >= 0 {
        track := track[..putBefore] + [s] + track[putBefore..];
      } else {
        track := track + [s];
      }
    }

    function GetMMSI(): MMSI
    {
      mmsi
    }

    function GetTrack(): seq<Sighting>
      reads this
    {
      track
    }

    /** The episode as a value. */
    ghost function State(): TrackState
      reads this
    {
      TrackState(mmsi, track, active)
    }
  }

  // ---------------------------------------------------------------------------------------
  // The registry as a value

  datatype TrackState = TrackState(mmsi: MMSI, sightings: seq<Sighting>, active: bool)

  /** All tracks of all vessels, oldest first, and the recorded vessel metadata. */
  datatype Registry = Registry(tracks: map<MMSI, seq<TrackState>>, vessels: map<MMSI, Vessel>)

  /** `getAllTracks`: a vessel's tracks, none for a vessel never tracked. */
  function AllTracks(reg: Registry, m: MMSI): (h: seq<TrackState>)
    ensures m !in reg.tracks ==> h == []
  {
    if m in reg.tracks then reg.tracks[m] else []
  }

  /** `activeTrackIndex`: the position of the newest track when it is active. Older tracks
      are never consulted. */
  function ActiveIndex(reg: Registry, m: MMSI): (r: Option<nat>)
    ensures r.Some? <==> |AllTracks(reg, m)| > 0 && AllTracks(reg, m)[|AllTracks(reg, m)| - 1].active
    ensures r.Some? ==> r.value == |AllTracks(reg, m)| - 1
  {
    var h := AllTracks(reg, m);
    if |h| > 0 && h[|h| - 1].active then Some(|h| - 1) else None
  }

  /** `isTracking`: the vessel's newest track exists and is active. */
  predicate Tracking(reg: Registry, m: MMSI)
    ensures Tracking(reg, m) <==> |AllTracks(reg, m)| > 0 && AllTracks(reg, m)[|AllTracks(reg, m)| - 1].active
  {
    ActiveIndex(reg, m).Some?
  }

  /** `getActiveTrack`. */
  function ActiveOf(reg: Registry, m: MMSI): (r: Option<TrackState>)
    ensures r.Some? <==> Tracking(reg, m)
    ensures r.Some? ==> r.value == AllTracks(reg, m)[|AllTracks(reg, m)| - 1] && r.value.active
  {
    match ActiveIndex(reg, m)
    case Some(k) => Some(AllTracks(reg, m)[k])
    case None => None
  }

  /** `getVesselData`: absent for an unknown vessel. */
  function VesselData(reg: Registry, m: MMSI): (r: Option<Vessel>)
    ensures r.Some? <==> m in reg.vessels
    ensures r.Some? ==> r.value == reg.vessels[m]
  {
    if m in reg.vessels then Some(reg.vessels[m]) else None
  }

  /** `startTracking`: a fresh, empty, active track appended to the vessel's list. */
  function Started(reg: Registry, m: MMSI): Registry
  {
    Registry(reg.tracks[m := AllTracks(reg, m) + [TrackState(m, [], true)]], reg.vessels)
  }

  /** Starting a track leaves earlier tracks and other vessels untouched, and the new track is
      the active one. */
  lemma StartedSpec(reg: Registry, m: MMSI)
    ensures var r := Started(reg, m);
            && AllTracks(r, m) == AllTracks(reg, m) + [TrackState(m, [], true)]
            && (forall n :: n != m ==> AllTracks(r, n) == AllTracks(reg, n))
            && r.tracks.Keys == reg.tracks.Keys + {m} && r.vessels == reg.vessels
            && ActiveOf(r, m) == Some(TrackState(m, [], true))
  {
  }

  /** `stopTracking`: the active track, if any, ended. */
  function Stopped(reg: Registry, m: MMSI): Registry
  {
    match ActiveIndex(reg, m)
    case None => reg
    case Some(k) =>
      var h := reg.tracks[m];
      Registry(reg.tracks[m := h[k := h[k].(active := false)]], reg.vessels)
  }

  /** After stopping, the vessel is not tracked; only the active flag of its newest track can
      have changed, and nothing changes when it was not tracked. */
  lemma StoppedSpec(reg: Registry, m: MMSI)
    ensures var r := Stopped(reg, m);
            && !Tracking(r, m)
            && (forall n :: n != m ==> AllTracks(r, n) == AllTracks(reg, n))
            && |AllTracks(r, m)| == |AllTracks(reg, m)|
            && (forall i :: 0 <= i < |AllTracks(reg, m)| ==>
                  AllTracks(r, m)[i] == AllTracks(reg, m)[i].(active := AllTracks(r, m)[i].active))
            && (forall i :: 0 <= i < |AllTracks(reg, m)| - 1 ==> AllTracks(r, m)[i] == AllTracks(reg, m)[i])
            && (!Tracking(reg, m) ==> r == reg)
            && r.tracks.Keys == reg.tracks.Keys && r.vessels == reg.vessels
  {
  }

  /** `setVesselData`: the vessel's metadata overwritten. */
  function WithVessel(reg: Registry, m: MMSI, name: string): Registry
  {
    reg.(vessels := reg.vessels[m := Vessel(m, name)])
  }

  /** Setting metadata overwrites the vessel's and touches nothing else. */
  lemma WithVesselSpec(reg: Registry, m: MMSI, name: string)
    ensures var r := WithVessel(reg, m, name);
            && r.tracks == reg.tracks
            && VesselData(r, m) == Some(Vessel(m, name))
            && (forall n :: n != m ==> VesselData(r, n) == VesselData(reg, n))
  {
  }

  /** The sighting inserted into the vessel's active track. */
  function InsertedIntoActive(reg: Registry, s: Sighting): Registry
  {
    match ActiveIndex(reg, s.mmsi)
    case None => reg
    case Some(k) =>
      var h := reg.tracks[s.mmsi];
      reg.(tracks := reg.tracks[s.mmsi := h[k := h[k].(sightings := Insert(h[k].sightings, s))]])
  }

  /** Only the vessel's active track receives the sighting; no track changes when the vessel is
      not tracked. */
  lemma InsertedIntoActiveSpec(reg: Registry, s: Sighting)
    ensures var r := InsertedIntoActive(reg, s);
            && r.vessels == reg.vessels && r.tracks.Keys == reg.tracks.Keys
            && (!Tracking(reg, s.mmsi) ==> r == reg)
            && (forall n :: n != s.mmsi ==> AllTracks(r, n) == AllTracks(reg, n))
            && Tracking(r, s.mmsi) == Tracking(reg, s.mmsi)
    ensures Tracking(reg, s.mmsi) ==>
              var h := AllTracks(reg, s.mmsi);
              AllTracks(InsertedIntoActive(reg, s), s.mmsi) ==
                h[|h| - 1 := h[|h| - 1].(sightings := Insert(h[|h| - 1].sightings, s))]
  {
  }

  /** `addSighting`: a name from a named record kept only if the vessel has no metadata yet;
      the sighting inserted into the vessel's active track, if any. */
  function Appended(reg: Registry, rep: Report): Registry
  {
    var m := rep.sighting.mmsi;
    var vessels := if rep.name.Some? && m !in reg.vessels
                   then reg.vessels[m := Vessel(m, rep.name.value)] else reg.vessels;
    Registry(InsertedIntoActive(reg, rep.sighting).tracks, vessels)
  }

  /** Recording a sighting never overwrites metadata, and changes the tracks only by inserting
      into the active one. */
  lemma AppendedSpec(reg: Registry, rep: Report)
    ensures var m := rep.sighting.mmsi;
            Appended(reg, rep).vessels ==
              if rep.name.Some? && m !in reg.vessels then reg.vessels[m := Vessel(m, rep.name.value)]
              else reg.vessels
    ensures Appended(reg, rep).tracks == InsertedIntoActive(reg, rep.sighting).tracks
    ensures forall n :: n in reg.vessels ==> VesselData(Appended(reg, rep), n) == VesselData(reg, n)
  {
  }

  /** Insertion depends on the tracks alone. */
  lemma InsertedIntoActiveReadsTracks(a: Registry, b: Registry, s: Sighting)
    requires a.tracks == b.tracks
    ensures InsertedIntoActive(a, s).tracks == InsertedIntoActive(b, s).tracks
  {
    assert ActiveIndex(a, s.mmsi) == ActiveIndex(b, s.mmsi);
  }

  // ---------------------------------------------------------------------------------------
  // Invariants of the registry

  /** Every track is filed under its own vessel and is sorted by time; metadata is filed under
      its own vessel. */
  ghost predicate WellFormed(reg: Registry)
  {
    && (forall m, i :: m in reg.tracks && 0 <= i < |reg.tracks[m]| ==>
          reg.tracks[m][i].mmsi == m && Sorted(reg.tracks[m][i].sightings))
    && (forall m :: m in reg.vessels ==> reg.vessels[m].mmsi == m)
  }

  /** Every track but a vessel's newest is ended, so a vessel has at most one active track. */
  ghost predicate OnlyNewestActive(reg: Registry)
  {
    forall m, i :: m in reg.tracks && 0 <= i < |reg.tracks[m]| - 1 ==> !reg.tracks[m][i].active
  }

  /** Where only the newest track can be active, a vessel has at most one active track. */
  lemma AtMostOneActive(reg: Registry, m: MMSI, i: nat, j: nat)
    requires OnlyNewestActive(reg)
    requires i < j < |AllTracks(reg, m)|
    ensures !(AllTracks(reg, m)[i].active && AllTracks(reg, m)[j].active)
  {
  }

  /** Starting a track keeps every track but the newest ended exactly when the vessel was not
      being tracked, which is how the correlator calls it. */
  lemma {:induction false} StartedKeepsOnlyNewestActive(reg: Registry, m: MMSI)
    requires OnlyNewestActive(reg)
    ensures OnlyNewestActive(Started(reg, m)) <==> !Tracking(reg, m)
  {
    var r := Started(reg, m);
    var h := AllTracks(reg, m);
    if Tracking(reg, m) {
      assert r.tracks[m][|h| - 1].active;
      assert !OnlyNewestActive(r);
    } else {
      forall n, i | n in r.tracks && 0 <= i < |r.tracks[n]| - 1
        ensures !r.tracks[n][i].active
      {
        if n == m {
          assert r.tracks[m] == h + [TrackState(m, [], true)];
          if i < |h| - 1 {
            assert r.tracks[m][i] == reg.tracks[m][i];
          } else {
            assert i == |h| - 1 && r.tracks[m][i] == h[|h| - 1];
          }
        } else {
          assert r.tracks[n] == AllTracks(reg, n);
        }
      }
    }
  }

  lemma {:induction false} StartedWellFormed(reg: Registry, m: MMSI)
    requires WellFormed(reg)
    ensures WellFormed(Started(reg, m))
  {
    var r := Started(reg, m);
    forall n, i | n in r.tracks && 0 <= i < |r.tracks[n]|
      ensures r.tracks[n][i].mmsi == n && Sorted(r.tracks[n][i].sightings)
    {
      assert r.tracks[n] == AllTracks(r, n);
      if n == m && i == |AllTracks(reg, m)| {
      } else {
        assert r.tracks[n][i] == reg.tracks[n][i];
      }
    }
  }

  lemma {:induction false} StoppedKeepsInvariants(reg: Registry, m: MMSI)
    requires WellFormed(reg) && OnlyNewestActive(reg)
    ensures WellFormed(Stopped(reg, m)) && OnlyNewestActive(Stopped(reg, m))
  {
    var r := Stopped(reg, m);
    forall n, i | n in r.tracks && 0 <= i < |r.tracks[n]|
      ensures r.tracks[n][i].mmsi == n && Sorted(r.tracks[n][i].sightings)
      ensures i < |r.tracks[n]| - 1 ==> !r.tracks[n][i].active
    {
      assert r.tracks[n] == AllTracks(r, n) && reg.tracks[n] == AllTracks(reg, n);
      assert r.tracks[n][i].sightings == reg.tracks[n][i].sightings;
    }
  }

  lemma {:induction false} AppendedKeepsInvariants(reg: Registry, rep: Report)
    requires WellFormed(reg) && OnlyNewestActive(reg)
    ensures WellFormed(Appended(reg, rep)) && OnlyNewestActive(Appended(reg, rep))
  {
    var r := Appended(reg, rep);
    var m := rep.sighting.mmsi;
    forall n, i | n in r.tracks && 0 <= i < |r.tracks[n]|
      ensures r.tracks[n][i].mmsi == n && Sorted(r.tracks[n][i].sightings)
      ensures i < |r.tracks[n]| - 1 ==> !r.tracks[n][i].active
    {
      assert r.tracks[n] == AllTracks(r, n) && reg.tracks[n] == AllTracks(reg, n);
      if n == m && Tracking(reg, m) && i == |reg.tracks[m]| - 1 {
        InsertSorted(reg.tracks[m][i].sightings, rep.sighting);
      } else {
        assert r.tracks[n][i] == reg.tracks[n][i];
      }
    }
  }

  // ---------------------------------------------------------------------------------------
  // The registry object

  class VesselTracker {
    var tracks: map<MMSI, seq<VesselTrack>>
    var mmsilist: map<MMSI, Vessel>
    /** The registry as a value. */
    ghost var Model: Registry
    /** The track objects the registry owns. */
    ghost var Repr: set<VesselTrack>

    /** Every track object is owned by the registry, filed once under its own vessel, and its
        state is the one `Model` records at that position. */
    ghost predicate Valid()
      reads this, Repr
    {
      && tracks.Keys == Model.tracks.Keys && mmsilist == Model.vessels
      && (forall m :: m in tracks ==> |tracks[m]| == |Model.tracks[m]|)
      && (forall m, i :: m in tracks && 0 <= i < |tracks[m]| ==>
            tracks[m][i] in Repr && tracks[m][i].mmsi == m && tracks[m][i].State() == Model.tracks[m][i])
      && (forall m, i, j :: m in tracks && 0 <= i < j < |tracks[m]| ==> tracks[m][i] != tracks[m][j])
    }

    constructor()
      ensures Valid() && fresh(Repr)
      ensures Model == Registry(map[], map[])
    {
      tracks := map[];
      mmsilist := map[];
      Model := Registry(map[], map[]);
      Repr := {};
    }

    function ActiveTrackIndex(m: MMSI): (r: Option<nat>)
      reads this, Repr
      requires Valid()
      ensures r == ActiveIndex(Model, m)
      ensures r.Some? ==> m in tracks && r.value == |tracks[m]| - 1
    {
      var last := if m in tracks then |tracks[m]| - 1 else -1;
      if last >= 0 && tracks[m][last].IsActive() then Some(last) else None
    }

    function IsTracking(m: MMSI): (b: bool)
      reads this, Repr
      requires Valid()
      ensures b == Tracking(Model, m)
    {
      GetActiveTrack(m).Some?
    }

    function GetActiveTrack(m: MMSI): (r: Option<VesselTrack>)
      reads this, Repr
      requires Valid()
      ensures r.Some? <==> Tracking(Model, m)
      ensures r.Some? ==> m in tracks && r.value == tracks[m][|tracks[m]| - 1]
      ensures r.Some? ==> r.value in Repr && r.value.mmsi == m && Some(r.value.State()) == ActiveOf(Model, m)
    {
      match ActiveTrackIndex(m)
      case Some(k) => Some(tracks[m][k])
      case None => None
    }

    function GetAllTracks(m: MMSI): (r: seq<VesselTrack>)
      reads this, Repr
      requires Valid()
      ensures |r| == |AllTracks(Model, m)|
      ensures forall i :: 0 <= i < |r| ==> r[i].State() == AllTracks(Model, m)[i]
    {
      if m in tracks then tracks[m] else []
    }

    function GetVesselData(m: MMSI): (r: Option<Vessel>)
      reads this, Repr
      requires Valid()
      ensures r == VesselData(Model, m)
    {
      if m in mmsilist then Some(mmsilist[m]) else None
    }

    method StartTracking(m: MMSI)
      requires Valid()
      modifies this
      ensures Valid() && fresh(Repr - old(Repr)) && old(Repr) <= Repr
      ensures Model == Started(old(Model), m)
      ensures m in tracks && |tracks[m]| > 0 && fresh(tracks[m][|tracks[m]| - 1])
    {
      var t := new VesselTrack(m);
      var h := if m in tracks then tracks[m] else [];
      tracks := tracks[m := h + [t]];
      Model := Started(Model, m);
      Repr := Repr + {t};
      forall n, i | n in tracks && 0 <= i < |tracks[n]|
        ensures tracks[n][i] in Repr && tracks[n][i].mmsi == n
        ensures tracks[n][i].State() == Model.tracks[n][i]
      {
        if n != m || i < |h| {
          assert tracks[n][i] == old(tracks)[n][i];
        }
      }
    }

    /** `stopTracking`: ends the vessel's active track, if any. */
    method StopTracking(m: MMSI)
      requires Valid()
      modifies this, Repr
      ensures Valid() && tracks == old(tracks) && Repr == old(Repr)
      ensures Model == Stopped(old(Model), m)
    {
      var idx := ActiveTrackIndex(m);
      if idx.Some? {
        var k := idx.value;
        var t := tracks[m][k];
        t.End();
        Model := Stopped(Model, m);
        forall n, i | n in tracks && 0 <= i < |tracks[n]|
          ensures tracks[n][i].State() == Model.tracks[n][i]
        {
          if n != m || i != k {
            assert tracks[n][i] != t;
          }
        }
      }
    }

    /** `setVesselData`: records (overwriting) the vessel's name. */
    method SetVesselData(m: MMSI, name: string)
      requires Valid()
      modifies this
      ensures Valid() && tracks == old(tracks) && Repr == old(Repr)
      ensures Model == WithVessel(old(Model), m, name)
    {
      mmsilist := mmsilist[m := Vessel(m, name)];
      Model := WithVessel(Model, m, name);
    }

    /** `addSighting`: keeps the record's name if the vessel has no metadata yet, and inserts
        the sighting into the vessel's active track, if any. */
    method AddSighting(rep: Report)
      requires Valid()
      modifies this, Repr
      ensures Valid() && tracks == old(tracks) && Repr == old(Repr)
      ensures Model == Appended(old(Model), rep)
    {
      var m := rep.sighting.mmsi;
      if rep.name.Some? && m !in mmsilist {
        SetVesselData(m, rep.name.value);
      }
      ghost var named := Model;
      InsertIntoActive(rep.sighting);
      InsertedIntoActiveReadsTracks(named, old(Model), rep.sighting);
    }

    /** The track half of `addSighting`. */
    method InsertIntoActive(s: Sighting)
      requires Valid()
      modifies this, Repr
      ensures Valid() && tracks == old(tracks) && Repr == old(Repr)
      ensures Model == InsertedIntoActive(old(Model), s)
    {
      var idx := ActiveTrackIndex(s.mmsi);
      if idx.Some? {
        var k := idx.value;
        var t := tracks[s.mmsi][k];
        t.AddSighting(s);
        Model := InsertedIntoActive(Model, s);
        forall n, i | n in tracks && 0 <= i < |tracks[n]|
          ensures tracks[n][i].State() == Model.tracks[n][i]
        {
          if n != s.mmsi || i != k {
            assert tracks[n][i] != t;
          }
        }
      }
    }
  }
}
