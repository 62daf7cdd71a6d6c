/** Shared vocabulary of the lock-transit detector: vessel identifiers, timestamps,
    coordinates, sightings and the records the data source yields. */
module Common {

  datatype Option<+T> = None | Some(value: T)

  /** A vessel's Maritime Mobile Service Identity. */
  type MMSI = int

  /** A timestamp in milliseconds, as `Date.getTime()` gives it. */
  type Time = int

  /** A position; the detector never computes with it, it only hands it to a zone's region test. */
  datatype Coord = Coord(lat: real, lon: real)

  /** One position report of one vessel. */
  datatype Sighting = Sighting(mmsi: MMSI, when: Time, where: Coord)

  /** A record from the data source: a sighting, and a vessel name when the record is a full
      AIS record (the `'name' in x` test of `instanceOfAIS`). */
  datatype Report = Report(sighting: Sighting, name: Option<string>)

  /** Sightings in non-decreasing time order. */
  predicate Sorted(t: seq<Sighting>)
  {
    forall i, j :: 0 <= i < j < |t| ==> t[i].when <= t[j].when
  }

  /** No element occurs twice. */
  predicate Distinct<T(==)>(s: seq<T>)
  {
    forall i, j :: 0 <= i < j < |s| ==> s[i] != s[j]
  }

  /** The elements of a sequence as a set. */
  function Elements<T(!new)>(s: seq<T>): (r: set<T>)
    ensures forall x :: x in r <==> x in s
  {
    set x | x in s
  }

  /** A sequence without repetitions has as many distinct elements as it is long. */
  lemma {:induction false} DistinctCardinality<T(!new)>(s: seq<T>)
    requires Distinct(s)
    ensures |Elements(s)| == |s|
  {
    if |s| > 0 {
      var init := s[..|s| - 1];
      assert Distinct(init);
      DistinctCardinality(init);
      assert Elements(s) == Elements(init) + {s[|s| - 1]};
      assert s[|s| - 1] !in Elements(init);
    }
  }
}
