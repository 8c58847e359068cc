/** Occupancy-to-availability conversion: every percentage v becomes 100 - v. */
module Availability {
  import opened ParkingTypes

  /** The complement of a series, point by point, keeping its time index. */
  function Complement(s: seq<Point>): (r: seq<Point>)
    ensures |r| == |s|
    ensures forall i :: 0 <= i < |s| ==> r[i].time == s[i].time && r[i].value == Full - s[i].value
  {
    if s == [] then [] else [Point(s[0].time, Full - s[0].value)] + Complement(s[1..])
  }

  /** Complementing twice gives the series back. */
  lemma {:induction false} ComplementInvolution(s: seq<Point>)
    ensures Complement(Complement(s)) == s
  {
    if s != [] {
      ComplementInvolution(s[1..]);
      assert Complement(s)[1..] == Complement(s[1..]);
    }
  }

  /** The availability bundle of one lot: each of its three series
      complemented, point by point. */
  function BundleAvailability(b: Bundle): (a: Bundle)
    ensures |a.train| == |b.train| && |a.test| == |b.test| && |a.forecast| == |b.forecast|
    ensures forall i :: 0 <= i < |b.train| ==> a.train[i] == Point(b.train[i].time, Full - b.train[i].value)
    ensures forall i :: 0 <= i < |b.test| ==> a.test[i] == Point(b.test[i].time, Full - b.test[i].value)
    ensures forall i :: 0 <= i < |b.forecast| ==>
              a.forecast[i] == Point(b.forecast[i].time, Full - b.forecast[i].value)
  {
    Bundle(Complement(b.train), Complement(b.test), Complement(b.forecast))
  }

  /** The availability dictionary built from an occupancy dictionary. */
  function AvailabilityMap(m: map<LotId, Bundle>): (r: map<LotId, Bundle>)
    ensures r.Keys == m.Keys
  {
    map k | k in m :: BundleAvailability(m[k])
  }

  /** Converting twice returns the occupancy dictionary unchanged (the
      presentation layer relies on this when it plots occupancy again). */
  lemma AvailabilityInvolution(m: map<LotId, Bundle>)
    ensures AvailabilityMap(AvailabilityMap(m)) == m
  {
    forall k | k in m
      ensures AvailabilityMap(AvailabilityMap(m))[k] == m[k]
    {
      ComplementInvolution(m[k].train);
      ComplementInvolution(m[k].test);
      ComplementInvolution(m[k].forecast);
    }
  }

  /** `occupancy_to_availability`: fills a fresh dictionary one lot at a time,
      in the order `keys` lists the occupancy dictionary's keys. */
  method OccupancyToAvailability(occupancy: map<LotId, Bundle>, keys: seq<LotId>)
    returns (availability: map<LotId, Bundle>)
    requires ListsKeys(keys, occupancy)
    ensures availability.Keys == occupancy.Keys
    ensures forall k :: k in availability ==>
              |availability[k].train| == |occupancy[k].train|
              && |availability[k].test| == |occupancy[k].test|
              && |availability[k].forecast| == |occupancy[k].forecast|
    ensures forall k, i :: k in availability && 0 <= i < |availability[k].train| ==>
              availability[k].train[i] == Point(occupancy[k].train[i].time, Full - occupancy[k].train[i].value)
    ensures forall k, i :: k in availability && 0 <= i < |availability[k].test| ==>
              availability[k].test[i] == Point(occupancy[k].test[i].time, Full - occupancy[k].test[i].value)
    ensures forall k, i :: k in availability && 0 <= i < |availability[k].forecast| ==>
              availability[k].forecast[i] == Point(occupancy[k].forecast[i].time, Full - occupancy[k].forecast[i].value)
    ensures availability == AvailabilityMap(occupancy)
  {
    availability := map[];
    for n := 0 to |keys|
      invariant forall k :: k in availability <==> k in keys[..n]
      invariant forall k :: k in availability ==> availability[k] == BundleAvailability(occupancy[k])
    {
      var k := keys[n];
      availability := availability[k := BundleAvailability(occupancy[k])];
    }
    assert keys[..|keys|] == keys;
    assert forall k :: k in availability.Keys <==> k in occupancy.Keys;
    assert forall k :: k in availability ==> availability[k] == AvailabilityMap(occupancy)[k];
  }
}
