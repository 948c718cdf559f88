/**
 * The river gauging stations and the closest-station search that both hydro lookups (the
 * Python one and the browser one) run before reading a station's flow records. The
 * haversine distance is a parameter of the search.
 */
module Stations {

  /** A gauging station: its number, its name and its coordinates in degrees. */
  datatype Station = Station(number: string, name: string, latitude: real, longitude: real)

  /** The station table, in the order both copies scan it. */
  const RIVER_STATIONS: seq<Station> := [
    Station("2260100", "HKAMTI", 26.0, 95.7),
    Station("2260110", "MAWLAIK", 23.63, 94.42),
    Station("2260120", "MONYWA", 22.1, 95.13),
    Station("2260400", "KATHA", 24.17, 96.33),
    Station("2260500", "SAGAING", 21.98, 96.1),
    Station("2260600", "MAGWAY", 20.13, 94.92),
    Station("2260700", "PYAY", 18.8, 95.22)
  ]

  /** The distance from the point `(latitude, longitude)` to every station, in table order. */
  function Distances(stations: seq<Station>, distance: (real, real, real, real) -> real,
                     latitude: real, longitude: real): (ds: seq<real>)
    ensures |ds| == |stations|
    ensures forall j :: 0 <= j < |stations| ==>
      ds[j] == distance(latitude, longitude, stations[j].latitude, stations[j].longitude)
  {
    seq(|stations|, j requires 0 <= j < |stations| =>
      distance(latitude, longitude, stations[j].latitude, stations[j].longitude))
  }

  /**
   * The index a left-to-right scan of the distances keeps: the next one replaces the kept
   * one only when it is strictly smaller.
   */
  function Closest(ds: seq<real>): (k: nat)
    requires |ds| > 0
    ensures k < |ds|
  {
    if |ds| == 1 then 0
    else
      var best := Closest(ds[..|ds| - 1]);
      if ds[|ds| - 1] < ds[best] then |ds| - 1 else best
  }

  /** The kept index is the first at the smallest distance: a tie keeps the earlier station. */
  lemma {:induction false} ClosestIsFirstMinimum(ds: seq<real>)
    requires |ds| > 0
    ensures forall j :: 0 <= j < |ds| ==> ds[Closest(ds)] <= ds[j]
    ensures forall j :: 0 <= j < Closest(ds) ==> ds[j] > ds[Closest(ds)]
  {
    if |ds| > 1 {
      var front := ds[..|ds| - 1];
      ClosestIsFirstMinimum(front);
      assert forall j :: 0 <= j < |front| ==> front[j] == ds[j];
    }
  }

  /**
   * The records of one station, in table order: the filter both lookups apply to their flow
   * table before reading it, with `stationOf` reading a record's station number.
   */
  function OfStation<R(==,!new)>(records: seq<R>, stationOf: R -> string, number: string): (r: seq<R>)
    ensures |r| <= |records|
    ensures forall x :: x in r <==> x in records && stationOf(x) == number
  {
    if |records| == 0 then []
    else (if stationOf(records[0]) == number then [records[0]] else []) + OfStation(records[1..], stationOf, number)
  }

  /**
   * The station search of `get_hydro` and `getZScoresForClosestStation`: start with the
   * first station and its distance, then keep a later station only when strictly closer.
   */
  method ClosestStation(stations: seq<Station>, distance: (real, real, real, real) -> real,
                        latitude: real, longitude: real) returns (closest: nat)
    requires |stations| > 0
    ensures closest == Closest(Distances(stations, distance, latitude, longitude))
    ensures closest < |stations|
  {
    ghost var ds := Distances(stations, distance, latitude, longitude);
    closest := 0;
    var minDistance := distance(latitude, longitude, stations[0].latitude, stations[0].longitude);
    var i := 1;
    while i < |stations|
      invariant 1 <= i <= |stations|
      invariant closest == Closest(ds[..i]) && minDistance == ds[closest]
    {
      var station := stations[i];
      var d := distance(latitude, longitude, station.latitude, station.longitude);
      assert ds[..i + 1][..i] == ds[..i];
      if d < minDistance {
        closest := i;
        minDistance := d;
      }
      i := i + 1;
    }
    assert ds[..i] == ds;
  }
}
