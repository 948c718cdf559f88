/**
 * The Python hydro lookup `get_hydro`: the closest station's normalised river flow for
 * each day, read from the record dated one year earlier, then repeated for each hour.
 * Dates are day numbers: `strptime`/`strftime` with `%Y-%m-%d` is a one-to-one naming of
 * days, so comparing the formatted strings is comparing day numbers.
 */
module HydroPy {
  import opened Stations
  import opened Results

  /** A record of the flow table: a station number, a date and the day's normalised flow. */
  datatype FlowRecord = FlowRecord(station: string, date: int, norm: real)

  /** `comparable_date`: the date 52 weeks earlier, the same weekday less than a year back. */
  function ComparableDate(day: int): (d: int)
    ensures d < day && (day - d) % 7 == 0 && day - d < 365
  {
    day - 364
  }

  /** The station number of a flow record. */
  function FlowStation(record: FlowRecord): string
  {
    record.station
  }

  /** Record `k` is the first record with the date. */
  predicate FirstDated(records: seq<FlowRecord>, k: int, date: int)
  {
    0 <= k < |records| && records[k].date == date && forall j :: 0 <= j < k ==> records[j].date != date
  }

  /**
   * `next((data for data in records if data["date"] == date), None)`, as the norm of the
   * record found: a record is found exactly when one has the date, and it is the first.
   */
  function NormOn(records: seq<FlowRecord>, date: int): (r: Option<real>)
    ensures r.None? <==> forall k :: 0 <= k < |records| ==> records[k].date != date
    ensures r.Some? ==> exists k :: FirstDated(records, k, date) && records[k].norm == r.value
  {
    if |records| == 0 then None
    else if records[0].date == date then
      assert FirstDated(records, 0, date);
      Some(records[0].norm)
    else
      var rest := NormOn(records[1..], date);
      assert forall k :: 1 <= k < |records| ==> records[k] == records[1..][k - 1];
      assert rest.Some? ==> exists k :: FirstDated(records, k, date) && records[k].norm == rest.value by {
        if rest.Some? {
          var k :| FirstDated(records[1..], k, date) && records[1..][k].norm == rest.value;
          assert FirstDated(records, k + 1, date);
        }
      }
      rest
  }

  /** `[rr for r in results for rr in [r] * 24]`: each daily value repeated for the 24 hours of its day. */
  function Hourly(daily: seq<real>): (hourly: seq<real>)
    ensures |hourly| == 24 * |daily|
    ensures forall h :: 0 <= h < |hourly| ==> hourly[h] == daily[h / 24]
  {
    if |daily| == 0 then []
    else
      var rest := Hourly(daily[1..]);
      assert forall h :: 24 <= h < 24 * |daily| ==> (h - 24) / 24 + 1 == h / 24;
      seq(24, _ => daily[0]) + rest
  }

  /** The norm `get_hydro` reads for day `d` counted from `startDay`. */
  function NormOfDay(records: seq<FlowRecord>, startDay: int, d: int): Option<real>
  {
    NormOn(records, ComparableDate(startDay + d))
  }

  /** The flow records of the station closest to `(latitude, longitude)`. */
  function ClosestFlow(riverFlow: seq<FlowRecord>, distance: (real, real, real, real) -> real,
                       latitude: real, longitude: real): seq<FlowRecord>
  {
    OfStation(riverFlow, FlowStation, RIVER_STATIONS[Closest(Distances(RIVER_STATIONS, distance, latitude, longitude))].number)
  }

  /**
   * `get_hydro(longitude, latitude, start_date, number_of_days)`: for each of the days from
   * `startDay`, the norm of the closest station's record dated 364 days earlier; subscripting
   * the `None` of a missing record raises `TypeError`. The daily norms are returned repeated
   * for every hour.
   */
  method GetHydro(longitude: real, latitude: real, startDay: int, numberOfDays: int,
                  riverFlow: seq<FlowRecord>, distance: (real, real, real, real) -> real)
    returns (r: Result<seq<real>>)
    ensures r.Err? ==> r.failure == TypeError
    ensures r.Err? <==>
      (exists d :: 0 <= d < numberOfDays && NormOfDay(ClosestFlow(riverFlow, distance, latitude, longitude), startDay, d).None?)
    ensures r.Ok? ==> |r.value| == 24 * (if numberOfDays < 0 then 0 else numberOfDays)
    ensures r.Ok? ==> forall h :: 0 <= h < |r.value| ==>
      NormOfDay(ClosestFlow(riverFlow, distance, latitude, longitude), startDay, h / 24) == Some(r.value[h])
  {
    var closest := ClosestStation(RIVER_STATIONS, distance, latitude, longitude);
    var stationFlowData := OfStation(riverFlow, FlowStation, RIVER_STATIONS[closest].number);
    assert stationFlowData == ClosestFlow(riverFlow, distance, latitude, longitude);
    var results: seq<real> := [];
    var currentDate := startDay;
    var i := 0;
    while i < numberOfDays
      invariant 0 <= i && (i <= numberOfDays || i == 0)
      invariant currentDate == startDay + i && |results| == i
      invariant forall d :: 0 <= d < i ==> NormOfDay(stationFlowData, startDay, d) == Some(results[d])
    {
      var comparable := ComparableDate(currentDate);
      var flowData := NormOn(stationFlowData, comparable);
      if flowData.None? {
        assert NormOfDay(stationFlowData, startDay, i).None?;
        return Err(TypeError);
      }
      results := results + [flowData.value];
      currentDate := currentDate + 1;
      i := i + 1;
    }
    return Ok(Hourly(results));
  }
}
