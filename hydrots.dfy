/**
 * The browser hydro lookup `getZScoresForClosestStation`: for each day from a start date,
 * the z-score the closest station's table gives for that day's month, skipping the days
 * whose month has no record. A JavaScript `Date` is an object the loop advances in place;
 * it is reduced here to the day it falls on, and the local-time calendar that names a
 * day's month is a parameter (`monthOf`, 1 to 12, as `getMonth() + 1`).
 */
module HydroTs {
  import opened Stations
  import opened Results

  /** A record of the monthly table: a station's mean flow for a month and its z-score. */
  datatype MonthRecord = MonthRecord(station: string, month: int, value: real, mean: real, std: real, zScore: real)

  /** An entry of the result: the day it is for and the z-score of that day's month. */
  datatype ZScoreResult = ZScoreResult(date: int, zScore: real)

  /** A JavaScript `Date`, a mutable object, reduced to the day it falls on. */
  class JsDate {
    var day: int

    /** `new Date(d)`: a fresh object on the same day. */
    constructor (day: int)
      ensures this.day == day
    {
      this.day := day;
    }

    /** `date.setDate(date.getDate() + 1)`: the next day, across month and year ends. */
    method AdvanceDay()
      modifies this
      ensures day == old(day) + 1
    {
      day := day + 1;
    }
  }

  /** The station number of a monthly record. */
  function MonthStation(record: MonthRecord): string
  {
    record.station
  }

  /** Record `k` is the first record for the month. */
  predicate FirstOfMonth(records: seq<MonthRecord>, k: int, month: int)
  {
    0 <= k < |records| && records[k].month == month && forall j :: 0 <= j < k ==> records[j].month != month
  }

  /**
   * `records.find(data => data.Month === month)`, as the z-score of the record found: a
   * record is found exactly when one has the month.
   */
  function ZScoreOf(records: seq<MonthRecord>, month: int): (r: Option<real>)
    ensures r.None? <==> forall k :: 0 <= k < |records| ==> records[k].month != month
    ensures r.Some? ==> exists k :: 0 <= k < |records| && records[k].month == month && records[k].zScore == r.value
  {
    if |records| == 0 then None
    else if records[0].month == month then Some(records[0].zScore)
    else
      var r := ZScoreOf(records[1..], month);
      assert forall k :: 1 <= k < |records| ==> records[k] == records[1..][k - 1];
      r
  }

  /** The z-score found is the one of the first record for the month. */
  lemma {:induction false} ZScoreOfIsFirst(records: seq<MonthRecord>, month: int)
    ensures ZScoreOf(records, month).Some? ==>
      exists k :: FirstOfMonth(records, k, month) && records[k].zScore == ZScoreOf(records, month).value
  {
    if |records| > 0 {
      if records[0].month == month {
        assert FirstOfMonth(records, 0, month);
      } else {
        var rest := records[1..];
        ZScoreOfIsFirst(rest, month);
        if ZScoreOf(rest, month).Some? {
          var k :| FirstOfMonth(rest, k, month) && rest[k].zScore == ZScoreOf(rest, month).value;
          assert FirstOfMonth(records, k + 1, month);
        }
      }
    }
  }

  /**
   * The entries of the first `n` days from `start`: one per day whose month has a record,
   * so at most `n`.
   */
  function DailyZScores(records: seq<MonthRecord>, start: int, n: nat, monthOf: int -> int): (r: seq<ZScoreResult>)
    ensures |r| <= n
  {
    if n == 0 then []
    else
      var earlier := DailyZScores(records, start, n - 1, monthOf);
      var z := ZScoreOf(records, monthOf(start + n - 1));
      if z.Some? then earlier + [ZScoreResult(start + n - 1, z.value)] else earlier
  }

  /** The entries are dated inside the span, in day order, each holding the z-score of its day's month. */
  lemma {:induction false} DailyZScoresSound(records: seq<MonthRecord>, start: int, n: nat, monthOf: int -> int)
    ensures forall k :: 0 <= k < |DailyZScores(records, start, n, monthOf)| ==>
      start <= DailyZScores(records, start, n, monthOf)[k].date < start + n
    ensures forall k :: 0 <= k < |DailyZScores(records, start, n, monthOf)| ==>
      ZScoreOf(records, monthOf(DailyZScores(records, start, n, monthOf)[k].date)) == Some(DailyZScores(records, start, n, monthOf)[k].zScore)
    ensures forall k, l :: 0 <= k < l < |DailyZScores(records, start, n, monthOf)| ==>
      DailyZScores(records, start, n, monthOf)[k].date < DailyZScores(records, start, n, monthOf)[l].date
  {
    if n > 0 {
      DailyZScoresSound(records, start, n - 1, monthOf);
      var earlier := DailyZScores(records, start, n - 1, monthOf);
      var r := DailyZScores(records, start, n, monthOf);
      var z := ZScoreOf(records, monthOf(start + n - 1));
      if z.Some? {
        assert r == earlier + [ZScoreResult(start + n - 1, z.value)];
        forall k | 0 <= k < |r|
          ensures start <= r[k].date < start + n && ZScoreOf(records, monthOf(r[k].date)) == Some(r[k].zScore)
        {
          if k < |earlier| {
            assert r[k] == earlier[k];
          }
        }
        forall k, l | 0 <= k < l < |r|
          ensures r[k].date < r[l].date
        {
          assert r[k] == earlier[k];
          if l < |earlier| {
            assert r[l] == earlier[l];
          }
        }
      } else {
        assert r == earlier;
      }
    }
  }

  /** Every day of the span whose month has a record has its entry: no such day is skipped. */
  lemma {:induction false} DailyZScoresComplete(records: seq<MonthRecord>, start: int, n: nat, monthOf: int -> int)
    ensures forall d :: start <= d < start + n && ZScoreOf(records, monthOf(d)).Some? ==>
      EntryFor(DailyZScores(records, start, n, monthOf), d)
  {
    if n > 0 {
      DailyZScoresComplete(records, start, n - 1, monthOf);
      var earlier := DailyZScores(records, start, n - 1, monthOf);
      var r := DailyZScores(records, start, n, monthOf);
      var day := start + n - 1;
      assert ZScoreOf(records, monthOf(day)).Some? ==> r == earlier + [ZScoreResult(day, ZScoreOf(records, monthOf(day)).value)];
      assert ZScoreOf(records, monthOf(day)).None? ==> r == earlier;
      forall d | start <= d < start + n && ZScoreOf(records, monthOf(d)).Some?
        ensures EntryFor(r, d)
      {
        if d == day {
          assert r[|earlier|].date == d;
        } else {
          assert EntryFor(earlier, d);
          var k :| 0 <= k < |earlier| && earlier[k].date == d;
          assert r[k] == earlier[k];
        }
      }
    }
  }

  /** Some entry of `r` is for day `d`. */
  predicate EntryFor(r: seq<ZScoreResult>, d: int)
  {
    exists k :: 0 <= k < |r| && r[k].date == d
  }

  /** The monthly records of the station closest to `(latitude, longitude)`. */
  function ClosestMonths(riverFlow: seq<MonthRecord>, distance: (real, real, real, real) -> real,
                         latitude: real, longitude: real): seq<MonthRecord>
  {
    OfStation(riverFlow, MonthStation, RIVER_STATIONS[Closest(Distances(RIVER_STATIONS, distance, latitude, longitude))].number)
  }

  /**
   * `getZScoresForClosestStation(longitude, latitude, startDate, numberOfDays)`: find the
   * closest station, keep its monthly records, and read them day by day from the start date.
   */
  method GetZScoresForClosestStation(longitude: real, latitude: real, startDate: JsDate, numberOfDays: int,
                                     riverFlow: seq<MonthRecord>, distance: (real, real, real, real) -> real,
                                     monthOf: int -> int)
    returns (results: seq<ZScoreResult>)
    ensures results == DailyZScores(ClosestMonths(riverFlow, distance, latitude, longitude), startDate.day,
                                    if numberOfDays < 0 then 0 else numberOfDays, monthOf)
    ensures startDate.day == old(startDate.day)
  {
    var closest := ClosestStation(RIVER_STATIONS, distance, latitude, longitude);
    var stationFlowData := OfStation(riverFlow, MonthStation, RIVER_STATIONS[closest].number);
    results := ReadDays(stationFlowData, startDate, numberOfDays, monthOf);
  }

  /**
   * The day loop of `getZScoresForClosestStation`: walk a copy of the start date forward one
   * day at a time and push the day with its month's z-score when the station has a record
   * for that month. The start date itself is not changed.
   */
  method ReadDays(stationFlowData: seq<MonthRecord>, startDate: JsDate, numberOfDays: int, monthOf: int -> int)
    returns (results: seq<ZScoreResult>)
    ensures results == DailyZScores(stationFlowData, startDate.day, if numberOfDays < 0 then 0 else numberOfDays, monthOf)
    ensures startDate.day == old(startDate.day)
  {
    results := [];
    ghost var start := startDate.day;
    var currentDate := new JsDate(startDate.day);
    var i := 0;
    while i < numberOfDays
      invariant 0 <= i && (i <= numberOfDays || i == 0)
      invariant fresh(currentDate) && currentDate.day == start + i && startDate.day == start
      invariant results == DailyZScores(stationFlowData, start, i, monthOf)
    {
      var month := monthOf(currentDate.day);
      var flowDataForMonth := ZScoreOf(stationFlowData, month);
      if flowDataForMonth.Some? {
        results := results + [ZScoreResult(currentDate.day, flowDataForMonth.value)];
      }
      currentDate.AdvanceDay();
      i := i + 1;
    }
  }
}
