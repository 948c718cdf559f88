/**
 * The deterministic bookkeeping of the stochastic appliance-load generator: day types,
 * window overlap tests, the free-spot list that switch-on events carve up, the clamping of
 * randomised windows and times of use, the coincidence count, window validation and the
 * paths of `generate_load_profile` that need no switch-on search. Every random draw is a
 * parameter. Times are minutes of the day, `0 <= m < 1440`.
 */
module Ramp {
  import opened Numeric
  import opened Results

  const MINUTES_PER_DAY: int := 1440

  /** `date.weekday()` of a proleptic-Gregorian day ordinal (ordinal 1 is Monday 1 January of year 1). */
  function Weekday(day: int): (w: int)
    ensures 0 <= w < 7
  {
    (day + 6) % 7
  }

  /** `get_day_type`: 1 on Saturdays and Sundays (`weekday() > 4`), 0 on the other days. */
  function GetDayType(day: int): (t: int)
    ensures t == 0 || t == 1
  {
    if Weekday(day) > 4 then 1 else 0
  }

  /**
   * Weekends are the ordinals that are 6 or 0 modulo 7, so the day type repeats every week
   * and every week holds five weekdays followed by a Saturday and a Sunday.
   */
  lemma DayTypeWeekly(day: int)
    ensures GetDayType(day) == 1 <==> day % 7 == 6 || day % 7 == 0
    ensures GetDayType(day + 7) == GetDayType(day)
  {
  }

  /**
   * `within_peak_time_window`: true unless both ends of the switch-on window lie strictly
   * before the peak start, or both strictly after the peak stop. It is the window test of
   * `range_within_window` with the peak as the window, so for ordered ranges it holds
   * exactly when the switch-on window and the peak share a minute.
   */
  function WithinPeakTimeWindow(winStart: int, winStop: int, peakStart: int, peakStop: int): (r: bool)
    ensures r == RangeWithinWindow(winStart, winStop, Window(peakStart, peakStop))
    ensures winStart <= winStop && peakStart <= peakStop ==> (r <==> Overlap(winStart, winStop, peakStart, peakStop) >= 0)
  {
    var answer := true;
    var answer := if winStart < peakStart && winStop < peakStart then false else answer;
    if winStart > peakStop && winStop > peakStop then false else answer
  }

  /** A functioning window `[start, stop]`, or a free spot `slice(start, stop)`. */
  datatype Window = Window(start: int, stop: int)

  /**
   * `range_within_window`: false exactly when the range lies wholly before or wholly after
   * the closed window; for an ordered range and window, true exactly when they share a minute.
   */
  function RangeWithinWindow(rangeLow: int, rangeHigh: int, window: Window): (r: bool)
    ensures rangeLow <= rangeHigh && window.start <= window.stop ==>
      (r <==> Overlap(rangeLow, rangeHigh, window.start, window.stop) >= 0)
  {
    !((rangeLow < window.start && rangeHigh < window.start) || (rangeLow > window.stop && rangeHigh > window.stop))
  }

  /** The number of minutes, less one, shared by two closed ranges (negative when they are apart). */
  function Overlap(lo1: int, hi1: int, lo2: int, hi2: int): (n: int)
    ensures n >= 0 ==> var m := if lo1 >= lo2 then lo1 else lo2; lo1 <= m <= hi1 && lo2 <= m <= hi2
  {
    (if hi1 <= hi2 then hi1 else hi2) - (if lo1 >= lo2 then lo1 else lo2)
  }

  /** Python's `round` of a float: to the nearest integer, ties to the even one. */
  function RoundHalfEven(x: real): (r: int)
    ensures -0.5 <= r as real - x <= 0.5
    ensures (r as real - x == 0.5 || x - r as real == 0.5) ==> r % 2 == 0
  {
    var f := x.Floor;
    var d := x - f as real;
    if d < 0.5 then f else if d > 0.5 then f + 1 else if f % 2 == 0 then f else f + 1
  }

  // ----- Free spots -----

  /** Minute `m` lies in the slice `w`. */
  predicate In(m: int, w: Window)
  {
    w.start <= m < w.stop
  }

  /** Minute `m` lies in `[start, stop]`, the slice together with its `stop`. */
  predicate InClosed(m: int, w: Window)
  {
    w.start <= m <= w.stop
  }

  /** Minute `m` is free: some spot of the list holds it. */
  ghost predicate Free(spots: seq<Window>, m: int)
  {
    exists k :: 0 <= k < |spots| && In(m, spots[k])
  }

  /** No minute lies in two spots. */
  ghost predicate Disjoint(spots: seq<Window>)
  {
    forall i, j, m :: 0 <= i < j < |spots| && In(m, spots[i]) ==> !In(m, spots[j])
  }

  /**
   * The spot test of `update_available_time_for_switch_on_events`. The corrected test holds
   * exactly when every minute of a non-empty event lies in the slice; the test as written
   * holds when they lie in the slice or on its `stop`, so it also accepts an event ending on
   * `stop`, a minute the slice does not hold.
   */
  function Holds(w: Window, first: int, last: int, asWritten: bool): (r: bool)
    ensures first <= last && !asWritten ==> (r <==> forall m :: first <= m <= last ==> In(m, w))
    ensures first <= last && asWritten ==> (r <==> forall m :: first <= m <= last ==> InClosed(m, w))
    ensures asWritten && w.start <= first <= last == w.stop ==> r && !In(last, w)
  {
    assert In(first, w) <==> w.start <= first < w.stop;
    assert In(last, w) <==> w.start <= last < w.stop;
    assert InClosed(first, w) <==> w.start <= first <= w.stop;
    assert InClosed(last, w) <==> w.start <= last <= w.stop;
    if asWritten then first >= w.start && last <= w.stop else first >= w.start && last < w.stop
  }

  /** The index of the first spot that holds the event, or `|spots|` when none does. */
  function FirstHolding(spots: seq<Window>, first: int, last: int, asWritten: bool): (k: nat)
    ensures k <= |spots|
    ensures k < |spots| ==> Holds(spots[k], first, last, asWritten)
    ensures forall j :: 0 <= j < k ==> !Holds(spots[j], first, last, asWritten)
  {
    if |spots| == 0 then 0
    else if Holds(spots[0], first, last, asWritten) then 0
    else 1 + FirstHolding(spots[1..], first, last, asWritten)
  }

  /**
   * What is put back for the popped spot: nothing, the part after, the part before, or
   * both. The spot's last minute is `stop` as written, `stop - 1` once corrected. For an
   * event the spot holds, the pieces are at most two, ordered, and inside the spot.
   */
  function Pieces(w: Window, first: int, last: int, asWritten: bool): (r: seq<Window>)
    ensures Holds(w, first, last, asWritten) && first <= last ==>
      && |r| <= 2
      && (forall p :: p in r ==> w.start <= p.start && p.stop <= w.stop)
      && (|r| == 2 ==> r[0].stop < r[1].start)
  {
    var end := if asWritten then w.stop else w.stop - 1;
    if first == w.start && last == end then []
    else if first == w.start then [Window(last + 1, w.stop)]
    else if last == end then [Window(w.start, first)]
    else [Window(w.start, first), Window(last + 1, w.stop)]
  }

  /** The pieces put back hold exactly the popped spot's minutes outside `[first, last]`. */
  lemma PiecesCover(w: Window, first: int, last: int, asWritten: bool)
    requires Holds(w, first, last, asWritten) && first <= last
    ensures forall m :: Free(Pieces(w, first, last, asWritten), m) <==> In(m, w) && !(first <= m <= last)
  {
    var p := Pieces(w, first, last, asWritten);
    forall m
      ensures Free(p, m) <==> In(m, w) && !(first <= m <= last)
    {
      if In(m, w) && !(first <= m <= last) {
        if m < first {
          assert In(m, p[0]);
        } else {
          assert In(m, p[|p| - 1]);
        }
      }
    }
  }

  /** The free-spot list after the event `[first, last]`: the first spot holding it replaced, in place, by its pieces. */
  function Carve(spots: seq<Window>, first: int, last: int, asWritten: bool): (r: seq<Window>)
    ensures (forall k :: 0 <= k < |spots| ==> !Holds(spots[k], first, last, asWritten)) ==> r == spots
  {
    var k := FirstHolding(spots, first, last, asWritten);
    if k == |spots| then spots else spots[..k] + Pieces(spots[k], first, last, asWritten) + spots[k + 1..]
  }

  lemma FreeConcat(a: seq<Window>, b: seq<Window>, m: int)
    ensures Free(a + b, m) <==> Free(a, m) || Free(b, m)
  {
    if Free(a, m) {
      var k :| 0 <= k < |a| && In(m, a[k]);
      assert (a + b)[k] == a[k];
    }
    if Free(a + b, m) {
      var k :| 0 <= k < |a + b| && In(m, (a + b)[k]);
      if k >= |a| {
        assert In(m, b[k - |a|]);
      }
    }
    if Free(b, m) {
      var k :| 0 <= k < |b| && In(m, b[k]);
      assert (a + b)[|a| + k] == b[k];
    }
  }

  /**
   * With disjoint spots, an event held by a spot leaves free exactly the minutes that were
   * free before and lie outside the event.
   */
  lemma {:induction false} CarveCoverage(spots: seq<Window>, first: int, last: int)
    requires Disjoint(spots) && first <= last
    requires exists k :: 0 <= k < |spots| && Holds(spots[k], first, last, false)
    ensures forall m :: Free(Carve(spots, first, last, false), m) <==> Free(spots, m) && !(first <= m <= last)
  {
    var k := FirstHolding(spots, first, last, false);
    var pre, w, post := spots[..k], spots[k], spots[k + 1..];
    assert spots == pre + [w] + post;
    PiecesCover(w, first, last, false);
    forall m
      ensures Free(Carve(spots, first, last, false), m) <==> Free(spots, m) && !(first <= m <= last)
    {
      FreeConcat(pre + Pieces(w, first, last, false), post, m);
      FreeConcat(pre, Pieces(w, first, last, false), m);
      FreeConcat(pre + [w], post, m);
      FreeConcat(pre, [w], m);
      if first <= m <= last {
        assert In(m, spots[k]);
        forall i | 0 <= i < |pre|
          ensures !In(m, pre[i])
        {
          assert pre[i] == spots[i];
        }
        forall i | 0 <= i < |post|
          ensures !In(m, post[i])
        {
          assert post[i] == spots[k + 1 + i];
        }
      } else if In(m, w) {
        assert Free([w], m);
      } else {
        assert !Free([w], m);
      }
    }
  }

  /** Carving an event out of disjoint spots with the corrected test leaves them disjoint. */
  lemma CarveKeepsDisjoint(spots: seq<Window>, first: int, last: int)
    requires Disjoint(spots) && first <= last
    ensures Disjoint(Carve(spots, first, last, false))
  {
    var k := FirstHolding(spots, first, last, false);
    if k < |spots| {
      var p := Pieces(spots[k], first, last, false);
      var r := Carve(spots, first, last, false);
      assert r == spots[..k] + p + spots[k + 1..];
      forall i, j, m | 0 <= i < j < |r| && In(m, r[i])
        ensures !In(m, r[j])
      {
        var oi := if i < k then i else if i < k + |p| then k else i - |p| + 1;
        var oj := if j < k then j else if j < k + |p| then k else j - |p| + 1;
        if k <= i < k + |p| {
          assert r[i] in p;
        }
        assert In(m, spots[oi]);
        if In(m, r[j]) {
          if k <= j < k + |p| {
            assert r[j] in p;
          }
          assert In(m, spots[oj]);
        }
      }
    }
  }

  /**
   * The test as written can pick the wrong spot: with the adjacent spots `slice(0, 5)` and
   * `slice(5, 10)`, a one-minute event at minute 5 is matched to the first spot, whose
   * pieces restore it unchanged, so minute 5 stays free. The corrected test removes it.
   */
  lemma AsWrittenKeepsEventFree()
    ensures var spots := [Window(0, 5), Window(5, 10)];
      Disjoint(spots) && Carve(spots, 5, 5, true) == spots && Free(Carve(spots, 5, 5, true), 5)
    ensures var spots := [Window(0, 5), Window(5, 10)];
      Carve(spots, 5, 5, false) == [Window(0, 5), Window(6, 10)] && !Free(Carve(spots, 5, 5, false), 5)
  {
    var spots := [Window(0, 5), Window(5, 10)];
    assert FirstHolding(spots, 5, 5, true) == 0;
    assert FirstHolding(spots[1..], 5, 5, false) == 0;
    assert FirstHolding(spots, 5, 5, false) == 1;
    assert In(5, spots[1]);
    var after := Carve(spots, 5, 5, false);
    assert after == [Window(0, 5), Window(6, 10)];
    assert forall k :: 0 <= k < |after| ==> !In(5, after[k]);
  }

  // ----- Daily profiles -----

  /** Minute `m` lies in one of the windows. */
  predicate InAny(m: int, ws: seq<Window>)
  {
    exists k :: 0 <= k < |ws| && In(m, ws[k])
  }

  /** A daily profile holding `v` in the minutes of the windows and 0 elsewhere. */
  function Profile(ws: seq<Window>, v: real): (d: seq<real>)
    ensures |d| == MINUTES_PER_DAY
  {
    seq(MINUTES_PER_DAY, m requires 0 <= m < MINUTES_PER_DAY => if InAny(m, ws) then v else 0.0)
  }

  /** `daily_use[w[0]:w[1]] = np.full(np.diff(w), v)`. */
  function Mark(daily: seq<real>, w: Window, v: real): (d: seq<real>)
    ensures |d| == |daily|
  {
    seq(|daily|, m requires 0 <= m < |daily| => if In(m, w) then v else daily[m])
  }

  /** Marking one more window with the same value extends the profile by that window. */
  lemma MarkProfile(ws: seq<Window>, w: Window, v: real)
    ensures Mark(Profile(ws, v), w, v) == Profile(ws + [w], v)
  {
    var a, b := Mark(Profile(ws, v), w, v), Profile(ws + [w], v);
    forall m | 0 <= m < MINUTES_PER_DAY
      ensures a[m] == b[m]
    {
      if InAny(m, ws) {
        var k :| 0 <= k < |ws| && In(m, ws[k]);
        assert (ws + [w])[k] == ws[k];
      }
      if In(m, w) {
        assert (ws + [w])[|ws|] == w;
      }
      if InAny(m, ws + [w]) {
        var k :| 0 <= k < |ws + [w]| && In(m, (ws + [w])[k]);
        if k < |ws| {
          assert In(m, ws[k]);
        }
      }
    }
  }

  /** `[slice(rw[0], rw[1]) for rw in rand_windows if rw[0] != rw[1]]`. */
  function NonEmptySpots(ws: seq<Window>): (spots: seq<Window>)
    ensures forall s :: s in spots ==> s in ws && s.start != s.stop
    ensures forall w :: w in ws && w.start != w.stop ==> w in spots
  {
    if |ws| == 0 then []
    else (if ws[0].start != ws[0].stop then [ws[0]] else []) + NonEmptySpots(ws[1..])
  }

  /**
   * The randomised total time of use for the draw `time` (the value `random.uniform`
   * returned): rounded, raised to `funcCycle`, lowered to `int(0.99 * total)`, and an error
   * when that leaves it below `funcCycle`.
   */
  function RandTotalTime(funcCycle: int, rw1: Window, rw2: Window, rw3: Window, time: real): (r: Result<int>)
    ensures r.Ok? ==> funcCycle <= r.value
    ensures r.Ok? && Cap(rw1, rw2, rw3) >= 0.0 ==> r.value as real <= Cap(rw1, rw2, rw3)
    ensures r.Err? ==> r.failure == ValueError
    ensures r.Err? <==> Max(RoundHalfEven(time) as real, funcCycle as real) > Cap(rw1, rw2, rw3)
                        && Trunc(Cap(rw1, rw2, rw3)) < funcCycle
  {
    var cap := Cap(rw1, rw2, rw3);
    var rounded := RoundHalfEven(time);
    var raised := if rounded < funcCycle then funcCycle else rounded;
    assert Max(rounded as real, funcCycle as real) == raised as real;
    var lowered := if raised as real > cap then Trunc(cap) else raised;
    if lowered < funcCycle then Err(ValueError) else Ok(lowered)
  }

  /** `0.99 * total_time`: the share of the three randomised windows the appliance may use. */
  function Cap(rw1: Window, rw2: Window, rw3: Window): real
  {
    0.99 * ((rw1.stop - rw1.start) + (rw2.stop - rw2.start) + (rw3.stop - rw3.start)) as real
  }

  /**
   * The largest `k + 1` with `k < number` and `prob >= k / number`, or 1 when there is none:
   * `np.max(np.where(prob >= np.arange(0, number) / number)) + 1`.
   */
  function OnNumber(prob: real, number: int): (n: int)
    requires number != 0
    ensures number >= 1 ==> 1 <= n <= number
    ensures number >= 1 && prob >= 0.0 ==> (n - 1) as real <= prob * number as real
    ensures number >= 1 && n < number ==> prob * number as real < n as real
  {
    LastReached(prob, number, number - 1) + 1
  }

  /** The largest `k <= top` with `prob >= k / number`, or 0 when there is none. */
  function LastReached(prob: real, number: int, top: int): (k: int)
    requires number != 0
    ensures top >= 0 ==> 0 <= k <= top
    ensures top < 0 ==> k == 0
    ensures number >= 1 && k > 0 ==> k as real <= prob * number as real
    ensures number >= 1 && prob >= 0.0 && top >= 0 ==> k as real <= prob * number as real
    ensures number >= 1 && k < top ==> prob * number as real < (k + 1) as real
    decreases top
  {
    Reached(prob, number as real, top as real);
    MulNonNegativeIfPositive(prob, number as real);
    if top <= 0 then 0
    else if prob >= top as real / number as real then top
    else LastReached(prob, number, top - 1)
  }

  /** Comparing with `top / n` is comparing the scaled draw with `top`. */
  lemma Reached(prob: real, n: real, top: real)
    ensures n > 0.0 ==> (prob >= top / n <==> prob * n >= top)
  {
    if n <= 0.0 {
      return;
    }
    var q := top / n;
    assert q * n == top;
    if prob >= q {
      MulMonotone(q, prob, n);
    } else {
      MulStrict(prob, q, n);
    }
  }

  lemma MulStrict(a: real, b: real, c: real)
    requires a < b && c > 0.0
    ensures a * c < b * c
  {
    assert (b - a) * c == b * c - a * c;
    assert (b - a) * c > 0.0;
  }

  lemma MulNonNegativeIfPositive(prob: real, n: real)
    ensures n > 0.0 && prob >= 0.0 ==> prob * n >= 0.0
  {
    if n > 0.0 && prob >= 0.0 {
      MulNonNegative(prob, n);
    }
  }

  // ----- The appliance -----

  /** The result of `generate_load_profile` for one day. */
  datatype Generated =
    | Skipped                   // the appliance is not used this day: `daily_use` stays zero
    | Filled(level: real)       // a flat appliance: its windows filled with `level`, its full power
    | Stochastic(randTime: int) // windows masked, free spots set; the switch-on loop follows
    | Failed(failure: Failure)

  /** An appliance of a user: its configuration, functioning windows, daily profile and free spots. */
  class Appliance {
    const number: int
    const numWindows: int
    const funcTime: int
    const funcCycle: int
    const fixed: string
    const fixedCycle: int
    const occasionalUse: real
    const flat: string
    const prefIndex: int
    const wdWeType: int
    const constantPower: bool

    var power: seq<real>
    var window1: Window
    var window2: Window
    var window3: Window
    var randomVarW: real
    var randomVar1: int
    var randomVar2: int
    var randomVar3: int
    var cw11: Window
    var cw12: Window
    var dailyUse: seq<real>
    var freeSpots: seq<Window>

    /** The windows lie within the day, the profile has a value per minute, there is a power value. */
    ghost predicate Valid()
      reads this
    {
      InDay(window1) && InDay(window2) && InDay(window3) && |dailyUse| == MINUTES_PER_DAY && |power| > 0
    }

    /**
     * `Appliance.__init__`: the power times a vector of `num_days + 1` ones, so a single value
     * is repeated over the days and a series of that length is kept; empty windows.
     */
    constructor(number: int, power: seq<real>, numDays: nat, numWindows: int, funcTime: int, funcCycle: int,
                fixed: string, fixedCycle: int, occasionalUse: real, flat: string, prefIndex: int, wdWeType: int)
      requires |power| == 1 || |power| == numDays + 1
      ensures Valid()
      ensures this.number == number && this.numWindows == numWindows && this.funcTime == funcTime
      ensures this.funcCycle == funcCycle && this.fixed == fixed && this.fixedCycle == fixedCycle
      ensures this.occasionalUse == occasionalUse && this.flat == flat
      ensures this.prefIndex == prefIndex && this.wdWeType == wdWeType && this.constantPower
      ensures |this.power| == numDays + 1
      ensures forall d :: 0 <= d <= numDays ==> this.power[d] == power[if |power| == 1 then 0 else d]
      ensures window1 == window2 == window3 == Window(0, 0) && dailyUse == Profile([], 0.0)
      ensures randomVar1 == randomVar2 == randomVar3 == 0 && freeSpots == []
    {
      this.number := number;
      this.numWindows := numWindows;
      this.funcTime := funcTime;
      this.funcCycle := funcCycle;
      this.fixed := fixed;
      this.fixedCycle := fixedCycle;
      this.occasionalUse := occasionalUse;
      this.flat := flat;
      this.prefIndex := prefIndex;
      this.wdWeType := wdWeType;
      this.constantPower := true;
      this.power := seq(numDays + 1, d requires 0 <= d <= numDays => power[if |power| == 1 then 0 else d]);
      window1, window2, window3 := Window(0, 0), Window(0, 0), Window(0, 0);
      randomVarW := 0.0;
      randomVar1, randomVar2, randomVar3 := 0, 0, 0;
      cw11, cw12 := Window(0, 0), Window(0, 0);
      dailyUse := Profile([], 0.0);
      freeSpots := [];
    }

    /**
     * `check_power_values`: fewer power values than days are replaced by the first value
     * repeated over `num_days + 1` days when the power is constant, and rejected otherwise.
     */
    method CheckPowerValues(numDays: int) returns (r: Result<()>)
      requires Valid()
      modifies this`power
      ensures Valid()
      ensures r == Err(ValueError) <==> old(|power|) < numDays && !constantPower
      ensures r.Err? ==> r.failure == ValueError && power == old(power)
      ensures r.Ok? && old(|power|) >= numDays ==> power == old(power)
      ensures r.Ok? && old(|power|) < numDays ==>
        |power| == numDays + 1 && forall d :: 0 <= d < |power| ==> power[d] == old(power[0])
      ensures r.Ok? ==> |power| >= numDays
    {
      r := Ok(());
      if |power| < numDays {
        if constantPower {
          var first := power[0];
          power := seq(numDays + 1, _ => first);
        } else {
          r := Err(ValueError);
        }
      }
    }

    /** `getattr(self, f"window_{i}")`. */
    function WindowAt(i: int): Window
      reads this`window1, this`window2, this`window3
      requires 1 <= i <= 3
    {
      if i == 1 then window1 else if i == 2 then window2 else window3
    }

    /** `getattr(self, f"random_var_{i}")`. */
    function RandomVarAt(i: int): int
      reads this`randomVar1, this`randomVar2, this`randomVar3
      requires 1 <= i <= 3
    {
      if i == 1 then randomVar1 else if i == 2 then randomVar2 else randomVar3
    }

    /** The summed lengths of the first `n` windows. */
    ghost function WindowTime(n: int): int
      reads this`window1, this`window2, this`window3
      requires n <= 3
    {
      if n <= 0 then 0 else WindowTime(n - 1) + (WindowAt(n).stop - WindowAt(n).start)
    }

    /**
     * The loop of `windows` summing the lengths of the first `num_windows` windows, which
     * fails with `AttributeError` on reaching a fourth window.
     */
    method ScanWindowTime() returns (r: Result<int>)
      ensures r.Err? <==> numWindows > 3
      ensures r.Err? ==> r.failure == AttributeError
      ensures r.Ok? ==> r.value == WindowTime(numWindows)
    {
      var windowTime := 0;
      var i := 1;
      while i < numWindows + 1
        invariant 1 <= i <= 4 && (i <= numWindows + 1 || i == 1)
        invariant windowTime == WindowTime(i - 1)
      {
        if i > 3 {
          return Err(AttributeError);
        }
        var w := WindowAt(i);
        windowTime := windowTime + (w.stop - w.start);
        i := i + 1;
      }
      if numWindows <= 0 {
        assert WindowTime(numWindows) == 0;
      }
      return Ok(windowTime);
    }

    /**
     * `windows`: store the given windows (window 1 defaults to the whole day), reject a
     * declared window that is missing and windows too short for `func_time`, then mask the
     * windows in the profile and derive each window's random variability.
     */
    method Windows(w1: Option<Window>, w2: Option<Window>, randomVarW: real, w3: Option<Window>)
      returns (r: Result<()>)
      requires Valid()
      requires w1.Some? ==> InDay(w1.value)
      requires w2.Some? ==> InDay(w2.value)
      requires w3.Some? ==> InDay(w3.value)
      modifies this`window1, this`window2, this`window3
      modifies this`randomVarW, this`randomVar1, this`randomVar2, this`randomVar3, this`dailyUse, this`cw11, this`cw12
      ensures Valid()
      ensures window1 == (if w1.None? then Window(0, MINUTES_PER_DAY) else w1.value)
      ensures window2 == (if w2.Some? then w2.value else old(window2))
      ensures window3 == (if w3.Some? && !(w2.None? && numWindows >= 2) then w3.value else old(window3))
      ensures r.Err? ==> r.failure in {InvalidWindow, AttributeError, ValueError}
      ensures r == Err(InvalidWindow) <==> (w2.None? && numWindows >= 2) || (w3.None? && numWindows == 3)
      ensures r == Err(AttributeError) <==> r != Err(InvalidWindow) && numWindows > 3
      ensures r == Err(ValueError) <==>
        r != Err(InvalidWindow) && numWindows <= 3 && WindowTime(numWindows) < funcTime
      ensures r.Err? ==> dailyUse == old(dailyUse) && randomVar1 == old(randomVar1) && cw11 == old(cw11)
      ensures r.Err? ==>
        this.randomVarW == old(this.randomVarW) && randomVar2 == old(randomVar2) && randomVar3 == old(randomVar3) && cw12 == old(cw12)
      ensures r.Ok? ==> this.randomVarW == randomVarW
      ensures r.Ok? ==> randomVar1 == Variability(randomVarW, window1)
      ensures r.Ok? ==> randomVar2 == Variability(randomVarW, window2)
      ensures r.Ok? ==> randomVar3 == Variability(randomVarW, window3)
      ensures r.Ok? ==> dailyUse == Profile([window1, window2, window3], 0.001)
      ensures r.Ok? && fixedCycle == 1 ==> cw11 == window1 && cw12 == window2
      ensures r.Ok? && fixedCycle != 1 ==> cw11 == old(cw11) && cw12 == old(cw12)
    {
      window1 := if w1.None? then Window(0, MINUTES_PER_DAY) else w1.value;
      if w2.None? {
        if numWindows >= 2 {
          return Err(InvalidWindow);
        }
      } else {
        window2 := w2.value;
      }
      if w3.None? {
        if numWindows == 3 {
          return Err(InvalidWindow);
        }
      } else {
        window3 := w3.value;
      }
      var scan := ScanWindowTime();
      if scan.Err? {
        return Err(AttributeError);
      }
      var windowTime := scan.value;
      if windowTime < funcTime {
        return Err(ValueError);
      }
      MaskWindows(randomVarW);
      r := Ok(());
    }

    /**
     * The tail of `windows` once the checks pass: mask the three windows in a zeroed
     * profile, derive each window's variability, and copy the first two windows to the
     * fixed-cycle windows when `fixed_cycle` is 1.
     */
    method MaskWindows(randomVarW: real)
      modifies this`randomVarW, this`randomVar1, this`randomVar2, this`randomVar3, this`dailyUse, this`cw11, this`cw12
      ensures this.randomVarW == randomVarW
      ensures randomVar1 == Variability(randomVarW, window1)
      ensures randomVar2 == Variability(randomVarW, window2)
      ensures randomVar3 == Variability(randomVarW, window3)
      ensures dailyUse == Profile([window1, window2, window3], 0.001)
      ensures fixedCycle == 1 ==> cw11 == window1 && cw12 == window2
      ensures fixedCycle != 1 ==> cw11 == old(cw11) && cw12 == old(cw12)
    {
      this.randomVarW := randomVarW;
      MaskThree(window1, window2, window3);
      dailyUse := Mark(Mark(Mark(Profile([], 0.0), window1, 0.001), window2, 0.001), window3, 0.001);
      randomVar1 := Variability(randomVarW, window1);
      randomVar2 := Variability(randomVarW, window2);
      randomVar3 := Variability(randomVarW, window3);
      if fixedCycle == 1 {
        cw11 := window1;
        cw12 := window2;
      }
    }

    /**
     * `calc_rand_window`: the randint draws `start` and `stop` for window `windowIdx`,
     * the start raised to the lower limit and the stop lowered to the upper limit.
     */
    function CalcRandWindow(windowIdx: int, start: int, stop: int, limits: Window): (rw: Window)
      reads this`window1, this`window2, this`window3, this`randomVar1, this`randomVar2, this`randomVar3
      requires 1 <= windowIdx <= 3
      ensures rw.start >= limits.start && rw.stop <= limits.stop
      ensures start >= limits.start ==> rw.start == start
      ensures stop <= limits.stop ==> rw.stop == stop
      ensures var w, v := WindowAt(windowIdx), RandomVarAt(windowIdx);
        w.stop - v <= stop <= w.stop + v && stop <= limits.stop ==> w.stop - v <= rw.stop <= w.stop + v
    {
      var randWindow := Window(start, stop);
      var randWindow := if randWindow.start < limits.start then randWindow.(start := limits.start) else randWindow;
      if randWindow.stop > limits.stop then randWindow.(stop := limits.stop) else randWindow
    }

    /** The three randomised windows of a day for the randint draws `draws`. */
    function RandWindows(draws: seq<Window>): (rws: seq<Window>)
      reads this`window1, this`window2, this`window3, this`randomVar1, this`randomVar2, this`randomVar3
      requires |draws| == 3
      ensures |rws| == 3
      ensures forall i :: 0 <= i < 3 ==> rws[i] == CalcRandWindow(i + 1, draws[i].start, draws[i].stop, Window(0, MINUTES_PER_DAY))
    {
      [CalcRandWindow(1, draws[0].start, draws[0].stop, Window(0, MINUTES_PER_DAY)),
       CalcRandWindow(2, draws[1].start, draws[1].stop, Window(0, MINUTES_PER_DAY)),
       CalcRandWindow(3, draws[2].start, draws[2].stop, Window(0, MINUTES_PER_DAY))]
    }

    /** `rand_total_time_of_use` for the uniform draw `time`. */
    function RandTotalTimeOfUse(rw1: Window, rw2: Window, rw3: Window, time: real): (r: Result<int>)
      ensures r.Ok? ==> funcCycle <= r.value
      ensures r.Ok? && Cap(rw1, rw2, rw3) >= 0.0 ==> r.value as real <= Cap(rw1, rw2, rw3)
    {
      RandTotalTime(funcCycle, rw1, rw2, rw3, time)
    }

    /**
     * `calc_coincident_switch_on`: inside the peak window the gaussian draw rounded up and
     * kept in `[1, number]`; off-peak the count reached by the uniform draw `prob`, where
     * `number == 0` divides by zero; all `number` copies together when the appliance is fixed.
     */
    function CalcCoincidentSwitchOn(insidePeakWindow: bool, gauss: real, prob: real): (c: Result<int>)
      ensures c.Err? <==> !insidePeakWindow && fixed == "no" && number == 0
      ensures c.Err? ==> c.failure == ZeroDivisionError
      ensures c.Ok? && number >= 1 ==> 1 <= c.value <= number
      ensures fixed != "no" ==> c == Ok(number)
    {
      if insidePeakWindow && fixed == "no" then
        var up := Ceil(gauss);
        var atLeastOne := if 1 >= up then 1 else up;
        Ok(if number <= atLeastOne then number else atLeastOne)
      else if !insidePeakWindow && fixed == "no" then
        if number == 0 then Err(ZeroDivisionError) else Ok(OnNumber(prob, number))
      else
        Ok(number)
    }

    /** The randomised total time of use of a day with the randint draws `windowDraws`. */
    function DayTime(windowDraws: seq<Window>, timeDraw: real): Result<int>
      reads this`window1, this`window2, this`window3, this`randomVar1, this`randomVar2, this`randomVar3
      requires |windowDraws| == 3
    {
      var rws := RandWindows(windowDraws);
      RandTotalTimeOfUse(rws[0], rws[1], rws[2], timeDraw)
    }

    /** The conditions under which `generate_load_profile` leaves the day's profile at zero. */
    predicate Skips(useDraw: real, randDailyPref: int, dayType: int)
    {
      useDraw > occasionalUse
      || (prefIndex != 0 && randDailyPref != prefIndex)
      || (wdWeType != dayType && wdWeType != 2)
      || funcTime == 0
    }

    /**
     * `generate_load_profile` up to the switch-on search: reset the profile, skip the day
     * when the usage draw, the preference, the day type or a zero `func_time` says so, and
     * otherwise shape the day.
     */
    method GenerateLoadProfile(profI: int, dayType: int, randDailyPref: int, useDraw: real,
                               windowDraws: seq<Window>, timeDraw: real) returns (g: Generated)
      requires |windowDraws| == 3 && profI >= 0
      modifies this`dailyUse, this`freeSpots
      ensures g == Skipped <==> Skips(useDraw, randDailyPref, dayType)
      ensures g == Skipped || g.Failed? ==> dailyUse == Profile([], 0.0) && freeSpots == old(freeSpots)
      ensures g != Skipped ==> g == DayShape(profI, windowDraws, timeDraw)
      ensures g.Filled? ==> dailyUse == Profile(RandWindows(windowDraws), g.level) && freeSpots == old(freeSpots)
      ensures g.Stochastic? ==>
        dailyUse == Profile(RandWindows(windowDraws), 0.001) && freeSpots == NonEmptySpots(RandWindows(windowDraws))
    {
      dailyUse := Profile([], 0.0);
      if Skips(useDraw, randDailyPref, dayType) {
        return Skipped;
      }
      g := ShapeDay(profI, windowDraws, timeDraw);
    }

    /**
     * Steps 2a and 2b of `generate_load_profile`: randomise the windows and the total time
     * of use; fill a flat appliance's windows with its full power, or mask the windows and
     * list them as free spots. The failures leave the profile and the spots alone.
     */
    method ShapeDay(profI: int, windowDraws: seq<Window>, timeDraw: real) returns (g: Generated)
      requires |windowDraws| == 3 && profI >= 0
      modifies this`dailyUse, this`freeSpots
      ensures g == DayShape(profI, windowDraws, timeDraw)
      ensures g.Failed? ==> dailyUse == old(dailyUse)
      ensures g.Filled? ==> dailyUse == Profile(RandWindows(windowDraws), g.level)
      ensures g.Stochastic? ==>
        dailyUse == Profile(RandWindows(windowDraws), 0.001) && freeSpots == NonEmptySpots(RandWindows(windowDraws))
      ensures !g.Stochastic? ==> freeSpots == old(freeSpots)
    {
      var rws := RandWindows(windowDraws);
      var t := RandTotalTimeOfUse(rws[0], rws[1], rws[2], timeDraw);
      if t.Err? {
        return Failed(t.failure);
      }
      var value := 0.001;
      if flat == "yes" {
        if profI >= |power| {
          return Failed(IndexError);
        }
        value := power[profI] * number as real;
      }
      var marked := MarkWindows(rws, value);
      if marked.None? {
        return Failed(ValueError);
      }
      dailyUse := marked.value;
      if flat == "yes" {
        g := Filled(value);
      } else {
        freeSpots := NonEmptySpots(rws);
        g := Stochastic(t.value);
      }
    }

    /**
     * The outcome of shaping a day: the error of the total time of use, an `IndexError`
     * for a flat appliance without power for the day, a `ValueError` for a window ending
     * before it starts, and otherwise the fill level or the total time of use.
     */
    function DayShape(profI: int, windowDraws: seq<Window>, timeDraw: real): (g: Generated)
      reads this`window1, this`window2, this`window3, this`randomVar1, this`randomVar2, this`randomVar3, this`power
      requires |windowDraws| == 3 && profI >= 0
      ensures g != Skipped
      ensures g.Failed? ==> g.failure in {ValueError, IndexError}
      ensures g == Failed(ValueError)
        <==> (DayTime(windowDraws, timeDraw).Err?
              || (!(flat == "yes" && profI >= |power|) && exists k :: 0 <= k < 3 && MisOrdered(RandWindows(windowDraws)[k])))
      ensures g == Failed(IndexError) <==> DayTime(windowDraws, timeDraw).Ok? && flat == "yes" && profI >= |power|
      ensures g.Filled? ==> flat == "yes" && profI < |power| && g.level == power[profI] * number as real
      ensures g.Stochastic? ==> flat != "yes" && DayTime(windowDraws, timeDraw) == Ok(g.randTime)
    {
      var rws := RandWindows(windowDraws);
      var t := DayTime(windowDraws, timeDraw);
      if t.Err? then Failed(t.failure)
      else if flat == "yes" && profI >= |power| then Failed(IndexError)
      else if exists k :: 0 <= k < 3 && MisOrdered(rws[k]) then Failed(ValueError)
      else if flat == "yes" then Filled(power[profI] * number as real)
      else Stochastic(t.value)
    }

    /**
     * `update_available_time_for_switch_on_events` with the corrected spot test: find the
     * first free spot holding the event `indexes`, pop it and insert its pieces at its place.
     */
    method UpdateAvailableTime(indexes: seq<int>)
      requires |indexes| > 0
      modifies this`freeSpots
      ensures freeSpots == Carve(old(freeSpots), indexes[0], indexes[|indexes| - 1], false)
    {
      var first, last := indexes[0], indexes[|indexes| - 1];
      var spotIdx := FindSpot(freeSpots, first, last);
      if spotIdx.None? {
        return;
      }
      freeSpots := SplitSpot(freeSpots, spotIdx.value, first, last);
    }
  }

  /** The search loop of the spot update: the index of the first spot holding `[first, last]`, if any. */
  method FindSpot(spots: seq<Window>, first: int, last: int) returns (spotIdx: Option<nat>)
    ensures spotIdx.None? <==> FirstHolding(spots, first, last, false) == |spots|
    ensures spotIdx.Some? ==> spotIdx.value == FirstHolding(spots, first, last, false)
  {
    spotIdx := None;
    var i := 0;
    while i < |spots|
      invariant 0 <= i <= |spots|
      invariant spotIdx.None? ==> forall j :: 0 <= j < i ==> !Holds(spots[j], first, last, false)
      invariant spotIdx.Some? ==> spotIdx.value == FirstHolding(spots, first, last, false) < |spots|
    {
      var fs := spots[i];
      if first >= fs.start && last < fs.stop {
        spotIdx := Some(i);
        FirstIsFirst(spots, first, last, i);
        break;
      }
      i := i + 1;
    }
  }

  /** Pop spot `k` and insert, at its place, what is left of it around `[first, last]`. */
  method SplitSpot(spots: seq<Window>, k: nat, first: int, last: int) returns (rest: seq<Window>)
    requires k < |spots|
    ensures rest == spots[..k] + Pieces(spots[k], first, last, false) + spots[k + 1..]
  {
    var spotToSplit := spots[k];
    rest := spots[..k] + spots[k + 1..];
    assert rest[..k] == spots[..k] && rest[k..] == spots[k + 1..];
    if first == spotToSplit.start && last == spotToSplit.stop - 1 {
    } else if first == spotToSplit.start {
      rest := rest[..k] + [Window(last + 1, spotToSplit.stop)] + rest[k..];
    } else if last == spotToSplit.stop - 1 {
      rest := rest[..k] + [Window(spotToSplit.start, first)] + rest[k..];
    } else {
      var newSpot1 := Window(spotToSplit.start, first);
      var newSpot2 := Window(last + 1, spotToSplit.stop);
      rest := rest[..k] + [newSpot2] + rest[k..];
      assert rest[..k] == spots[..k] && rest[k..] == [newSpot2] + spots[k + 1..];
      rest := rest[..k] + [newSpot1] + rest[k..];
    }
  }

  /** `int(random_var_w * np.diff(w)[0])`: how far the window may be moved, toward zero. */
  function Variability(randomVarW: real, w: Window): (v: int)
    ensures randomVarW >= 0.0 && w.start <= w.stop ==> 0 <= v && v as real <= randomVarW * (w.stop - w.start) as real
  {
    var len := (w.stop - w.start) as real;
    MulNonNegativeIfPositive(randomVarW, len);
    Trunc(randomVarW * len)
  }

  /**
   * The loop of `generate_load_profile` over the randomised windows: fill each window of
   * a zeroed profile with `v`, failing on a window that ends before it starts.
   */
  method MarkWindows(ws: seq<Window>, v: real) returns (r: Option<seq<real>>)
    ensures r.None? <==> exists k :: 0 <= k < |ws| && MisOrdered(ws[k])
    ensures r.Some? ==> r.value == Profile(ws, v)
  {
    var daily := Profile([], 0.0);
    assert Profile([], 0.0) == Profile([], v);
    var i := 0;
    while i < |ws|
      invariant 0 <= i <= |ws|
      invariant daily == Profile(ws[..i], v)
      invariant forall k :: 0 <= k < i ==> !MisOrdered(ws[k])
    {
      if MisOrdered(ws[i]) {
        return None;
      }
      MarkProfile(ws[..i], ws[i], v);
      assert ws[..i] + [ws[i]] == ws[..i + 1];
      daily := Mark(daily, ws[i], v);
      i := i + 1;
    }
    assert ws[..i] == ws;
    return Some(daily);
  }

  /** Zeroing the profile, then filling three windows with 0.001, gives their profile. */
  lemma MaskThree(w1: Window, w2: Window, w3: Window)
    ensures Mark(Mark(Mark(Profile([], 0.0), w1, 0.001), w2, 0.001), w3, 0.001) == Profile([w1, w2, w3], 0.001)
  {
    assert Profile([], 0.0) == Profile([], 0.001);
    assert [] + [w1] == [w1] && [w1] + [w2] == [w1, w2] && [w1, w2] + [w3] == [w1, w2, w3];
    MarkProfile([], w1, 0.001);
    MarkProfile([w1], w2, 0.001);
    MarkProfile([w1, w2], w3, 0.001);
  }

  /** A randomised window ending before it starts: `np.full` of a negative length raises `ValueError`. */
  predicate MisOrdered(w: Window)
  {
    w.start > w.stop
  }

  /** The window lies within the day. */
  predicate InDay(w: Window)
  {
    0 <= w.start <= w.stop <= MINUTES_PER_DAY
  }

  /** The first index that passes the test, scanning from the front, is `FirstHolding`. */
  lemma {:induction false} FirstIsFirst(spots: seq<Window>, first: int, last: int, i: nat)
    requires i < |spots| && Holds(spots[i], first, last, false)
    requires forall j :: 0 <= j < i ==> !Holds(spots[j], first, last, false)
    ensures FirstHolding(spots, first, last, false) == i
  {
    if i > 0 {
      FirstIsFirst(spots[1..], first, last, i - 1);
    }
  }
}
