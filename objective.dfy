/**
 * The levelized-cost objective (`cost_func`) and the feasibility penalty
 * (`demand_constraint`, `constrained_cost`) shared by the three copies of the sizing
 * engine. A horizon of `hours` simulated hours is scaled up to `years` full years by a
 * load factor before capital and fuel costs are set against the energy served.
 */
module Objective {
  import opened Numeric
  import opened Scores
  import opened Dispatch

  const HOURS_PER_YEAR: real := 8760.0

  /** A margin below `-PENALTY_TOLERANCE` marks a candidate as infeasible. */
  const PENALTY_TOLERANCE: real := 0.0001

  /** `1 / (len(E_load) / (years * 8760))`: how many simulated horizons make up the project life. */
  function LoadFactor(years: real, hours: nat): (lf: real)
    requires years > 0.0 && hours > 0
    ensures lf > 0.0
    ensures lf * hours as real == years * HOURS_PER_YEAR
    ensures lf == years * HOURS_PER_YEAR / hours as real
  {
    1.0 / (hours as real / (years * HOURS_PER_YEAR))
  }

  /**
   * Levelized cost of energy: capital cost plus the scaled fuel bill, over the scaled
   * energy served.
   */
  function Levelized(capitalCost: real, dieselEnergy: real, fuelPrice: real, loadEnergy: real, lf: real): (c: real)
    requires loadEnergy > 0.0 && lf > 0.0
    ensures c == capitalCost / (loadEnergy * lf) + fuelPrice * dieselEnergy / loadEnergy
    ensures capitalCost >= 0.0 && dieselEnergy >= 0.0 && fuelPrice >= 0.0 ==> c >= 0.0
  {
    LevelizedSplit(capitalCost, dieselEnergy, fuelPrice, loadEnergy, lf);
    (capitalCost + dieselEnergy * lf * fuelPrice) / (loadEnergy * lf)
  }

  /** The fuel term does not depend on the load factor: it is the fuel bill per unit of energy served. */
  lemma LevelizedSplit(capitalCost: real, dieselEnergy: real, fuelPrice: real, loadEnergy: real, lf: real)
    requires loadEnergy > 0.0 && lf > 0.0
    ensures (capitalCost + dieselEnergy * lf * fuelPrice) / (loadEnergy * lf)
         == capitalCost / (loadEnergy * lf) + fuelPrice * dieselEnergy / loadEnergy
    ensures capitalCost >= 0.0 && dieselEnergy >= 0.0 && fuelPrice >= 0.0
         ==> (capitalCost + dieselEnergy * lf * fuelPrice) / (loadEnergy * lf) >= 0.0
  {
    var d := loadEnergy * lf;
    MulNonNegative(loadEnergy, lf);
    assert dieselEnergy * lf * fuelPrice == (fuelPrice * dieselEnergy) * lf;
    CancelFactor(fuelPrice * dieselEnergy, loadEnergy, lf);
    if capitalCost >= 0.0 && dieselEnergy >= 0.0 && fuelPrice >= 0.0 {
      MulNonNegative(dieselEnergy, lf);
      MulNonNegative(dieselEnergy * lf, fuelPrice);
    }
  }

  lemma CancelFactor(x: real, y: real, z: real)
    requires y != 0.0 && z != 0.0
    ensures (x * z) / (y * z) == x / y
  {
    var q := x / y;
    assert x == q * y;
    assert x * z == q * (y * z);
  }

  /** `np.sum(s * c)`: the sum of a series scaled element by element. */
  function Scaled(s: seq<real>, c: real): (r: seq<real>)
    ensures |r| == |s|
    ensures forall t :: 0 <= t < |s| ==> r[t] == s[t] * c
  {
    seq(|s|, t requires 0 <= t < |s| => s[t] * c)
  }

  /** Scaling each element scales the sum, so NumPy's element-wise form agrees with the TypeScript one. */
  lemma {:induction false} SumScaled(s: seq<real>, c: real)
    ensures Sum(Scaled(s, c)) == Sum(s) * c
  {
    if s != [] {
      var init := s[..|s| - 1];
      assert forall t :: 0 <= t < |init| ==> Scaled(s, c)[..|s| - 1][t] == Scaled(init, c)[t];
      assert Scaled(s, c)[..|s| - 1] == Scaled(init, c);
      SumScaled(init, c);
    }
  }

  /** The per-hour residuals of a simulated horizon, `E_batt + E_diesel + supply - E_load`. */
  function Residuals(p: Plant, supply: seq<real>, load: seq<real>): (r: seq<real>)
    requires p.efficiency > 0.0 && |supply| == |load|
    ensures |r| == |load|
    ensures forall t :: 0 <= t < |load| ==> r[t] == Residual(p, supply, load, t)
  {
    seq(|load|, t requires 0 <= t < |load| => Residual(p, supply, load, t))
  }

  /** `constrained_cost`'s test: infinite when the margin is below the tolerance, the cost otherwise. */
  function Penalized(margin: real, cost: real): (s: Score)
    ensures s == Inf <==> margin < -PENALTY_TOLERANCE
    ensures s != Inf ==> s == Fin(cost)
  {
    if margin < -PENALTY_TOLERANCE then Inf else Fin(cost)
  }

  /**
   * With the charge starting inside its band, the smallest residual of a horizon is below
   * the tolerance exactly when some hour's deficit after the battery exceeds the diesel
   * capacity by more than the tolerance; if diesel covers every hour's deficit, every
   * residual is at least `-DIESEL_EPSILON`.
   */
  lemma MarginBelowTolerance(p: Plant, supply: seq<real>, load: seq<real>)
    requires BatteryInRange(p) && p.dieselCapacity >= 0.0 && |supply| == |load| > 0
    ensures MinOf(Residuals(p, supply, load)) < -PENALTY_TOLERANCE
        <==> exists t :: 0 <= t < |load| &&
               HourAt(p, supply, load, t).residual < -(p.dieselCapacity + PENALTY_TOLERANCE)
    ensures (forall t :: 0 <= t < |load| ==> HourAt(p, supply, load, t).residual >= -p.dieselCapacity)
        ==> forall t :: 0 <= t < |load| ==> Residuals(p, supply, load)[t] >= -DIESEL_EPSILON
  {
    var r := Residuals(p, supply, load);
    MinOfBelow(r, -PENALTY_TOLERANCE);
    forall t | 0 <= t < |load|
      ensures r[t] < -PENALTY_TOLERANCE
          <==> HourAt(p, supply, load, t).residual < -(p.dieselCapacity + PENALTY_TOLERANCE)
      ensures HourAt(p, supply, load, t).residual >= -p.dieselCapacity ==> r[t] >= -DIESEL_EPSILON
    {
      TraceResidual(p, supply, load, t, PENALTY_TOLERANCE);
    }
  }
}
