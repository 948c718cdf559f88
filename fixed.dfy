/**
 * The parts the two three-dimensional copies of the sizing engine (the Python module and
 * the browser module) share word for word: the hard-coded battery and cost constants, the
 * PV-only simulator, the capital cost, the feasibility margin and the optimizer settings.
 * Candidates are `x = [pv, battery, diesel]`.
 */
module Fixed {
  import opened Numeric
  import opened Dispatch
  import opened Objective
  import opened Evolution
  import opened Types

  /** Round-trip efficiency of the battery; the charge efficiency is its square root. */
  const RTE_BATT: real := 0.95
  const MAX_DISCHARGE: real := 0.9
  const BATTERY_COST: real := 140.0
  const INITIAL_SOC: real := 0.5
  const PV_COST: real := 720.0
  const DIESEL_COST: real := 261.0
  const DIESEL_FUEL: real := 0.2

  /**
   * `CHARGE_EFFICIENCY = RTE_BATT ** 0.5`, used for both charge and discharge: the model
   * takes it as a parameter pinned down by its square.
   */
  predicate ChargeEfficiency(e: real)
  {
    e > 0.0 && e * e == RTE_BATT
  }

  /** The plant of a battery and a diesel capacity under the module constants. */
  function PlantOf(batteryCapacity: real, dieselCapacity: real, efficiency: real): (p: Plant)
    ensures p.batteryCapacity == batteryCapacity && p.dieselCapacity == dieselCapacity
    ensures p.initialSoc == INITIAL_SOC && p.maxDischarge == MAX_DISCHARGE && p.efficiency == efficiency
  {
    Plant(batteryCapacity, dieselCapacity, INITIAL_SOC, MAX_DISCHARGE, efficiency)
  }

  /** With the constants above, any non-negative battery starts inside its band. */
  lemma PlantInRange(batteryCapacity: real, dieselCapacity: real, efficiency: real)
    requires ChargeEfficiency(efficiency) && batteryCapacity >= 0.0
    ensures BatteryInRange(PlantOf(batteryCapacity, dieselCapacity, efficiency))
  {
  }

  /** `pv_capacity * E_PV`: the PV output in every hour. */
  function SupplyOf(pvCapacity: real, ePV: seq<real>): (s: seq<real>)
    ensures |s| == |ePV|
    ensures forall t :: 0 <= t < |ePV| ==> s[t] == pvCapacity * ePV[t]
  {
    seq(|ePV|, t requires 0 <= t < |ePV| => pvCapacity * ePV[t])
  }

  /** Series of one length with energy to serve (otherwise the cost divides by zero). */
  predicate Admissible(load: seq<real>, ePV: seq<real>)
  {
    |load| > 0 && |ePV| == |load| && Sum(load) > 0.0
  }

  /** The simulated trace of a candidate `x = [pv, battery, diesel]`. */
  function TraceOf(x: seq<real>, load: seq<real>, ePV: seq<real>, efficiency: real): (tr: Trace)
    requires |x| == 3 && efficiency > 0.0 && |ePV| == |load|
    ensures |tr.batt| == |load| && |tr.diesel| == |load| && |tr.soc| == |load|
  {
    Simulation(PlantOf(x[1], x[2], efficiency), SupplyOf(x[0], ePV), load)
  }

  /**
   * `energy_balance(pv, battery, diesel, E_load, E_PV)`: the PV output, then the shared
   * simulator loop over it. The three series have the length of the load and `C_batt[t]`
   * is the state of charge after hour `t`.
   */
  method EnergyBalance(pvCapacity: real, batteryCapacity: real, dieselCapacity: real,
                       load: seq<real>, ePV: seq<real>, efficiency: real)
    returns (eBatt: seq<real>, eDiesel: seq<real>, cBatt: seq<real>)
    requires efficiency > 0.0 && |ePV| == |load|
    ensures Trace(eBatt, eDiesel, cBatt)
         == Simulation(PlantOf(batteryCapacity, dieselCapacity, efficiency), SupplyOf(pvCapacity, ePV), load)
    ensures |eBatt| == |load| && |eDiesel| == |load| && |cBatt| == |load|
    ensures forall t :: 0 <= t < |load| ==>
      cBatt[t] == SocBefore(PlantOf(batteryCapacity, dieselCapacity, efficiency), SupplyOf(pvCapacity, ePV), load, t + 1)
  {
    var pvOutput := SupplyOf(pvCapacity, ePV);
    var tr := Dispatch.EnergyBalance(PlantOf(batteryCapacity, dieselCapacity, efficiency), pvOutput, load);
    eBatt, eDiesel, cBatt := tr.batt, tr.diesel, tr.soc;
  }

  /** Capacity costs at the fixed per-unit prices. */
  function CapitalCost(x: seq<real>): real
    requires |x| == 3
  {
    x[0] * PV_COST + x[1] * BATTERY_COST + x[2] * DIESEL_COST
  }

  lemma CapitalCostNonNegative(x: seq<real>)
    requires |x| == 3 && forall j :: 0 <= j < 3 ==> x[j] >= 0.0
    ensures CapitalCost(x) >= 0.0
  {
    MulNonNegative(x[0], PV_COST);
    MulNonNegative(x[1], BATTERY_COST);
    MulNonNegative(x[2], DIESEL_COST);
  }

  /** The diesel energy of a candidate with a non-negative diesel capacity is not negative. */
  lemma DieselEnergyNonNegative(x: seq<real>, load: seq<real>, ePV: seq<real>, efficiency: real)
    requires |x| == 3 && efficiency > 0.0 && |ePV| == |load| && x[2] >= 0.0
    ensures Sum(TraceOf(x, load, ePV, efficiency).diesel) >= 0.0
  {
    TraceOutputsBounded(PlantOf(x[1], x[2], efficiency), SupplyOf(x[0], ePV), load);
    SumNonNegative(TraceOf(x, load, ePV, efficiency).diesel);
  }

  /** `E_batt[t] + E_diesel[t] + pv * E_PV[t] - E_load[t]`. */
  function Margin(x: seq<real>, load: seq<real>, ePV: seq<real>, efficiency: real, t: nat): real
    requires |x| == 3 && efficiency > 0.0 && |ePV| == |load| && t < |load|
  {
    var tr := TraceOf(x, load, ePV, efficiency);
    tr.batt[t] + tr.diesel[t] + x[0] * ePV[t] - load[t]
  }

  /** `demand_constraint`: the smallest hourly margin, attained in some hour. */
  function DemandConstraint(x: seq<real>, load: seq<real>, ePV: seq<real>, efficiency: real): (m: real)
    requires |x| == 3 && efficiency > 0.0 && |load| > 0 && |ePV| == |load|
    ensures exists t :: 0 <= t < |load| && m == Margin(x, load, ePV, efficiency, t)
    ensures forall t :: 0 <= t < |load| ==> m <= Margin(x, load, ePV, efficiency, t)
  {
    var r := Residuals(PlantOf(x[1], x[2], efficiency), SupplyOf(x[0], ePV), load);
    assert forall t :: 0 <= t < |load| ==> r[t] == Margin(x, load, ePV, efficiency, t);
    MinOf(r)
  }

  /**
   * With a non-negative battery and diesel, the smallest margin is below the tolerance
   * exactly when in some hour the deficit left by the battery exceeds the diesel capacity
   * by more than the tolerance; when diesel covers every deficit, every hour is served to
   * within `DIESEL_EPSILON`.
   */
  lemma DemandConstraintRejects(x: seq<real>, load: seq<real>, ePV: seq<real>, efficiency: real)
    requires |x| == 3 && ChargeEfficiency(efficiency) && |load| > 0 && |ePV| == |load|
    requires x[1] >= 0.0 && x[2] >= 0.0
    ensures var plant := PlantOf(x[1], x[2], efficiency);
      var supply := SupplyOf(x[0], ePV);
      ((DemandConstraint(x, load, ePV, efficiency) < -PENALTY_TOLERANCE)
        <==> exists t :: 0 <= t < |load| && HourAt(plant, supply, load, t).residual < -(x[2] + PENALTY_TOLERANCE))
    ensures var plant := PlantOf(x[1], x[2], efficiency);
      var supply := SupplyOf(x[0], ePV);
      (forall t :: 0 <= t < |load| ==> HourAt(plant, supply, load, t).residual >= -x[2])
        ==> forall t :: 0 <= t < |load| ==> Margin(x, load, ePV, efficiency, t) >= -DIESEL_EPSILON
  {
    var plant := PlantOf(x[1], x[2], efficiency);
    var supply := SupplyOf(x[0], ePV);
    var r := Residuals(plant, supply, load);
    PlantInRange(x[1], x[2], efficiency);
    MarginBelowTolerance(plant, supply, load);
    assert forall t :: 0 <= t < |load| ==> r[t] == Margin(x, load, ePV, efficiency, t);
    assert DemandConstraint(x, load, ePV, efficiency) == MinOf(r);
  }

  /** `[(0, 1000), (0, 5000), (0, 1000)]`. */
  function Bounds(): (b: seq<Bound>)
    ensures |b| == 3
  {
    [Bound(0.0, 1000.0), Bound(0.0, 5000.0), Bound(0.0, 1000.0)]
  }

  /** Mutation 0.5, recombination 0.7, 15 individuals, 5000 generations, tolerance 1e-7. */
  function Settings(): (cfg: Config)
    ensures cfg.bounds == Bounds() && cfg.popSize == 15 && cfg.maxIter == 5000
  {
    Config(Bounds(), 0.5, 0.7, 15, 5000, 0.0000001)
  }

  /**
   * The record `optimize_capacity` returns for the vector `solution`: its capacities, its
   * PV output, its simulated trace and the load.
   */
  function Reported(solution: seq<real>, load: seq<real>, ePV: seq<real>, efficiency: real): SizingResult
    requires |solution| == 3 && efficiency > 0.0 && |ePV| == |load|
  {
    var tr := TraceOf(solution, load, ePV, efficiency);
    SizingResult(Capacity3(solution[0], solution[1], solution[2]),
                 SupplyOf(solution[0], ePV), tr.batt, tr.diesel, tr.soc, load)
  }

  /**
   * The second half of `optimize_capacity`: simulate the chosen vector again and report
   * its capacities, PV output and traces, echoing the load.
   */
  method Report(solution: seq<real>, load: seq<real>, ePV: seq<real>, efficiency: real) returns (result: SizingResult)
    requires |solution| == 3 && efficiency > 0.0 && |ePV| == |load|
    ensures result == Reported(solution, load, ePV, efficiency)
  {
    var pv, battery, diesel := solution[0], solution[1], solution[2];
    var eBatt, eDiesel, cBatt := EnergyBalance(pv, battery, diesel, load, ePV, efficiency);
    result := SizingResult(Capacity3(pv, battery, diesel), SupplyOf(pv, ePV), eBatt, eDiesel, cBatt, load);
  }
}
