/**
 * The options-driven copy of the sizing engine (the background worker): four decision
 * variables ordered `[pv, battery, diesel, hydro]`, a hydro yield series, and every
 * battery and cost parameter taken from `options`. Its simulator takes the capacities in
 * a different order, `(pv, hydro, battery, diesel)`.
 */
module Worker {
  import opened Numeric
  import opened Scores
  import opened Dispatch
  import opened Objective
  import opened Evolution
  import opened Optimizer
  import opened Types

  /** The plant of a battery and a diesel capacity under the battery options. */
  function PlantOf(batteryCapacity: real, dieselCapacity: real, battery: BatteryOptions): (p: Plant)
    ensures p.batteryCapacity == batteryCapacity && p.dieselCapacity == dieselCapacity
    ensures p.initialSoc == battery.initialSoc && p.maxDischarge == battery.maxDischarge
    ensures p.efficiency == battery.efficiency
  {
    Plant(batteryCapacity, dieselCapacity, battery.initialSoc, battery.maxDischarge, battery.efficiency)
  }

  /** `PV_output[t] + hydro_output[t]`: renewable supply in hour `t`. */
  function SupplyOf(pvCapacity: real, hydroCapacity: real, ePV: seq<real>, eHydro: seq<real>): (s: seq<real>)
    requires |ePV| == |eHydro|
    ensures |s| == |ePV|
    ensures forall t :: 0 <= t < |ePV| ==> s[t] == pvCapacity * ePV[t] + hydroCapacity * eHydro[t]
  {
    seq(|ePV|, t requires 0 <= t < |ePV| => pvCapacity * ePV[t] + hydroCapacity * eHydro[t])
  }

  /**
   * What the engine needs of its inputs: series of one length with energy to serve, a
   * positive efficiency and a positive project life (otherwise the cost divides by zero).
   */
  predicate Admissible(load: seq<real>, ePV: seq<real>, eHydro: seq<real>, options: Options)
  {
    && |load| > 0 && |ePV| == |load| && |eHydro| == |load|
    && Sum(load) > 0.0
    && options.battery.efficiency > 0.0
    && options.years > 0.0
  }

  /** The simulated trace of a candidate `x = [pv, battery, diesel, hydro]`. */
  function TraceOf(x: seq<real>, load: seq<real>, ePV: seq<real>, eHydro: seq<real>, options: Options): (tr: Trace)
    requires |x| == 4 && options.battery.efficiency > 0.0 && |ePV| == |load| && |eHydro| == |load|
    ensures |tr.batt| == |load| && |tr.diesel| == |load| && |tr.soc| == |load|
  {
    Simulation(PlantOf(x[1], x[2], options.battery), SupplyOf(x[0], x[3], ePV, eHydro), load)
  }

  /**
   * `energy_balance(pv, hydro, battery, diesel, ...)`: the PV and hydro outputs, then the
   * shared simulator loop over their sum.
   */
  method EnergyBalance(pvCapacity: real, hydroCapacity: real, batteryCapacity: real, dieselCapacity: real,
                       load: seq<real>, ePV: seq<real>, eHydro: seq<real>, options: Options)
    returns (eBatt: seq<real>, eDiesel: seq<real>, cBatt: seq<real>)
    requires options.battery.efficiency > 0.0 && |ePV| == |load| && |eHydro| == |load|
    ensures Trace(eBatt, eDiesel, cBatt)
         == Simulation(PlantOf(batteryCapacity, dieselCapacity, options.battery), SupplyOf(pvCapacity, hydroCapacity, ePV, eHydro), load)
  {
    var pvOutput := Scaled(ePV, pvCapacity);
    var hydroOutput := Scaled(eHydro, hydroCapacity);
    var supply := seq(|load|, t requires 0 <= t < |load| => pvOutput[t] + hydroOutput[t]);
    assert supply == SupplyOf(pvCapacity, hydroCapacity, ePV, eHydro);
    var tr := Dispatch.EnergyBalance(PlantOf(batteryCapacity, dieselCapacity, options.battery), supply, load);
    eBatt, eDiesel, cBatt := tr.batt, tr.diesel, tr.soc;
  }

  /** Capacity costs: every capacity times its per-unit installation cost. */
  function CapitalCost(x: seq<real>, options: Options): real
    requires |x| == 4
  {
    x[0] * options.pvCapex + x[1] * options.battery.capex + x[2] * options.diesel.capex + x[3] * options.hydro.capex
  }

  /** Every installation cost and the fuel price are non-negative. */
  predicate NonNegativePrices(options: Options)
  {
    && options.pvCapex >= 0.0 && options.battery.capex >= 0.0 && options.diesel.capex >= 0.0
    && options.hydro.capex >= 0.0 && options.diesel.opex >= 0.0
  }

  /**
   * `cost_func`: levelized cost of energy. With `lf = years * 8760 / T` for `T` simulated
   * hours, the capacity costs are spread over the energy served in the project life, and
   * the fuel bill adds `opex` per unit of diesel energy over the energy served. With
   * non-negative capacities and prices the cost is not negative.
   */
  function CostFunc(x: seq<real>, load: seq<real>, ePV: seq<real>, eHydro: seq<real>, options: Options): (c: real)
    requires |x| == 4 && Admissible(load, ePV, eHydro, options)
    ensures (forall j :: 0 <= j < 4 ==> x[j] >= 0.0) && NonNegativePrices(options) ==> c >= 0.0
  {
    var diesel := Sum(TraceOf(x, load, ePV, eHydro, options).diesel);
    assert (forall j :: 0 <= j < 4 ==> x[j] >= 0.0) && NonNegativePrices(options) ==> diesel >= 0.0 && CapitalCost(x, options) >= 0.0 by {
      if (forall j :: 0 <= j < 4 ==> x[j] >= 0.0) && NonNegativePrices(options) {
        DieselEnergyNonNegative(x, load, ePV, eHydro, options);
        CapitalCostNonNegative(x, options);
      }
    }
    Levelized(CapitalCost(x, options), diesel, options.diesel.opex, Sum(load), LoadFactor(options.years, |load|))
  }

  lemma DieselEnergyNonNegative(x: seq<real>, load: seq<real>, ePV: seq<real>, eHydro: seq<real>, options: Options)
    requires |x| == 4 && options.battery.efficiency > 0.0 && |ePV| == |load| && |eHydro| == |load| && x[2] >= 0.0
    ensures Sum(TraceOf(x, load, ePV, eHydro, options).diesel) >= 0.0
  {
    TraceOutputsBounded(PlantOf(x[1], x[2], options.battery), SupplyOf(x[0], x[3], ePV, eHydro), load);
    SumNonNegative(TraceOf(x, load, ePV, eHydro, options).diesel);
  }

  lemma CapitalCostNonNegative(x: seq<real>, options: Options)
    requires |x| == 4 && forall j :: 0 <= j < 4 ==> x[j] >= 0.0
    requires options.pvCapex >= 0.0 && options.battery.capex >= 0.0 && options.diesel.capex >= 0.0
    requires options.hydro.capex >= 0.0
    ensures CapitalCost(x, options) >= 0.0
  {
    MulNonNegative(x[0], options.pvCapex);
    MulNonNegative(x[1], options.battery.capex);
    MulNonNegative(x[2], options.diesel.capex);
    MulNonNegative(x[3], options.hydro.capex);
  }

  /** `E_batt[t] + E_diesel[t] + pv * E_PV[t] + hydro * E_Hydro[t] - E_load[t]`. */
  function Margin(x: seq<real>, load: seq<real>, ePV: seq<real>, eHydro: seq<real>, options: Options, t: nat): real
    requires |x| == 4 && options.battery.efficiency > 0.0 && |ePV| == |load| && |eHydro| == |load| && t < |load|
  {
    var tr := TraceOf(x, load, ePV, eHydro, options);
    tr.batt[t] + tr.diesel[t] + x[0] * ePV[t] + x[3] * eHydro[t] - load[t]
  }

  /** `demand_constraint`: the smallest hourly margin, attained in some hour. */
  function DemandConstraint(x: seq<real>, load: seq<real>, ePV: seq<real>, eHydro: seq<real>, options: Options): (m: real)
    requires |x| == 4 && options.battery.efficiency > 0.0 && |load| > 0 && |ePV| == |load| && |eHydro| == |load|
    ensures exists t :: 0 <= t < |load| && m == Margin(x, load, ePV, eHydro, options, t)
    ensures forall t :: 0 <= t < |load| ==> m <= Margin(x, load, ePV, eHydro, options, t)
  {
    var plant := PlantOf(x[1], x[2], options.battery);
    var supply := SupplyOf(x[0], x[3], ePV, eHydro);
    var r := Residuals(plant, supply, load);
    assert forall t :: 0 <= t < |load| ==> r[t] == Margin(x, load, ePV, eHydro, options, t);
    MinOf(r)
  }

  /** `constrained_cost`: infinite when the smallest margin is below the tolerance, `cost_func` otherwise. */
  function ConstrainedCost(x: seq<real>, load: seq<real>, ePV: seq<real>, eHydro: seq<real>, options: Options): (s: Score)
    requires |x| == 4 && Admissible(load, ePV, eHydro, options)
    ensures s == Inf <==> DemandConstraint(x, load, ePV, eHydro, options) < -PENALTY_TOLERANCE
    ensures s != Inf ==> s == Fin(CostFunc(x, load, ePV, eHydro, options))
  {
    Penalized(DemandConstraint(x, load, ePV, eHydro, options), CostFunc(x, load, ePV, eHydro, options))
  }

  /**
   * With the charge starting in its band and a non-negative diesel capacity, a candidate
   * is rejected exactly when in some hour the deficit left by the battery exceeds the
   * diesel capacity by more than the tolerance; an accepted candidate whose diesel covers
   * every deficit serves every hour to within `DIESEL_EPSILON`.
   */
  lemma ConstrainedCostRejects(x: seq<real>, load: seq<real>, ePV: seq<real>, eHydro: seq<real>, options: Options)
    requires |x| == 4 && Admissible(load, ePV, eHydro, options)
    requires BatteryInRange(PlantOf(x[1], x[2], options.battery)) && x[2] >= 0.0
    ensures var plant := PlantOf(x[1], x[2], options.battery);
      var supply := SupplyOf(x[0], x[3], ePV, eHydro);
      ((ConstrainedCost(x, load, ePV, eHydro, options) == Inf)
        <==> exists t :: 0 <= t < |load| && HourAt(plant, supply, load, t).residual < -(x[2] + PENALTY_TOLERANCE))
    ensures var plant := PlantOf(x[1], x[2], options.battery);
      var supply := SupplyOf(x[0], x[3], ePV, eHydro);
      (forall t :: 0 <= t < |load| ==> HourAt(plant, supply, load, t).residual >= -x[2])
        ==> forall t :: 0 <= t < |load| ==> Margin(x, load, ePV, eHydro, options, t) >= -DIESEL_EPSILON
  {
    var plant := PlantOf(x[1], x[2], options.battery);
    var supply := SupplyOf(x[0], x[3], ePV, eHydro);
    var r := Residuals(plant, supply, load);
    MarginBelowTolerance(plant, supply, load);
    assert forall t :: 0 <= t < |load| ==> r[t] == Margin(x, load, ePV, eHydro, options, t);
    assert DemandConstraint(x, load, ePV, eHydro, options) == MinOf(r);
  }

  /** The objective handed to the optimizer: `constrained_cost` on four-dimensional candidates. */
  function ConstrainedObjective(load: seq<real>, ePV: seq<real>, eHydro: seq<real>, options: Options): seq<real> -> Score
  {
    x => if |x| == 4 && Admissible(load, ePV, eHydro, options) then ConstrainedCost(x, load, ePV, eHydro, options) else Inf
  }

  lemma ObjectiveIsConstrainedCost(load: seq<real>, ePV: seq<real>, eHydro: seq<real>, options: Options, x: seq<real>)
    requires |x| == 4 && Admissible(load, ePV, eHydro, options)
    ensures ConstrainedObjective(load, ePV, eHydro, options)(x) == ConstrainedCost(x, load, ePV, eHydro, options)
  {
  }

  /** `[[0, 1000], [0, 5000], [0, 1000], [0, hydro.max]]`. */
  function Bounds(options: Options): (b: seq<Bound>)
    ensures |b| == 4
  {
    [Bound(0.0, 1000.0), Bound(0.0, 5000.0), Bound(0.0, 1000.0), Bound(0.0, options.hydro.max)]
  }

  /** Mutation 0.5, recombination 0.7, 500 individuals, 5000 generations, tolerance 1e-8. */
  function Settings(options: Options): (cfg: Config)
    ensures cfg.bounds == Bounds(options) && cfg.popSize == 500 && cfg.maxIter == 5000
  {
    Config(Bounds(options), 0.5, 0.7, 500, 5000, 0.00000001)
  }

  /**
   * The report on the vector `solution`: its capacities, the PV and hydro outputs at those
   * capacities, its simulated trace, the load, and its `cost_func` value.
   */
  ghost function Reported(solution: seq<real>, params: OptimizationParams): OptimizationResult
    requires |solution| == 4 && Admissible(params.load, params.pv, params.hydro, params.options)
  {
    var tr := TraceOf(solution, params.load, params.pv, params.hydro, params.options);
    OptimizationResult(Capacity(solution[0], solution[1], solution[2], solution[3]),
                       Scaled(params.pv, solution[0]), Scaled(params.hydro, solution[3]),
                       tr.batt, tr.diesel, tr.soc, params.load,
                       CostFunc(solution, params.load, params.pv, params.hydro, params.options))
  }

  /**
   * The second half of `optimize_capacity`: simulate the chosen vector again, passing its
   * entries in the simulator's order `(pv, hydro, battery, diesel)`, and report its
   * capacities, traces and `cost_func` value.
   */
  method Report(solution: seq<real>, params: OptimizationParams) returns (result: OptimizationResult)
    requires |solution| == 4 && Admissible(params.load, params.pv, params.hydro, params.options)
    ensures result == Reported(solution, params)
  {
    var options := params.options;
    var pv, battery, diesel, hydro := solution[0], solution[1], solution[2], solution[3];
    var eBatt, eDiesel, cBatt := EnergyBalance(pv, hydro, battery, diesel, params.load, params.pv, params.hydro, options);
    var cost := CostFunc(solution, params.load, params.pv, params.hydro, options);
    result := OptimizationResult(Capacity(pv, battery, diesel, hydro),
                                 Scaled(params.pv, pv), Scaled(params.hydro, hydro),
                                 eBatt, eDiesel, cBatt, params.load, cost);
  }

  /**
   * `optimize_capacity`: run the optimizer on the penalized objective over the box
   * `[0, 1000] x [0, 5000] x [0, 1000] x [0, hydro.max]` and report the best vector,
   * its traces and its `cost_func` value, the latter even when its penalized score is
   * infinite.
   */
  method OptimizeCapacity(params: OptimizationParams, draws: nat -> real) returns (result: OptimizationResult)
    requires UnitDraws(draws) && Admissible(params.load, params.pv, params.hydro, params.options)
    ensures result == Reported(Outcome(Settings(params.options), ConstrainedObjective(params.load, params.pv, params.hydro, params.options), draws).0, params)
    ensures var options := params.options;
      var (best, score) := Outcome(Settings(options), ConstrainedObjective(params.load, params.pv, params.hydro, options), draws);
      && score == ConstrainedCost(best, params.load, params.pv, params.hydro, options)
      && (score != Inf ==> score == Fin(result.cost))
    ensures 0.0 <= result.capacity.pv <= 1000.0 && 0.0 <= result.capacity.battery <= 5000.0
    ensures 0.0 <= result.capacity.diesel <= 1000.0
    ensures params.options.hydro.max >= 0.0 ==> 0.0 <= result.capacity.hydro <= params.options.hydro.max
  {
    var options := params.options;
    var cfg := Settings(options);
    var f := ConstrainedObjective(params.load, params.pv, params.hydro, options);
    var solution, score, _, _ := DifferentialEvolution(f, cfg, draws);
    OutcomeInBox(cfg, f, draws);
    ObjectiveIsConstrainedCost(params.load, params.pv, params.hydro, options, solution);
    result := Report(solution, params);
  }
}
