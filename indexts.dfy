/**
 * The browser copy of the three-dimensional sizing engine: the same constants, simulator
 * and optimizer settings as the Python copy, a 5-year project life, and the cost written
 * with `reduce` sums taken before the load factor is applied.
 */
module IndexTs {
  import opened Numeric
  import opened Scores
  import opened Dispatch
  import opened Objective
  import opened Evolution
  import opened Optimizer
  import opened Types
  import opened Fixed

  const SIMULATION_YEARS: real := 5.0

  /**
   * `cost_func`: the capital cost plus the diesel energy times the load factor times the
   * fuel price, over the load energy times the load factor: not negative for non-negative
   * capacities.
   */
  function CostFunc(x: seq<real>, load: seq<real>, ePV: seq<real>, efficiency: real): (c: real)
    requires |x| == 3 && efficiency > 0.0 && Admissible(load, ePV)
    ensures (forall j :: 0 <= j < 3 ==> x[j] >= 0.0) ==> c >= 0.0
  {
    var diesel := TraceOf(x, load, ePV, efficiency).diesel;
    assert (forall j :: 0 <= j < 3 ==> x[j] >= 0.0) ==> Sum(diesel) >= 0.0 && CapitalCost(x) >= 0.0 by {
      if forall j :: 0 <= j < 3 ==> x[j] >= 0.0 {
        DieselEnergyNonNegative(x, load, ePV, efficiency);
        CapitalCostNonNegative(x);
      }
    }
    Levelized(CapitalCost(x), Sum(diesel), DIESEL_FUEL, Sum(load), LoadFactor(SIMULATION_YEARS, |load|))
  }

  /** `constrained_cost`: infinite when the smallest margin is below the tolerance, `cost_func` otherwise. */
  function ConstrainedCost(x: seq<real>, load: seq<real>, ePV: seq<real>, efficiency: real): (s: Score)
    requires |x| == 3 && efficiency > 0.0 && Admissible(load, ePV)
    ensures s == Inf <==> DemandConstraint(x, load, ePV, efficiency) < -PENALTY_TOLERANCE
    ensures s != Inf ==> s == Fin(CostFunc(x, load, ePV, efficiency))
  {
    Penalized(DemandConstraint(x, load, ePV, efficiency), CostFunc(x, load, ePV, efficiency))
  }

  /**
   * A candidate with non-negative battery and diesel is rejected exactly when in some hour
   * the deficit left by the battery exceeds the diesel capacity by more than the tolerance.
   */
  lemma ConstrainedCostRejects(x: seq<real>, load: seq<real>, ePV: seq<real>, efficiency: real)
    requires |x| == 3 && ChargeEfficiency(efficiency) && Admissible(load, ePV)
    requires x[1] >= 0.0 && x[2] >= 0.0
    ensures var plant := PlantOf(x[1], x[2], efficiency);
      var supply := SupplyOf(x[0], ePV);
      ((ConstrainedCost(x, load, ePV, efficiency) == Inf)
        <==> exists t :: 0 <= t < |load| && HourAt(plant, supply, load, t).residual < -(x[2] + PENALTY_TOLERANCE))
  {
    DemandConstraintRejects(x, load, ePV, efficiency);
  }

  /** The objective handed to the optimizer, with `E_load` and `E_PV` as its extra arguments. */
  function ConstrainedObjective(load: seq<real>, ePV: seq<real>, efficiency: real): seq<real> -> Score
  {
    x => if |x| == 3 && efficiency > 0.0 && Admissible(load, ePV) then ConstrainedCost(x, load, ePV, efficiency) else Inf
  }

  /**
   * `optimize_capacity({ E_load, E_PV })`: run the optimizer with mutation 0.5,
   * recombination 0.7, 15 individuals, 5000 generations and tolerance 1e-7, then simulate
   * the best vector again and report it with its traces.
   */
  method OptimizeCapacity(load: seq<real>, ePV: seq<real>, efficiency: real, draws: nat -> real)
    returns (result: SizingResult)
    requires UnitDraws(draws) && ChargeEfficiency(efficiency) && Admissible(load, ePV)
    ensures result == Reported(Outcome(Settings(), ConstrainedObjective(load, ePV, efficiency), draws).0, load, ePV, efficiency)
    ensures Outcome(Settings(), ConstrainedObjective(load, ePV, efficiency), draws).1
         == ConstrainedCost(Outcome(Settings(), ConstrainedObjective(load, ePV, efficiency), draws).0, load, ePV, efficiency)
    ensures 0.0 <= result.capacity.pv <= 1000.0 && 0.0 <= result.capacity.battery <= 5000.0
    ensures 0.0 <= result.capacity.diesel <= 1000.0
  {
    var cfg := Settings();
    var f := ConstrainedObjective(load, ePV, efficiency);
    var solution, score, _, _ := DifferentialEvolution(f, cfg, draws);
    OutcomeInBox(cfg, f, draws);
    result := Report(solution, load, ePV, efficiency);
  }
}
