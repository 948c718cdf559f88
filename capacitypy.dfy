/**
 * The Python copy of the sizing engine: three decision variables `[pv, battery, diesel]`,
 * module constants for every price and battery parameter, a 15-year project life, and
 * NumPy's element-wise form of the levelized cost.
 */
module CapacityPy {
  import opened Numeric
  import opened Scores
  import opened Dispatch
  import opened Objective
  import opened Evolution
  import opened Optimizer
  import opened Types
  import opened Fixed

  const SIMULATION_YEARS: real := 15.0

  /**
   * NumPy's levelized cost: `(capital + np.sum(diesel * lf * fuel)) / np.sum(load * lf)`,
   * the load factor and the fuel price applied to every hour before summing. Summing after
   * scaling every hour equals scaling the sums, so it is the levelized cost of the other copies.
   */
  function ElementwiseCost(capital: real, diesel: seq<real>, fuel: real, load: seq<real>, lf: real): (c: real)
    requires Sum(load) > 0.0 && lf > 0.0
    ensures c == Levelized(capital, Sum(diesel), fuel, Sum(load), lf)
  {
    ScaledSums(diesel, fuel, load, lf);
    MulPositive(Sum(load), lf);
    (capital + Sum(Scaled(Scaled(diesel, lf), fuel))) / Sum(Scaled(load, lf))
  }

  lemma MulPositive(a: real, b: real)
    requires a > 0.0 && b > 0.0
    ensures a * b > 0.0
  {
  }

  /** The two sums of the element-wise cost, as products of the plain sums. */
  lemma {:induction false} ScaledSums(diesel: seq<real>, fuel: real, load: seq<real>, lf: real)
    ensures Sum(Scaled(Scaled(diesel, lf), fuel)) == Sum(diesel) * lf * fuel
    ensures Sum(Scaled(load, lf)) == Sum(load) * lf
  {
    SumScaled(load, lf);
    SumScaled(diesel, lf);
    SumScaled(Scaled(diesel, lf), fuel);
  }

  /**
   * `cost_func`: the element-wise levelized cost with the load factor of a 15-year life. It is
   * the levelized cost of the TypeScript copies (capital over the energy served in the project
   * life, plus the fuel bill per unit of energy served), and not negative for non-negative
   * capacities.
   */
  function CostFunc(x: seq<real>, load: seq<real>, ePV: seq<real>, efficiency: real): (c: real)
    requires |x| == 3 && efficiency > 0.0 && Admissible(load, ePV)
    ensures c == Levelized(CapitalCost(x), Sum(TraceOf(x, load, ePV, efficiency).diesel), DIESEL_FUEL, Sum(load),
                           LoadFactor(SIMULATION_YEARS, |load|))
    ensures (forall j :: 0 <= j < 3 ==> x[j] >= 0.0) ==> c >= 0.0
  {
    var diesel := TraceOf(x, load, ePV, efficiency).diesel;
    assert (forall j :: 0 <= j < 3 ==> x[j] >= 0.0) ==> Sum(diesel) >= 0.0 && CapitalCost(x) >= 0.0 by {
      if forall j :: 0 <= j < 3 ==> x[j] >= 0.0 {
        DieselEnergyNonNegative(x, load, ePV, efficiency);
        CapitalCostNonNegative(x);
      }
    }
    ElementwiseCost(CapitalCost(x), diesel, DIESEL_FUEL, load, LoadFactor(SIMULATION_YEARS, |load|))
  }

  /** `constrained_cost`: infinite when the smallest margin is below the tolerance, `cost_func` otherwise. */
  function ConstrainedCost(x: seq<real>, load: seq<real>, ePV: seq<real>, efficiency: real): (s: Score)
    requires |x| == 3 && efficiency > 0.0 && Admissible(load, ePV)
    ensures s == Inf <==> DemandConstraint(x, load, ePV, efficiency) < -PENALTY_TOLERANCE
    ensures s != Inf ==> s == Fin(CostFunc(x, load, ePV, efficiency))
  {
    Penalized(DemandConstraint(x, load, ePV, efficiency), CostFunc(x, load, ePV, efficiency))
  }

  /**
   * A candidate with non-negative battery and diesel is rejected exactly when in some hour
   * the deficit left by the battery exceeds the diesel capacity by more than the tolerance.
   */
  lemma ConstrainedCostRejects(x: seq<real>, load: seq<real>, ePV: seq<real>, efficiency: real)
    requires |x| == 3 && ChargeEfficiency(efficiency) && Admissible(load, ePV)
    requires x[1] >= 0.0 && x[2] >= 0.0
    ensures var plant := PlantOf(x[1], x[2], efficiency);
      var supply := SupplyOf(x[0], ePV);
      ((ConstrainedCost(x, load, ePV, efficiency) == Inf)
        <==> exists t :: 0 <= t < |load| && HourAt(plant, supply, load, t).residual < -(x[2] + PENALTY_TOLERANCE))
  {
    DemandConstraintRejects(x, load, ePV, efficiency);
  }

  /** The objective handed to the optimizer: `constrained_cost` on three-dimensional candidates. */
  function ConstrainedObjective(load: seq<real>, ePV: seq<real>, efficiency: real): seq<real> -> Score
  {
    x => if |x| == 3 && efficiency > 0.0 && Admissible(load, ePV) then ConstrainedCost(x, load, ePV, efficiency) else Inf
  }

  /**
   * `optimize_capacity(E_load, E_PV)`: run the optimizer on the penalized objective over
   * `[(0, 1000), (0, 5000), (0, 1000)]` and report the best vector with its traces.
   */
  method OptimizeCapacity(load: seq<real>, ePV: seq<real>, efficiency: real, draws: nat -> real)
    returns (result: SizingResult)
    requires UnitDraws(draws) && ChargeEfficiency(efficiency) && Admissible(load, ePV)
    ensures result == Reported(Outcome(Settings(), ConstrainedObjective(load, ePV, efficiency), draws).0, load, ePV, efficiency)
    ensures Outcome(Settings(), ConstrainedObjective(load, ePV, efficiency), draws).1
         == ConstrainedCost(Outcome(Settings(), ConstrainedObjective(load, ePV, efficiency), draws).0, load, ePV, efficiency)
    ensures 0.0 <= result.capacity.pv <= 1000.0 && 0.0 <= result.capacity.battery <= 5000.0
    ensures 0.0 <= result.capacity.diesel <= 1000.0
  {
    var cfg := Settings();
    var f := ConstrainedObjective(load, ePV, efficiency);
    var solution, score, _, _ := DifferentialEvolution(f, cfg, draws);
    OutcomeInBox(cfg, f, draws);
    result := Report(solution, load, ePV, efficiency);
  }
}
