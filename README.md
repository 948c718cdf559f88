# Mini-grid sizing engine, demand bookkeeping and hydro lookups, in Dafny

This project models the computational core of a mini-grid planning tool. The tool sizes
a village power system (PV, battery, diesel and, in the browser copy, hydro), builds
appliance demand profiles, looks up river flows for the nearest gauging station, and
filters monetary input in the dashboard's form fields.

- **Hourly energy balance** (`Dispatch`). A simulator dispatches each hour's surplus into
  the battery. A deficit is drawn from the battery down to a reserve floor, and then from
  diesel up to its capacity. Every copy of the sizing engine shares this model. Each copy
  only supplies its own per-hour supply series and battery constants:
  - `Worker`: the browser worker, four capacities including hydro;
  - `Fixed`, `CapacityPy` and `IndexTs`: the Python service and the older browser module,
    three capacities with constants in the file.
- **Objective** (`Objective`). The levelized cost of energy, with a load factor that
  scales the horizon to the simulation years. The demand check takes the smallest hourly
  residual. The penalized cost is infinite when that residual falls below `-0.0001`.
- **Differential evolution** (`Evolution`, `Optimizer`). The search that minimizes the
  penalized cost. `Evolution` states it as functions of an injected stream of random draws:
  - initial population;
  - mutation indices drawn without replacement;
  - mutant, binomial crossover and clamping to the bounds;
  - greedy in-place selection;
  - stop on convergence or on the generation limit;
  - first best member.

  `Optimizer` is the loop-based method, proved equal to those functions.
- **Appliance bookkeeping** (`Ramp`). The deterministic part of the stochastic appliance
  model:
  - day type and peak-window tests;
  - an `Appliance` class whose methods update its windows, variability, daily-use profile
    and free switch-on spots;
  - randomised windows and total time of use;
  - coincident switch-on counts;
  - the carving of a switch-on event out of the free spots.
- **Hydro lookups** (`Stations`, `HydroPy`, `HydroTs`). The closest gauging station, then:
  - the Python copy reads the daily normalised flow of the same day one year (364 days)
    earlier and repeats it for the 24 hours;
  - the browser copy reads the monthly z-score of each day's month.
- **Monetary field** (`TextInput`). The filter that keeps digits and decimal points, and
  the starting value of the field.

Quantities are reals. An infinite penalty is the score `Inf`. Random draws, the haversine
distance, the calendar and the river-flow tables are parameters.

## Model

| member | source | states |
|---|---|---|
| Numeric.Trunc | model/demand/ramp_slim.py:1661 | `int()` truncates toward zero: the result is within one of `x`, on the side of zero |
| Numeric.Ceil | model/demand/ramp_slim.py:1777-1781 | `math.ceil` is the least integer not below `x` |
| Numeric.MinOf | app/optimization/optimizeWorker.ts:149 | `Math.min` of a non-empty series is one of its elements and no element is smaller |
| Numeric.MinOfBelow | app/optimization/optimizeWorker.ts:160-161 | the smallest residual is below a threshold exactly when some residual is |
| Numeric.SumNonNegative | app/optimization/optimizeWorker.ts:119 | summing non-negative energies gives a non-negative total |
| Scores.BelowIsStrictTotalOrder | app/optimization/optimizeWorker.ts:244 | comparing scores that may be `Infinity` is irreflexive, asymmetric, transitive and total |
| Scores.Below | app/optimization/optimizeWorker.ts:244 | `trialScore < scores[i]` with `Infinity`: an infinite score is below nothing, a finite one is below `Infinity`, and finite scores compare by value |
| Scores.Converged | app/optimization/optimizeWorker.ts:208-214 | the spread test holds exactly when every score is finite and every two scores differ by less than the tolerance |
| Scores.Smallest | app/optimization/optimizeWorker.ts:208 | the best score is a score of the population and none is lower |
| Scores.Largest | app/optimization/optimizeWorker.ts:209 | the worst score is a score of the population and none is higher |
| Scores.FirstIndexOf | app/optimization/optimizeWorker.ts:251 | `indexOf` finds the first position holding the value |
| Scores.InfiniteScoreNeverConverges | app/optimization/optimizeWorker.ts:208-214 | while any member is infeasible (score `Infinity`) the spread test never stops the search |
| Dispatch.SurplusHour | app/optimization/optimizeWorker.ts:56-59 | an hour with surplus charges the battery by at most efficiency times surplus, never above capacity, and never lowers a charge that was within capacity; it draws no battery or diesel energy |
| Dispatch.DeliveredWithinDeficit | app/optimization/optimizeWorker.ts:63-67 | the energy the battery delivers never exceeds the deficit it covers |
| Dispatch.BatteryHour | app/optimization/optimizeWorker.ts:56-70 | the battery never runs diesel; a surplus hour charges up to capacity, draws nothing and leaves the surplus as residual; a deficit hour delivers between zero and the deficit and leaves a residual deficit (or none) |
| Dispatch.DispatchHour | app/optimization/optimizeWorker.ts:56-74 | the battery part is the battery hour; diesel runs only when the residual deficit exceeds `1e-7`, never delivers more than that deficit, and stays within [0, capacity] |
| Dispatch.DeficitHourAboveFloor | app/optimization/optimizeWorker.ts:62-69 | with the charge at or above the reserve floor, discharging keeps it between the floor and its old value |
| Dispatch.DeficitHourBelowFloor | app/optimization/optimizeWorker.ts:62-69 | with the charge below the floor, the battery delivers nothing and keeps its charge |
| Dispatch.DieselHour | app/optimization/optimizeWorker.ts:72-74 | diesel runs only for a residual deficit beyond `1e-7`, then covers it up to its capacity |
| Dispatch.Simulation | app/optimization/optimizeWorker.ts:47-49 | the battery, diesel and state-of-charge series have one entry per hour of load |
| Dispatch.BatteryStep | app/optimization/optimizeWorker.ts:56-70 | the battery part of one hour of the loop computes the specified battery hour |
| Dispatch.DispatchStep | app/optimization/optimizeWorker.ts:56-74 | one iteration of the hour loop, battery then diesel, computes the specified hour's charge, battery and diesel output |
| Dispatch.EnergyBalance | app/optimization/optimizeWorker.ts:35-79 | the three arrays the loop fills are exactly the specified hourly trace |
| Dispatch.FillHours | app/optimization/optimizeWorker.ts:53-76 | the in-place loop writes, at every hour `t`, the battery, diesel and charge of the hour dispatched from the charge the earlier hours left |
| Dispatch.StartInBand | app/optimization/optimizeWorker.ts:50-51 | with fractions in [0,1], the starting charge lies between the reserve floor and the capacity |
| Dispatch.HourKeepsBand | app/optimization/optimizeWorker.ts:56-70 | an hour that starts between floor and capacity ends between them |
| Dispatch.SocStaysInBand | app/optimization/optimizeWorker.ts:50-75 | the charge stays between the floor and the capacity throughout the horizon |
| Dispatch.TraceSocInBand | app/optimization/optimizeWorker.ts:75 | every recorded state of charge lies between the floor and the capacity |
| Dispatch.TraceOutputsBounded | app/optimization/optimizeWorker.ts:56-74 | battery output is non-negative, at most the deficit, zero in surplus hours; diesel output lies in [0, capacity] |
| Dispatch.HourResidual | app/optimization/optimizeWorker.ts:145-148 | an hour's residual is below `-tol` exactly when its post-battery deficit exceeds diesel capacity by more than `tol`; an hour diesel can cover has residual at least `-1e-7` |
| Dispatch.TraceResidual | app/optimization/optimizeWorker.ts:145-148 | the same equivalence for every hour of a simulated horizon |
| Objective.LoadFactor | app/optimization/optimizeWorker.ts:112-113 | the load factor is positive and scales the horizon's hours to the simulation years |
| Objective.Levelized | app/optimization/optimizeWorker.ts:114-120 | the cost per unit of energy is capital per scaled demand plus fuel per unit of load, and is non-negative for non-negative inputs |
| Objective.LevelizedSplit | app/optimization/optimizeWorker.ts:114-120 | the source's single quotient equals that split form |
| Objective.Scaled | model/capacity.py:138-140 | numpy's element-wise product scales every element |
| Objective.SumScaled | model/capacity.py:138-140 | summing a scaled series is scaling its sum |
| Objective.Residuals | app/optimization/optimizeWorker.ts:145-148 | one residual per hour: delivered battery, diesel and generation minus load |
| Objective.Penalized | app/optimization/optimizeWorker.ts:160-165 | the score is `Infinity` exactly when the margin is below `-0.0001`, the cost otherwise |
| Objective.MarginBelowTolerance | app/optimization/optimizeWorker.ts:145-165 | a design is penalized exactly when some hour's deficit after the battery exceeds diesel capacity by more than the tolerance |
| Evolution.Clamp | app/optimization/optimizeWorker.ts:237 | clamping lands inside the bound and leaves inside values unchanged |
| Evolution.PickIndex | app/optimization/optimizeWorker.ts:173 | `Math.floor(Math.random() * len)` is a valid index |
| Evolution.Sample | app/optimization/optimizeWorker.ts:169-177 | `randomSample` returns `min(k, len)` elements |
| Evolution.SampleFrom | app/optimization/optimizeWorker.ts:172-175 | every sampled element comes from the array |
| Evolution.SampleOntoIsSample | app/optimization/optimizeWorker.ts:172-175 | the splice loop started on earlier picks extends those picks by a sample |
| Evolution.SampleDistinct | app/optimization/optimizeWorker.ts:169-177 | sampling distinct elements gives distinct elements: no index is drawn twice |
| Evolution.RandomSample | app/optimization/optimizeWorker.ts:169-177 | the splice loop computes the sample and consumes one draw per pick |
| Evolution.OthersThan | app/optimization/optimizeWorker.ts:218 | the candidate list holds every member index except `i`, once each |
| Evolution.MutationIndices | app/optimization/optimizeWorker.ts:217-219 | `a`, `b`, `c` are three distinct members other than `i` |
| Evolution.Mutant | app/optimization/optimizeWorker.ts:222-226 | the mutant has one entry per parameter |
| Evolution.Crossover | app/optimization/optimizeWorker.ts:229-232 | each trial entry comes from the mutant or the current member |
| Evolution.ClampAll | app/optimization/optimizeWorker.ts:235-238 | the clamped trial lies inside the bounds |
| Evolution.Trial | app/optimization/optimizeWorker.ts:216-238 | a trial vector always lies inside the bounds |
| Evolution.Turn | app/optimization/optimizeWorker.ts:240-247 | one member's turn keeps the population's shape |
| Evolution.Sweep | app/optimization/optimizeWorker.ts:216-248 | a generation keeps the population's shape |
| Evolution.Evolve | app/optimization/optimizeWorker.ts:207-249 | the generations keep the population's shape |
| Evolution.Uniform | app/optimization/optimizeWorker.ts:198 | `lower + random * (upper - lower)` lies in [lower, upper) |
| Evolution.InitialMember | app/optimization/optimizeWorker.ts:195-200 | an initial member has one value per parameter, inside its bound |
| Evolution.InitialPopulation | app/optimization/optimizeWorker.ts:193-205 | the initial population has the configured size, lies in the bounds and carries each member's true score |
| Evolution.Final | app/optimization/optimizeWorker.ts:193-249 | the last population keeps the configured shape |
| Evolution.BestIndex | app/optimization/optimizeWorker.ts:251 | the best index is a member of the population |
| Evolution.Outcome | app/optimization/optimizeWorker.ts:251-255 | the returned solution has one value per parameter |
| Evolution.TurnSelection | app/optimization/optimizeWorker.ts:243-247 | the trial replaces member `i` exactly when it scores strictly lower; nothing else changes |
| Evolution.TurnKeeps | app/optimization/optimizeWorker.ts:240-247 | a turn keeps every score equal to its member's cost and every member inside the bounds |
| Evolution.SweepKeepsScored | app/optimization/optimizeWorker.ts:216-248 | after a generation each score is still its member's cost |
| Evolution.SweepKeepsBounded | app/optimization/optimizeWorker.ts:234-238 | after a generation every member is still inside the bounds |
| Evolution.SweepNoWorse | app/optimization/optimizeWorker.ts:243-247 | no member's score gets worse in a generation |
| Evolution.EvolveStep | app/optimization/optimizeWorker.ts:207-214 | the search stops at the iteration limit or on the test, and otherwise runs one more generation |
| Evolution.EvolveKeepsScored | app/optimization/optimizeWorker.ts:207-249 | scores stay equal to their members' costs through all generations |
| Evolution.EvolveKeepsBounded | app/optimization/optimizeWorker.ts:207-249 | members stay inside the bounds through all generations |
| Evolution.EvolveNoWorse | app/optimization/optimizeWorker.ts:207-249 | no member's score ever gets worse |
| Evolution.EvolveStopsEarlyOnlyOnTest | app/optimization/optimizeWorker.ts:207-214 | the search runs at most the generation limit, and stops sooner only when the stop test holds |
| Evolution.InitialInBox | app/optimization/optimizeWorker.ts:194-200 | each initial coordinate lies within its bound |
| Evolution.BestOf | app/optimization/optimizeWorker.ts:251-255 | the reported best member is the first with the lowest score, lies in the bounds and carries its own cost |
| Evolution.EvolveResult | app/optimization/optimizeWorker.ts:207-255 | the best member found scores no worse than any initial member |
| Evolution.OutcomeProperties | app/optimization/optimizeWorker.ts:251-255 | the returned solution is a member of the last population, has the lowest score of it and is no worse than any initial member |
| Evolution.OutcomeInBox | app/optimization/optimizeWorker.ts:251-255 | the returned solution lies in the bounds and its returned score is its cost |
| Evolution.FinalGenerations | app/optimization/optimizeWorker.ts:207-214 | the search runs at most `maxIter` generations and stops earlier only on a converged population |
| Evolution.StopsEarlyOnlyOnConvergence | app/optimization/optimizeWorker.ts:207-214 | with the spread test as stop test, an early stop means the population converged |
| Optimizer.InitialIndividual | app/optimization/optimizeWorker.ts:195-200 | the per-parameter loop builds the specified initial member |
| Optimizer.ScoreAll | app/optimization/optimizeWorker.ts:205 | each score is the cost of its member, with one objective evaluation per member |
| Optimizer.InitializePopulation | app/optimization/optimizeWorker.ts:193-205 | the loop builds the specified initial population with `popSize` evaluations |
| Optimizer.MutantVector | app/optimization/optimizeWorker.ts:222-226 | the loop computes `pop[a] + F * (pop[b] - pop[c])` element by element |
| Optimizer.CrossoverVector | app/optimization/optimizeWorker.ts:229-232 | the loop computes the specified crossover, one draw per parameter |
| Optimizer.ClampInPlace | app/optimization/optimizeWorker.ts:235-238 | the in-place loop clamps every entry to its bound |
| Optimizer.BuildTrial | app/optimization/optimizeWorker.ts:217-238 | indices, mutant, crossover and clamp build the specified trial |
| Optimizer.Challenge | app/optimization/optimizeWorker.ts:216-247 | one member's turn updates the population as specified, with one evaluation |
| Optimizer.Generation | app/optimization/optimizeWorker.ts:216-248 | the loop over members performs the specified generation in place, with `popSize` evaluations |
| Optimizer.HasConverged | app/optimization/optimizeWorker.ts:208-214 | the spread test is the convergence stop test |
| Optimizer.RunGenerations | app/optimization/optimizeWorker.ts:207-249 | the generation loop computes the specified last population; it runs at most `maxIter` generations, fewer only when the stop test holds, with `popSize` evaluations each |
| Optimizer.DifferentialEvolution | app/optimization/optimizeWorker.ts:180-256 | the search returns the specified best solution and score, after at most `maxIter` generations and exactly `(1 + generations) * popSize` evaluations, at most `popSize * (maxIter + 1)` |
| Worker.PlantOf | app/optimization/optimizeWorker.ts:50-51 | the simulated battery takes its capacities and its fractions from the options |
| Worker.SupplyOf | app/optimization/optimizeWorker.ts:45-54 | the hourly supply is PV output plus hydro output |
| Worker.TraceOf | app/optimization/optimizeWorker.ts:35-79 | the trace of a design has one entry per hour |
| Worker.CostFunc | app/optimization/optimizeWorker.ts:82-121 | `cost_func` is non-negative for non-negative capacities and non-negative capex and diesel prices |
| Worker.EnergyBalance | app/optimization/optimizeWorker.ts:35-79 | `energy_balance` returns the hourly battery, diesel and charge series of the shared simulator |
| Worker.DieselEnergyNonNegative | app/optimization/optimizeWorker.ts:100-119 | the diesel energy of a design is non-negative |
| Worker.CapitalCostNonNegative | app/optimization/optimizeWorker.ts:94-97 | non-negative capacities and capex give non-negative capital cost |
| Worker.DemandConstraint | app/optimization/optimizeWorker.ts:124-150 | the constraint value is the smallest hourly margin |
| Worker.ConstrainedCost | app/optimization/optimizeWorker.ts:153-166 | the score is `Infinity` exactly when the constraint is below `-0.0001`, the cost otherwise |
| Worker.ConstrainedCostRejects | app/optimization/optimizeWorker.ts:153-166 | a design is rejected exactly when diesel cannot cover some hour's remaining deficit within the tolerance |
| Worker.ObjectiveIsConstrainedCost | app/optimization/optimizeWorker.ts:273-285 | the objective passed to the search is `constrained_cost` with the parameters bound |
| Worker.Bounds | app/optimization/optimizeWorker.ts:265-270 | four bounds: PV, battery, diesel and the options' hydro maximum |
| Worker.Settings | app/optimization/optimizeWorker.ts:273-285 | the search runs 500 members for at most 5000 generations |
| Worker.Report | app/optimization/optimizeWorker.ts:286-317 | the report carries the solution's capacities and the trace it produces |
| Worker.OptimizeCapacity | app/optimization/optimizeWorker.ts:259-318 | the reported design is the search's best one, its score is its constrained cost, and its capacities lie in their bounds |
| Fixed.PlantOf | model/capacity.py:47-51 | the battery takes the fixed initial charge and discharge fractions |
| Fixed.PlantInRange | model/capacity.py:47-51 | with the efficiency's square the round-trip 0.95, the battery satisfies the band assumptions |
| Fixed.SupplyOf | model/capacity.py:77 | the hourly supply is the PV output |
| Fixed.TraceOf | model/capacity.py:67-105 | the trace of a design has one entry per hour |
| Fixed.EnergyBalance | model/capacity.py:67-105 | the loop returns the trace of the shared simulator |
| Fixed.CapitalCostNonNegative | model/capacity.py:121-123 | non-negative capacities give non-negative capital cost |
| Fixed.DieselEnergyNonNegative | model/capacity.py:126-138 | the diesel energy of a design is non-negative |
| Fixed.DemandConstraint | model/capacity.py:144-158 | the constraint value is the smallest hourly margin |
| Fixed.DemandConstraintRejects | model/capacity.py:144-175 | the constraint falls below `-0.0001` exactly when diesel cannot cover some hour's remaining deficit |
| Fixed.Bounds | model/capacity.py:247 | three bounds: PV 0-1000, battery 0-5000, diesel 0-1000 |
| Fixed.Settings | model/capacity.py:250-252 | 15 members, at most 5000 generations, tolerance `1e-7` |
| Fixed.Report | model/capacity.py:253-274 | the report carries the solution's capacities and its trace |
| CapacityPy.ElementwiseCost | model/capacity.py:132-140 | the numpy element-wise form (capital over the scaled load plus fuel over the load) equals the levelized cost of the summed diesel and load |
| CapacityPy.ScaledSums | model/capacity.py:138-140 | summing the scaled diesel and load series scales their sums |
| CapacityPy.CostFunc | model/capacity.py:108-140 | `cost_func` is the levelized cost of the design's capital and diesel energy over 15 years, and is non-negative for non-negative capacities |
| CapacityPy.ConstrainedCost | model/capacity.py:161-175 | infinite exactly when the constraint is below `-0.0001`, the cost otherwise |
| CapacityPy.ConstrainedCostRejects | model/capacity.py:161-175 | a design is rejected exactly when diesel cannot cover some hour's deficit within the tolerance |
| CapacityPy.OptimizeCapacity | model/capacity.py:246-274 | the reported design is the search's best one, the score the search returns is its constrained cost, and its capacities lie within the bounds |
| IndexTs.CostFunc | app/optimization/index.ts:64-85 | `costFunc` is non-negative for non-negative capacities |
| IndexTs.ConstrainedCost | app/optimization/index.ts:106-113 | infinite exactly when the constraint is below `-0.0001`, the cost otherwise |
| IndexTs.ConstrainedCostRejects | app/optimization/index.ts:106-113 | a design is rejected exactly when diesel cannot cover some hour's deficit within the tolerance |
| IndexTs.OptimizeCapacity | app/optimization/index.ts:206-248 | the reported design is the search's best one, the score the search returns is its constrained cost, and its capacities lie within the bounds |
| Ramp.Weekday | model/demand/ramp_slim.py:30 | a day's weekday is in 0-6 |
| Ramp.GetDayType | model/demand/ramp_slim.py:24-34 | the day type is 0 or 1 |
| Ramp.DayTypeWeekly | model/demand/ramp_slim.py:24-34 | Saturday and Sunday are type 1, and the type repeats every seven days |
| Ramp.WithinPeakTimeWindow | model/demand/ramp_slim.py:37-46 | `within_peak_time_window` answers as `range_within_window` does for the peak window, and for an ordered range says overlap exactly when the ranges share a minute |
| Ramp.RangeWithinWindow | model/demand/ramp_slim.py:120-131 | for an ordered range, overlap with the window exactly when they share a minute |
| Ramp.RoundHalfEven | model/demand/ramp_slim.py:1645-1647 | Python's `round` is within one half and breaks ties to even |
| Ramp.FirstHolding | model/demand/ramp_slim.py:1358-1362 | the search stops at the first free spot that holds the event |
| Ramp.Holds | model/demand/ramp_slim.py:1360-1362 | with the corrected test a spot holds the event exactly when all its minutes are in the spot; as written, exactly when they lie in `[start, stop]`, so an event ending on the exclusive `stop` is accepted |
| Ramp.Pieces | model/demand/ramp_slim.py:1363-1384 | carving a held event leaves at most two pieces, inside the spot, the first ending before the second starts |
| Ramp.PiecesCover | model/demand/ramp_slim.py:1363-1384 | a minute is free in the pieces exactly when it is in the spot and not in the event |
| Ramp.Carve | model/demand/ramp_slim.py:1345-1384 | spots are unchanged when no spot holds the event |
| Ramp.CarveCoverage | model/demand/ramp_slim.py:1345-1384 | with the corrected test, the free minutes after carving are the old free minutes less the event's |
| Ramp.CarveKeepsDisjoint | model/demand/ramp_slim.py:1345-1384 | carving keeps the free spots pairwise disjoint |
| Ramp.AsWrittenKeepsEventFree | model/demand/ramp_slim.py:1360-1362 | as written, an event starting at a spot's exclusive end is carved from the wrong spot and stays free |
| Ramp.MarkProfile | model/demand/ramp_slim.py:1272-1280 | filling a window in a window profile gives the profile of one more window |
| Ramp.NonEmptySpots | model/demand/ramp_slim.py:1867-1869 | the free spots are exactly the non-empty randomised windows |
| Ramp.RandTotalTime | model/demand/ramp_slim.py:1635-1667 | the time of use is at least `func_cycle` and within 99% of the windows' length; `ValueError` exactly when the cap falls below the rounded draw and `func_cycle` |
| Ramp.OnNumber | model/demand/ramp_slim.py:1789-1796 | the off-peak count lies in 1..number and is the last step the draw reaches |
| Ramp.LastReached | model/demand/ramp_slim.py:1792-1794 | `np.max(np.where(prob >= array))` is the last grid step at or below the draw |
| Ramp.Reached | model/demand/ramp_slim.py:1792 | `prob >= k / number` is `prob * number >= k` |
| Ramp.Appliance.constructor | model/demand/ramp_slim.py:1076-1109 | a new appliance takes its parameters, a power value per day (a single value repeated, or the series given), empty windows, a zero profile and no free spots |
| Ramp.Appliance.CheckPowerValues | model/demand/ramp_slim.py:1144-1151 | `ValueError` exactly when a non-constant power series is too short; a constant one is extended |
| Ramp.Appliance.ScanWindowTime | model/demand/ramp_slim.py:1262-1268 | the window-time loop fails on a fourth window and otherwise sums the windows' lengths |
| Ramp.Appliance.Windows | model/demand/ramp_slim.py:1193-1297 | the windows are set, the missing-window, attribute and value errors are raised exactly when due and leave the variability and cycle windows as they were; on success the variability and the 0.001 mask follow the windows |
| Ramp.Appliance.MaskWindows | model/demand/ramp_slim.py:1270-1297 | sets the variabilities, the mask profile of the three windows and the fixed-cycle windows |
| Ramp.Appliance.CalcRandWindow | model/demand/ramp_slim.py:1423-1435 | the randomised window stays within the day, and keeps the drawn ends when they lie within it |
| Ramp.Appliance.RandWindows | model/demand/ramp_slim.py:1830-1833 | the three randomised windows are computed from the draws within the whole day |
| Ramp.Appliance.RandTotalTimeOfUse | model/demand/ramp_slim.py:1635-1667 | the appliance's time of use has the bounds and the error case of `RandTotalTime` |
| Ramp.Appliance.CalcCoincidentSwitchOn | model/demand/ramp_slim.py:1758-1802 | `ZeroDivisionError` exactly off-peak for a non-fixed appliance with `number == 0`; otherwise between 1 and `number` switch on together, and all of them when the appliance is fixed |
| Ramp.Appliance.GenerateLoadProfile | model/demand/ramp_slim.py:1804-1869 | a skipped or failed day leaves a zero profile; a flat day fills the randomised windows at its level and keeps the free spots; another day sets the 0.001 mask of the randomised windows and makes its non-empty windows the free spots |
| Ramp.Appliance.ShapeDay | model/demand/ramp_slim.py:1829-1869 | a flat day is filled at `power * number` in the randomised windows; otherwise the mask is set and the free spots are the non-empty windows |
| Ramp.Appliance.DayShape | model/demand/ramp_slim.py:1829-1853 | `ValueError` exactly when the time of use fails or a window to fill ends before it starts; `IndexError` exactly when a flat day has no power value for the day; a flat day's level is that power times `number` |
| Ramp.Appliance.UpdateAvailableTime | model/demand/ramp_slim.py:1345-1384 | the event is carved out of the free spots, with the corrected holding test |
| Ramp.FindSpot | model/demand/ramp_slim.py:1358-1362 | the scan over the free spots finds the first spot holding the event, or none exactly when no spot holds it |
| Ramp.SplitSpot | model/demand/ramp_slim.py:1363-1384 | the chosen spot is replaced in place by its pieces; the other spots keep their order |
| Ramp.Variability | model/demand/ramp_slim.py:1282-1290 | the variability lies between zero and the fraction times the window's length |
| Ramp.MarkWindows | model/demand/ramp_slim.py:1848-1851 | filling windows in turn gives the windows' profile, and fails exactly on a window that ends before it starts |
| Ramp.MaskThree | model/demand/ramp_slim.py:1271-1280 | three successive masks are the mask of the three windows |
| Stations.Distances | model/hydro/index.py:69-76 | one distance per station, in table order |
| Stations.Closest | model/hydro/index.py:68-79 | the scan keeps a valid station index |
| Stations.ClosestIsFirstMinimum | model/hydro/index.py:73-79 | the kept station is the first at the smallest distance |
| Stations.OfStation | model/hydro/index.py:82-85 | the station filter of both lookups (also app/data/hydro.ts:730-731) keeps exactly the records of the chosen station |
| Stations.ClosestStation | app/data/hydro.ts:712-727 | the search loop finds the specified closest station |
| HydroPy.ComparableDate | api/services/utilities.py:9-12 | the comparable date is an earlier day, a whole number of weeks before, less than a year back |
| HydroPy.NormOn | model/hydro/index.py:94-96 | the lookup finds nothing exactly when no record has the date; otherwise the norm of the first record with the date |
| HydroPy.Hourly | model/hydro/index.py:102 | each day's value is repeated for its 24 hours |
| HydroPy.GetHydro | model/hydro/index.py:66-102 | `TypeError` exactly when a day has no record 364 days earlier; otherwise 24 values per day, each the norm of its day |
| HydroTs.JsDate.constructor | app/data/hydro.ts:735 | the copy falls on the same day |
| HydroTs.JsDate.AdvanceDay | app/data/hydro.ts:749 | `setDate(getDate() + 1)` moves to the next day |
| HydroTs.ZScoreOf | app/data/hydro.ts:739 | `find` finds a record exactly when one has the month, and returns its z-score |
| HydroTs.ZScoreOfIsFirst | app/data/hydro.ts:739 | `find` returns the z-score of the first record of the month |
| HydroTs.DailyZScores | app/data/hydro.ts:734-750 | no more entries than days in the span |
| HydroTs.DailyZScoresSound | app/data/hydro.ts:734-750 | at most one entry per day, in day order, inside the span, each with its month's z-score |
| HydroTs.DailyZScoresComplete | app/data/hydro.ts:737-746 | every day whose month has a record has its entry |
| HydroTs.ReadDays | app/data/hydro.ts:734-752 | the day loop yields the specified entries and leaves the start date unchanged |
| HydroTs.GetZScoresForClosestStation | app/data/hydro.ts:690-753 | the entries are the closest station's daily z-scores, and the caller's start date is not mutated |
| TextInput.MoneyFilter | app/components/TextInput.tsx:40 | the filtered text is no longer than the input and holds only digits and points |
| TextInput.MoneyFilterAppend | app/components/TextInput.tsx:40 | filtering a concatenation filters each part, in order |
| TextInput.MoneyFilterKeepsMoney | app/components/TextInput.tsx:40 | text made only of digits and points passes unchanged |
| TextInput.MoneyFilterIdempotent | app/components/TextInput.tsx:40 | filtering twice is filtering once |
| TextInput.MoneyFilterCounts | app/components/TextInput.tsx:40 | each digit or point keeps its number of occurrences; every other character disappears |
| TextInput.MoneyFilterEmpty | app/components/TextInput.tsx:40-43 | the filtered text is empty exactly when the input has no digit or point |
| TextInput.HandleChange | app/components/TextInput.tsx:35-47 | a monetary field stores `""` when nothing survives, else `"$"` plus the filtered text; a plain field stores the input |
| TextInput.HandleChangeStable | app/components/TextInput.tsx:38-43 | handling a monetary field's own value gives that value back |
| TextInput.InitialValue | app/components/TextInput.tsx:26-33 | a truthy default of a monetary field is shown behind `"$"`; otherwise the default is shown as it is |

## Left out

- The worker's message plumbing (app/optimization/optimizeWorker.ts:321-349), console output and React state, effects and rendering are left out; they hold no computation.
- Random numbers (`Math.random`, `random.uniform`, `random.randint`, `random.gauss`, `random_variation`, `switch_on_parameters`) are injected as draws. Python's library `random.sample` is modelled by the same without-replacement sampler as the browser's `randomSample`.
- Floating point is modelled as real arithmetic. `Infinity` appears only as the score `Inf`; NaN is not modelled.
- `CHARGE_EFFICIENCY` (`RTE_BATT ** 0.5`, `Math.sqrt(RTE_BATT)`) is a parameter pinned by its square being 0.95, because a square root is not computable on reals here.
- Worker.CostFunc, CapacityPy.CostFunc and IndexTs.CostFunc require a total load above zero (`Admissible`); the source divides by it and would return NaN or `Infinity` otherwise.
- numpy's dtype behaviour (`np.zeros_like` of an integer load truncating the battery series) is not modelled; all series are reals.
- The haversine `calculateDistance` / `calculate_distance` is a parameter of the station search; trigonometry is not modelled.
- The river-flow tables are parameters: model/hydro/river_flow.py is not part of this model, and the `riverFlow` table in app/data/hydro.ts is passed in.
- Dates are day numbers. `strptime`/`strftime` are a one-to-one naming of days. model/services/utilities.py is not part of this model; `comparable_date` in api/services/utilities.py:9-12 is taken as its definition (364 days earlier).
- A JavaScript `Date` is reduced to its day; `getMonth() + 1` is the parameter `monthOf`. A non-integer `numberOfDays` is not modelled.
- `get_day_type` parses ISO strings; the model takes a day number.
- Ramp.Appliance.Windows: windows are required to lie within the day (`InDay`); numpy's negative-index and past-the-end slicing of other windows is not modelled.
- Ramp.RandTotalTime: the upper bound is stated only when the cap is non-negative, because `int()` truncates toward zero and a negative cap rounds up.
- Ramp.Appliance.GenerateLoadProfile: a `ValueError` raised while the flat or mask windows are being filled leaves the windows already filled in the source; the model reports the failure with a zero profile.
- Ramp.Appliance.constructor: a power series whose length is neither 1 nor `num_days + 1` makes numpy's broadcast raise `ValueError`; a constructor cannot fail here, so the model requires one of those two lengths. Like the source, it marks the power constant in both cases.
- Evolution.MutationIndices: populations of fewer than four members are not modelled. Every member of `Evolution` and `Optimizer` that draws mutation indices requires `4 <= popSize`. With fewer members the browser's `randomSample` returns fewer than three indices and the mutant is computed from `undefined` entries (NaN, which real arithmetic cannot represent), and Python's `random.sample` raises `ValueError`. Every caller passes 15 or 500 members.
- Ramp.CarveCoverage: disjoint free spots are assumed. The randomised windows may overlap: window 1 defaults to the whole day (`np.array([0, 1440])`) when it is not given, so it overlaps any second window. `CarveKeepsDisjoint` shows that carving keeps disjoint spots disjoint, but overlapping spots are not covered.
- Optimizer.DifferentialEvolution: the generation count it returns is bounded by `maxIter` and fixes the evaluation count, but it is not tied to the count `Evolution.Evolve` computes.
- The non-flat switch-on loop of `generate_load_profile` (`rand_switch_on_window`, `update_daily_use`, `assign_random_cycles`, duty and specific cycles) is left out. It is a random-driven loop over numpy arrays beyond the free-spot bookkeeping modelled here.
- `User`, `_add_appliance_instance`, use cases and the profile aggregation are left out; they only assemble appliances.
- The TextInput number-to-text conversion (`String(number)`, `${number}`) is a parameter.
- Selection follows the code. Differential evolution is usually stated with a generation-synchronous update; the code instead replaces member `i` in place, so later members of the same generation may draw the new member as a base vector. The model does the same.

## Findings

| source | as written | input that shows it | evidently intended | confidence | as-written member | corrected member |
|---|---|---|---|---|---|---|
| model/demand/ramp_slim.py:1360-1362 | a free spot holds an event when `indexes[0] >= fs.start and indexes[-1] <= fs.stop`, but a slice's `stop` is exclusive | spots `[slice(0, 5), slice(5, 10)]`, event `[5]`: the first spot is chosen, the event is carved from it, and minute 5 stays free in the second spot | `indexes[-1] < fs.stop` (the spot's last minute is `stop - 1`) | not executed | Ramp.AsWrittenKeepsEventFree | Ramp.CarveCoverage |
