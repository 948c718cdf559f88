/**
 * The imperative `differential_evolution` and `randomSample`-driven trial construction,
 * written as the source writes them: vectors grown coordinate by coordinate, the trial
 * clamped in place, the population and scores updated in place at selection. Each
 * method is proved to compute the functions of `Evolution` that specify it.
 */
module Optimizer {
  import opened Numeric
  import opened Scores
  import opened Evolution

  /** One initial individual, `lower + Math.random() * (upper - lower)` per coordinate, from draw `start` on. */
  method InitialIndividual(bounds: seq<Bound>, draws: nat -> real, start: nat) returns (individual: seq<real>, next: nat)
    requires UnitDraws(draws)
    ensures individual == InitialMember(bounds, draws, start)
    ensures next == start + |bounds|
  {
    ghost var spec := InitialMember(bounds, draws, start);
    individual := [];
    next := start;
    var j := 0;
    while j < |bounds|
      invariant 0 <= j <= |bounds|
      invariant next == start + j
      invariant individual == spec[..j]
    {
      var lower, upper := bounds[j].lower, bounds[j].upper;
      var value := lower + draws(next) * (upper - lower);
      assert value == spec[j];
      individual := individual + [value];
      next := next + 1;
      j := j + 1;
    }
  }

  /**
   * `population.map(ind => objective(ind))`. The ghost `evals` counts the calls of the
   * objective: one per individual.
   */
  method ScoreAll(f: seq<real> -> Score, population: seq<seq<real>>) returns (scores: seq<Score>, ghost evals: nat)
    ensures |scores| == |population|
    ensures forall k :: 0 <= k < |population| ==> scores[k] == f(population[k])
    ensures evals == |population|
  {
    scores := [];
    evals := 0;
    var k := 0;
    while k < |population|
      invariant 0 <= k <= |population|
      invariant |scores| == k && evals == k
      invariant forall m :: 0 <= m < k ==> scores[m] == f(population[m])
    {
      scores := scores + [f(population[k])];
      evals := evals + 1;
      k := k + 1;
    }
  }

  /**
   * The initial population, individual by individual, then every individual scored once
   * (`evals` objective calls). Also yields the position of the next unused draw.
   */
  method InitializePopulation(cfg: Config, f: seq<real> -> Score, draws: nat -> real)
    returns (population: seq<seq<real>>, scores: seq<Score>, next: nat, ghost evals: nat)
    requires UnitDraws(draws)
    ensures Population(population, scores) == InitialPopulation(cfg, f, draws)
    ensures next == cfg.popSize * |cfg.bounds|
    ensures evals == cfg.popSize
  {
    ghost var init := InitialPopulation(cfg, f, draws);
    population := [];
    next := 0;
    var i := 0;
    while i < cfg.popSize
      invariant 0 <= i <= cfg.popSize
      invariant next == i * |cfg.bounds|
      invariant |population| == i
      invariant forall k :: 0 <= k < i ==> population[k] == init.members[k]
    {
      var individual;
      individual, next := InitialIndividual(cfg.bounds, draws, next);
      population := population + [individual];
      MulStep(i, |cfg.bounds|);
      i := i + 1;
    }
    assert population == init.members;
    scores, evals := ScoreAll(f, population);
    assert scores == init.scores;
  }

  /** The mutant vector, `population[a][j] + mutation * (population[b][j] - population[c][j])`. */
  method MutantVector(population: seq<seq<real>>, a: nat, b: nat, c: nat, mutation: real, numParams: nat)
    returns (mutant: seq<real>)
    requires a < |population| && b < |population| && c < |population|
    requires |population[a]| == numParams && |population[b]| == numParams && |population[c]| == numParams
    ensures mutant == Mutant(population, a, b, c, mutation, numParams)
  {
    ghost var spec := Mutant(population, a, b, c, mutation, numParams);
    mutant := [];
    var j := 0;
    while j < numParams
      invariant 0 <= j <= numParams
      invariant mutant == spec[..j]
    {
      assert spec[j] == population[a][j] + mutation * (population[b][j] - population[c][j]);
      mutant := mutant + [population[a][j] + mutation * (population[b][j] - population[c][j])];
      j := j + 1;
    }
  }

  /** `Math.random() < recombination ? mutant[j] : current[j]`, one draw per coordinate from `pos`. */
  method CrossoverVector(mutant: seq<real>, current: seq<real>, recombination: real, draws: nat -> real, pos: nat)
    returns (trial: seq<real>, next: nat)
    requires |mutant| == |current|
    ensures trial == Crossover(mutant, current, recombination, draws, pos)
    ensures next == pos + |mutant|
  {
    ghost var spec := Crossover(mutant, current, recombination, draws, pos);
    trial := [];
    next := pos;
    var j := 0;
    while j < |mutant|
      invariant 0 <= j <= |mutant|
      invariant next == pos + j
      invariant trial == spec[..j]
    {
      trial := trial + [if draws(next) < recombination then mutant[j] else current[j]];
      next := next + 1;
      j := j + 1;
    }
  }

  /** `trial[j] = Math.max(Math.min(trial[j], upper), lower)` for every coordinate, in place. */
  method ClampInPlace(trial0: seq<real>, bounds: seq<Bound>) returns (trial: seq<real>)
    requires |trial0| == |bounds|
    ensures trial == ClampAll(trial0, bounds)
  {
    ghost var spec := ClampAll(trial0, bounds);
    trial := trial0;
    var j := 0;
    while j < |bounds|
      invariant 0 <= j <= |bounds|
      invariant |trial| == |bounds|
      invariant forall k :: 0 <= k < j ==> trial[k] == spec[k]
      invariant forall k :: j <= k < |bounds| ==> trial[k] == trial0[k]
    {
      var lower, upper := bounds[j].lower, bounds[j].upper;
      trial := trial[j := Max(Min(trial[j], upper), lower)];
      j := j + 1;
    }
  }

  /**
   * The trial vector for individual `i`: three distinct other individuals by
   * `randomSample`, the mutant, the crossover with `population[i]`, then every
   * coordinate clamped into its box. Draws `pos ..` are used, and the position after
   * them is returned.
   */
  method BuildTrial(cfg: Config, population: seq<seq<real>>, i: nat, draws: nat -> real, pos: nat)
    returns (trial: seq<real>, next: nat)
    requires UnitDraws(draws) && 4 <= cfg.popSize && i < cfg.popSize
    requires |population| == cfg.popSize && forall k :: 0 <= k < |population| ==> |population[k]| == |cfg.bounds|
    ensures trial == Trial(cfg, population, i, draws, pos)
    ensures next == pos + TurnDraws(cfg)
  {
    var indices := OthersThan(cfg.popSize, i);
    var abc, afterSample := RandomSample(indices, 3, draws, pos);
    assert abc == MutationIndices(cfg.popSize, i, draws, pos);
    assert afterSample == pos + 3;
    var mutant := MutantVector(population, abc[0], abc[1], abc[2], cfg.mutation, |cfg.bounds|);
    var crossed;
    crossed, next := CrossoverVector(mutant, population[i], cfg.recombination, draws, afterSample);
    assert crossed == Crossover(mutant, population[i], cfg.recombination, draws, pos + 3);
    trial := ClampInPlace(crossed, cfg.bounds);
  }

  /**
   * Individual `i`'s turn: build and score its trial, and replace it, vector and score,
   * when the trial's score is strictly lower. `make` is any builder of `Trial`. The
   * objective is called once (`evals`).
   */
  method Challenge(cfg: Config, f: seq<real> -> Score, draws: nat -> real, ghost make: Maker,
                   population0: seq<seq<real>>, scores0: seq<Score>, i: nat, pos: nat)
    returns (population: seq<seq<real>>, scores: seq<Score>, next: nat, ghost evals: nat)
    requires UnitDraws(draws) && 4 <= cfg.popSize && i < cfg.popSize
    requires Sound(cfg, make) && BuildsTrials(cfg, draws, make)
    requires Shaped(cfg, Population(population0, scores0))
    ensures Population(population, scores) == Turn(cfg, f, make, Population(population0, scores0), i, pos)
    ensures next == pos + TurnDraws(cfg)
    ensures evals == 1
  {
    population, scores := population0, scores0;
    var trial;
    trial, next := BuildTrial(cfg, population, i, draws, pos);
    assert make(population, i, pos) == trial;
    var trialScore := f(trial);
    evals := 1;
    if Below(trialScore, scores[i]) {
      population := population[i := trial];
      scores := scores[i := trialScore];
    }
  }

  /**
   * One generation: the turns of individuals `0 .. popSize - 1`, in order, each on the
   * population the previous left; one objective call per turn.
   */
  method Generation(cfg: Config, f: seq<real> -> Score, draws: nat -> real, ghost make: Maker,
                    population0: seq<seq<real>>, scores0: seq<Score>, pos0: nat)
    returns (population: seq<seq<real>>, scores: seq<Score>, next: nat, ghost evals: nat)
    requires UnitDraws(draws) && 4 <= cfg.popSize
    requires Sound(cfg, make) && BuildsTrials(cfg, draws, make)
    requires Shaped(cfg, Population(population0, scores0))
    ensures Population(population, scores) == Sweep(cfg, f, make, Population(population0, scores0), 0, pos0)
    ensures next == pos0 + GenerationDraws(cfg)
    ensures evals == cfg.popSize
  {
    ghost var goal := Sweep(cfg, f, make, Population(population0, scores0), 0, pos0);
    population, scores, next := population0, scores0, pos0;
    evals := 0;
    var i := 0;
    while i < cfg.popSize
      invariant 0 <= i <= cfg.popSize
      invariant next == pos0 + i * TurnDraws(cfg) && evals == i
      invariant Shaped(cfg, Population(population, scores))
      invariant Sweep(cfg, f, make, Population(population, scores), i, next) == goal
    {
      ghost var before, at := Population(population, scores), next;
      SweepStep(cfg, f, make, before, i, at);
      ghost var turnEvals;
      population, scores, next, turnEvals := Challenge(cfg, f, draws, make, population, scores, i, next);
      NextDraws(pos0, i, TurnDraws(cfg), at, next);
      evals := evals + turnEvals;
      i := i + 1;
    }
  }

  /**
   * The early-stopping test, `Math.abs(Math.max(...scores) - Math.min(...scores)) < tol`;
   * it is the stopping test `stop` of the run.
   */
  method HasConverged(scores: seq<Score>, tol: real, ghost stop: Stop) returns (converged: bool)
    requires |scores| > 0 && StopsOnConvergence(tol, stop)
    ensures converged == stop(scores)
  {
    var bestScore := Smallest(scores);
    var worstScore := Largest(scores);
    converged := match (worstScore, bestScore)
      case (Fin(worst), Fin(best)) => Abs(worst - best) < tol
      case _ => false;
    assert converged == Converged(scores, tol);
  }

  /**
   * The generation loop: from iteration 0, stop when `maxIter` generations have run or
   * `stop` holds of the scores (checked before each generation), otherwise run one. The
   * ghost `generations` counts the generations run, `evals` the objective calls.
   */
  method RunGenerations(cfg: Config, f: seq<real> -> Score, draws: nat -> real, ghost make: Maker, ghost stop: Stop,
                        population0: seq<seq<real>>, scores0: seq<Score>, pos0: nat)
    returns (population: seq<seq<real>>, scores: seq<Score>, ghost generations: nat, ghost evals: nat)
    requires UnitDraws(draws) && 4 <= cfg.popSize
    requires Sound(cfg, make) && BuildsTrials(cfg, draws, make) && StopsOnConvergence(cfg.tol, stop)
    requires Shaped(cfg, Population(population0, scores0))
    ensures Population(population, scores) == Evolve(cfg, f, make, stop, Population(population0, scores0), 0, pos0).0
    ensures generations <= cfg.maxIter
    ensures generations < cfg.maxIter ==> stop(scores)
    ensures evals == generations * cfg.popSize
  {
    ghost var last := Evolve(cfg, f, make, stop, Population(population0, scores0), 0, pos0).0;
    population, scores := population0, scores0;
    generations, evals := 0, 0;
    var pos: nat := pos0;
    var iteration := 0;
    while iteration < cfg.maxIter
      invariant 0 <= iteration <= cfg.maxIter
      invariant Shaped(cfg, Population(population, scores))
      invariant Evolve(cfg, f, make, stop, Population(population, scores), iteration, pos).0 == last
      invariant generations == iteration && evals == iteration * cfg.popSize
    {
      var converged := HasConverged(scores, cfg.tol, stop);
      if converged {
        break;
      }
      ghost var before, at := Population(population, scores), pos;
      ghost var generationEvals;
      population, scores, pos, generationEvals := Generation(cfg, f, draws, make, population, scores, pos);
      EvolveAdvance(cfg, f, make, stop, before, Population(population, scores), iteration, at, pos);
      MulStep(iteration, cfg.popSize);
      iteration := iteration + 1;
      generations, evals := generations + 1, evals + generationEvals;
    }
    EvolveStep(cfg, f, make, stop, Population(population, scores), iteration, pos);
  }

  /**
   * `differential_evolution`: initialise and score the population, run the generation
   * loop with convergence to within `tol` as the stopping test, and return the first
   * individual holding the smallest score, with that score. The objective is called
   * `popSize` times for the initial population and `popSize` times per generation run,
   * so at most `popSize * (maxIter + 1)` times.
   */
  method DifferentialEvolution(f: seq<real> -> Score, cfg: Config, draws: nat -> real)
    returns (bestSolution: seq<real>, bestScore: Score, ghost generations: nat, ghost evals: nat)
    requires UnitDraws(draws) && 4 <= cfg.popSize
    ensures (bestSolution, bestScore) == Outcome(cfg, f, draws)
    ensures generations <= cfg.maxIter
    ensures evals == (1 + generations) * cfg.popSize <= (cfg.maxIter + 1) * cfg.popSize
  {
    var population, scores, pos, initEvals := InitializePopulation(cfg, f, draws);
    SomeBuilder(cfg, draws);
    SomeStop(cfg.tol);
    ghost var make: Maker :| TrialBuilder(cfg, draws, make);
    ghost var stop: Stop :| StopsOnConvergence(cfg.tol, stop);
    ghost var runEvals;
    population, scores, generations, runEvals := RunGenerations(cfg, f, draws, make, stop, population, scores, pos);
    var bestIdx := BestIndex(Population(population, scores));
    bestSolution := population[bestIdx];
    bestScore := scores[bestIdx];
    FinalBy(cfg, f, draws, make, stop);
    evals := initEvals + runEvals;
    EvaluationBound(cfg.popSize, generations, cfg.maxIter);
  }

  lemma NextDraws(pos0: nat, i: nat, turn: nat, at: nat, next: nat)
    requires at == pos0 + i * turn && next == at + turn
    ensures next == pos0 + (i + 1) * turn
  {
    MulStep(i, turn);
  }

  lemma MulStep(a: nat, b: nat)
    ensures (a + 1) * b == a * b + b
  {
  }

  /** `popSize` initial calls and `popSize` per generation, for at most `maxIter` generations. */
  lemma EvaluationBound(popSize: nat, generations: nat, maxIter: nat)
    requires generations <= maxIter
    ensures popSize + generations * popSize == (1 + generations) * popSize <= (maxIter + 1) * popSize
  {
    MulStep(generations, popSize);
    MulStep(maxIter, popSize);
    MulMonotoneNat(generations, maxIter, popSize);
  }

  lemma MulMonotoneNat(a: nat, b: nat, c: nat)
    requires a <= b
    ensures a * c <= b * c
  {
  }
}
