/**
 * Box-bounded differential evolution (`differential_evolution`, `randomSample`), shared
 * by the three copies of the sizing engine.
 *
 * Every call of the random number generator is replaced by the next value of an
 * injected stream `draws`, each in `[0, 1)`. The draws are consumed in the program's
 * order: `popSize * D` draws for the initial population (individual by individual,
 * coordinate by coordinate), then per individual and generation three draws for the
 * mutation indices followed by `D` crossover draws.
 *
 * Selection is in place: a trial that beats individual `i` is written into the
 * population at once, so later individuals of the same generation already see it.
 */
module Evolution {
  import opened Numeric
  import opened Scores

  /** One coordinate's `[lower, upper]` box. */
  datatype Bound = Bound(lower: real, upper: real)

  /** `max(min(v, upper), lower)`. */
  function Clamp(v: real, b: Bound): (r: real)
    ensures b.lower <= b.upper ==> b.lower <= r <= b.upper
    ensures b.lower <= v <= b.upper ==> r == v
    ensures b.lower <= b.upper && v > b.upper ==> r == b.upper
    ensures v < b.lower ==> r == b.lower
  {
    Max(Min(v, b.upper), b.lower)
  }

  /** Every coordinate whose interval is not empty lies in it (a clamp to an empty interval yields its lower end). */
  predicate InBounds(x: seq<real>, bounds: seq<Bound>)
  {
    |x| == |bounds|
    && forall j :: 0 <= j < |x| && bounds[j].lower <= bounds[j].upper ==> bounds[j].lower <= x[j] <= bounds[j].upper
  }

  /** Every value of the stream lies in `[0, 1)`, as `Math.random()` and `random.random()` do. */
  ghost predicate UnitDraws(draws: nat -> real)
  {
    forall n: nat :: 0.0 <= draws(n) < 1.0
  }

  /** `Math.floor(r * len)` for `r` in `[0, 1)`: an index into a sequence of length `len`. */
  function PickIndex(r: real, len: nat): (k: nat)
    requires 0.0 <= r < 1.0 && len > 0
    ensures k < len
  {
    IndexStep(r, len);
    (r * (len as real)).Floor
  }

  lemma IndexStep(r: real, len: nat)
    requires 0.0 <= r < 1.0 && len > 0
    ensures 0 <= (r * (len as real)).Floor < len
  {
    UniformStep(0.0, len as real, r);
    assert ((r * (len as real)).Floor) as real <= r * (len as real);
  }

  predicate Distinct(s: seq<nat>)
  {
    forall i, j :: 0 <= i < j < |s| ==> s[i] != s[j]
  }

  /**
   * `randomSample(arr, k)`: repeatedly splice a uniformly chosen element out of a copy of
   * `arr`, until `k` are taken or the copy is empty. Draw `pos + m` picks the `m`-th element.
   */
  function Sample(arr: seq<nat>, k: nat, draws: nat -> real, pos: nat): (s: seq<nat>)
    requires UnitDraws(draws)
    ensures |s| == if k <= |arr| then k else |arr|
    decreases k
  {
    if k == 0 || |arr| == 0 then []
    else
      var idx := PickIndex(draws(pos), |arr|);
      [arr[idx]] + Sample(arr[..idx] + arr[idx + 1..], k - 1, draws, pos + 1)
  }

  /** Every element of a sample is taken from the sequence sampled. */
  lemma {:induction false} SampleFrom(arr: seq<nat>, k: nat, draws: nat -> real, pos: nat)
    requires UnitDraws(draws)
    ensures forall m :: 0 <= m < |Sample(arr, k, draws, pos)| ==> Sample(arr, k, draws, pos)[m] in arr
  {
    if k != 0 && |arr| != 0 {
      var idx := PickIndex(draws(pos), |arr|);
      var rest := arr[..idx] + arr[idx + 1..];
      var tail := Sample(rest, k - 1, draws, pos + 1);
      SampleFrom(rest, k - 1, draws, pos + 1);
      assert Sample(arr, k, draws, pos) == [arr[idx]] + tail;
      forall m | 0 <= m < |tail| ensures tail[m] in arr {
        assert tail[m] in rest;
      }
    }
  }

  /**
   * `randomSample`'s loop from the point where `taken` are already chosen and `arr` is what
   * is left of the copy: it stops once `k` are taken or the copy is empty.
   */
  function SampleOnto(taken: seq<nat>, arr: seq<nat>, k: nat, draws: nat -> real, pos: nat): seq<nat>
    requires UnitDraws(draws)
    decreases |arr|
  {
    if |taken| >= k || |arr| == 0 then taken
    else
      var idx := PickIndex(draws(pos), |arr|);
      SampleOnto(taken + [arr[idx]], arr[..idx] + arr[idx + 1..], k, draws, pos + 1)
  }

  /** The loop's form and the recursive form take the same elements. */
  lemma {:induction false} SampleOntoIsSample(taken: seq<nat>, arr: seq<nat>, k: nat, draws: nat -> real, pos: nat)
    requires UnitDraws(draws) && |taken| <= k
    ensures SampleOnto(taken, arr, k, draws, pos) == taken + Sample(arr, k - |taken|, draws, pos)
    decreases |arr|
  {
    if |taken| < k && |arr| > 0 {
      var idx := PickIndex(draws(pos), |arr|);
      var rest := arr[..idx] + arr[idx + 1..];
      SampleOntoIsSample(taken + [arr[idx]], rest, k, draws, pos + 1);
      var tail := Sample(rest, k - |taken| - 1, draws, pos + 1);
      assert Sample(arr, k - |taken|, draws, pos) == [arr[idx]] + tail;
      assert taken + ([arr[idx]] + tail) == (taken + [arr[idx]]) + tail;
    }
  }

  /** A sample of distinct elements is distinct: no element is taken twice. */
  lemma {:induction false} SampleDistinct(arr: seq<nat>, k: nat, draws: nat -> real, pos: nat)
    requires UnitDraws(draws) && Distinct(arr)
    ensures Distinct(Sample(arr, k, draws, pos))
  {
    if k != 0 && |arr| != 0 {
      var idx := PickIndex(draws(pos), |arr|);
      var rest := arr[..idx] + arr[idx + 1..];
      RemoveDistinct(arr, idx);
      SampleDistinct(rest, k - 1, draws, pos + 1);
      SampleFrom(rest, k - 1, draws, pos + 1);
      var tail := Sample(rest, k - 1, draws, pos + 1);
      assert Sample(arr, k, draws, pos) == [arr[idx]] + tail;
      assert arr[idx] !in tail by {
        forall m | 0 <= m < |tail| ensures tail[m] != arr[idx] {
          assert tail[m] in rest;
        }
      }
      ConsDistinct(arr[idx], tail);
    }
  }

  lemma ConsDistinct(x: nat, tail: seq<nat>)
    requires Distinct(tail) && x !in tail
    ensures Distinct([x] + tail)
  {
    var s := [x] + tail;
    forall i, j | 0 <= i < j < |s| ensures s[i] != s[j]
    {
      assert s[j] == tail[j - 1];
      if i > 0 {
        assert s[i] == tail[i - 1];
      }
    }
  }

  /** Splicing one element out of a distinct sequence leaves a distinct sequence without it. */
  lemma RemoveDistinct(arr: seq<nat>, idx: nat)
    requires Distinct(arr) && idx < |arr|
    ensures Distinct(arr[..idx] + arr[idx + 1..])
    ensures arr[idx] !in arr[..idx] + arr[idx + 1..]
  {
    var rest := arr[..idx] + arr[idx + 1..];
    assert forall j :: 0 <= j < |rest| ==> rest[j] == arr[if j < idx then j else j + 1];
  }

  /** The method form of `randomSample`: the spliced copy is a sequence that shrinks each round. */
  method RandomSample(arr: seq<nat>, k: nat, draws: nat -> real, pos: nat) returns (result: seq<nat>, next: nat)
    requires UnitDraws(draws)
    ensures result == Sample(arr, k, draws, pos)
    ensures next == pos + |result|
  {
    var arrCopy := arr;
    result := [];
    next := pos;
    SampleOntoIsSample([], arr, k, draws, pos);
    assert [] + Sample(arr, k, draws, pos) == Sample(arr, k, draws, pos);
    while |result| < k && |arrCopy| > 0
      invariant next == pos + |result|
      invariant SampleOnto(result, arrCopy, k, draws, next) == Sample(arr, k, draws, pos)
      decreases |arrCopy|
    {
      var idx := PickIndex(draws(next), |arrCopy|);
      result := result + [arrCopy[idx]];
      arrCopy := arrCopy[..idx] + arrCopy[idx + 1..];
      next := next + 1;
    }
  }

  /** `[...Array(n).keys()].filter(idx => idx !== i)`, also `list(range(n))` without `i`. */
  function OthersThan(n: nat, i: nat): (s: seq<nat>)
    requires i < n
    ensures |s| == n - 1
    ensures forall k :: 0 <= k < |s| ==> s[k] < n && s[k] != i
    ensures forall m :: 0 <= m < n && m != i ==> Slot(i, m) < |s| && s[Slot(i, m)] == m
    ensures Distinct(s)
  {
    var s := seq(n - 1, k requires 0 <= k < n - 1 => if k < i then k else k + 1);
    s
  }

  /** Where `m` sits in `OthersThan(n, i)`. */
  function Slot(i: nat, m: nat): nat
    requires m != i
  {
    if m < i then m else m - 1
  }

  /**
   * The three mutation indices for individual `i`: for a population of at least four they
   * are three pairwise different individuals, none of them `i`.
   */
  function MutationIndices(n: nat, i: nat, draws: nat -> real, pos: nat): (s: seq<nat>)
    requires UnitDraws(draws) && 4 <= n && i < n
    ensures |s| == 3
    ensures s[0] != s[1] && s[0] != s[2] && s[1] != s[2]
    ensures forall k :: 0 <= k < 3 ==> s[k] < n && s[k] != i
  {
    var others := OthersThan(n, i);
    var s := Sample(others, 3, draws, pos);
    SampleDistinct(others, 3, draws, pos);
    SampleFrom(others, 3, draws, pos);
    forall k | 0 <= k < 3 ensures s[k] < n && s[k] != i
    {
      assert s[k] in others;
    }
    s
  }

  /** Everything the optimizer is configured with. */
  datatype Config = Config(
    bounds: seq<Bound>,
    mutation: real,
    recombination: real,
    popSize: nat,
    maxIter: nat,
    tol: real)

  /** The population vectors and their scores. */
  datatype Population = Population(members: seq<seq<real>>, scores: seq<Score>)

  /** `popSize` vectors of dimension `|bounds|`, one score each. */
  predicate Shaped(cfg: Config, pop: Population)
  {
    && |pop.members| == cfg.popSize
    && |pop.scores| == cfg.popSize
    && forall k :: 0 <= k < |pop.members| ==> |pop.members[k]| == |cfg.bounds|
  }

  /** Every score is the objective at its vector. */
  predicate Scored(f: seq<real> -> Score, pop: Population)
  {
    |pop.scores| == |pop.members| && forall k :: 0 <= k < |pop.scores| ==> pop.scores[k] == f(pop.members[k])
  }

  predicate Bounded(cfg: Config, pop: Population)
  {
    forall k :: 0 <= k < |pop.members| ==> InBounds(pop.members[k], cfg.bounds)
  }

  /** No score of `after` is worse than the same individual's score in `before`. */
  predicate NoWorse(before: seq<Score>, after: seq<Score>)
  {
    |before| == |after| && forall k :: 0 <= k < |before| ==> !Below(before[k], after[k])
  }

  /** `population[a][j] + mutation * (population[b][j] - population[c][j])` for every `j`. */
  function Mutant(members: seq<seq<real>>, a: nat, b: nat, c: nat, mutation: real, dim: nat): (v: seq<real>)
    requires a < |members| && b < |members| && c < |members|
    requires |members[a]| == dim && |members[b]| == dim && |members[c]| == dim
    ensures |v| == dim
  {
    seq(dim, j requires 0 <= j < dim => members[a][j] + mutation * (members[b][j] - members[c][j]))
  }

  /** Coordinate `j` comes from the mutant when draw `pos + j` is below the recombination rate. */
  function Crossover(mutant: seq<real>, current: seq<real>, recombination: real, draws: nat -> real, pos: nat): (v: seq<real>)
    requires |mutant| == |current|
    ensures |v| == |mutant|
    ensures forall j :: 0 <= j < |v| ==> v[j] == mutant[j] || v[j] == current[j]
  {
    seq(|mutant|, j requires 0 <= j < |mutant| => if draws(pos + j) < recombination then mutant[j] else current[j])
  }

  function ClampAll(v: seq<real>, bounds: seq<Bound>): (w: seq<real>)
    requires |v| == |bounds|
    ensures |w| == |v|
    ensures InBounds(w, bounds)
  {
    seq(|v|, j requires 0 <= j < |v| => Clamp(v[j], bounds[j]))
  }

  /** Draws one individual's turn consumes: three mutation indices, then one per coordinate. */
  function TurnDraws(cfg: Config): nat
  {
    3 + |cfg.bounds|
  }

  /** Draws one generation consumes. */
  function GenerationDraws(cfg: Config): nat
  {
    cfg.popSize * TurnDraws(cfg)
  }

  /** The clamped trial vector for individual `i`, built from draws `pos ..`. */
  function Trial(cfg: Config, members: seq<seq<real>>, i: nat, draws: nat -> real, pos: nat): (v: seq<real>)
    requires UnitDraws(draws) && 4 <= cfg.popSize && i < cfg.popSize
    requires |members| == cfg.popSize && forall k :: 0 <= k < |members| ==> |members[k]| == |cfg.bounds|
    ensures InBounds(v, cfg.bounds)
  {
    var idx := MutationIndices(cfg.popSize, i, draws, pos);
    var mutant := Mutant(members, idx[0], idx[1], idx[2], cfg.mutation, |cfg.bounds|);
    ClampAll(Crossover(mutant, members[i], cfg.recombination, draws, pos + 3), cfg.bounds)
  }

  /**
   * Builds the trial vector for individual `i` from the current vectors and the position
   * of its first draw. The generation functions below take the builder as a value, so
   * that what they keep holds for any builder with the right dimension.
   */
  type Maker = (seq<seq<real>>, nat, nat) -> seq<real>

  /** The builder makes vectors of dimension `|bounds|`. */
  ghost predicate Sound(cfg: Config, make: Maker)
  {
    forall members: seq<seq<real>>, i: nat, pos: nat :: |make(members, i, pos)| == |cfg.bounds|
  }

  /** The builder makes vectors inside the box. */
  ghost predicate Boxed(cfg: Config, make: Maker)
  {
    forall members: seq<seq<real>>, i: nat, pos: nat :: InBounds(make(members, i, pos), cfg.bounds)
  }

  /** `Trial` as a builder; shapes `Trial` does not accept never occur in a run. */
  function TrialMaker(cfg: Config, draws: nat -> real): (make: Maker)
    requires UnitDraws(draws) && 4 <= cfg.popSize
  {
    (members: seq<seq<real>>, i: nat, pos: nat) =>
      if i < cfg.popSize && |members| == cfg.popSize
         && forall k :: 0 <= k < |members| ==> |members[k]| == |cfg.bounds|
      then Trial(cfg, members, i, draws, pos)
      else Lowest(cfg.bounds)
  }

  /** The lower corner of the box. */
  function Lowest(bounds: seq<Bound>): (v: seq<real>)
    ensures |v| == |bounds|
    ensures InBounds(v, bounds)
  {
    seq(|bounds|, j requires 0 <= j < |bounds| => bounds[j].lower)
  }

  lemma TrialMakerSound(cfg: Config, draws: nat -> real)
    requires UnitDraws(draws) && 4 <= cfg.popSize
    ensures Sound(cfg, TrialMaker(cfg, draws))
    ensures Boxed(cfg, TrialMaker(cfg, draws))
  {
    var make := TrialMaker(cfg, draws);
    forall members: seq<seq<real>>, i: nat, pos: nat
      ensures |make(members, i, pos)| == |cfg.bounds|
      ensures InBounds(make(members, i, pos), cfg.bounds)
    {
      if i < cfg.popSize && |members| == cfg.popSize
         && forall k :: 0 <= k < |members| ==> |members[k]| == |cfg.bounds|
      {
        assert make(members, i, pos) == Trial(cfg, members, i, draws, pos);
      } else {
        assert make(members, i, pos) == Lowest(cfg.bounds);
      }
    }
  }

  /** `make` builds `Trial` on every shape a run produces. */
  ghost predicate BuildsTrials(cfg: Config, draws: nat -> real, make: Maker)
    requires UnitDraws(draws) && 4 <= cfg.popSize
  {
    forall members: seq<seq<real>>, i: nat, pos: nat {:trigger Trial(cfg, members, i, draws, pos)} ::
      i < cfg.popSize && |members| == cfg.popSize && (forall k :: 0 <= k < |members| ==> |members[k]| == |cfg.bounds|)
      ==> make(members, i, pos) == Trial(cfg, members, i, draws, pos)
  }

  /** Two builders that agree on every shape a run produces. */
  ghost predicate Agree(cfg: Config, make1: Maker, make2: Maker)
  {
    forall members: seq<seq<real>>, i: nat, pos: nat ::
      i < cfg.popSize && |members| == cfg.popSize && (forall k :: 0 <= k < |members| ==> |members[k]| == |cfg.bounds|)
      ==> make1(members, i, pos) == make2(members, i, pos)
  }

  /** A builder of `Trial` whose vectors have the right dimension and lie in the box. */
  ghost predicate TrialBuilder(cfg: Config, draws: nat -> real, make: Maker)
    requires UnitDraws(draws) && 4 <= cfg.popSize
  {
    Sound(cfg, make) && Boxed(cfg, make) && BuildsTrials(cfg, draws, make)
  }

  lemma TrialMakerBuildsTrials(cfg: Config, draws: nat -> real)
    requires UnitDraws(draws) && 4 <= cfg.popSize
    ensures TrialBuilder(cfg, draws, TrialMaker(cfg, draws))
  {
    TrialMakerSound(cfg, draws);
  }

  /** There is such a builder; a run may name one without unfolding `TrialMaker`. */
  lemma SomeBuilder(cfg: Config, draws: nat -> real)
    requires UnitDraws(draws) && 4 <= cfg.popSize
    ensures exists make: Maker :: TrialBuilder(cfg, draws, make)
  {
    TrialMakerBuildsTrials(cfg, draws);
  }

  /** Any two builders of `Trial` agree. */
  lemma BuildersAgree(cfg: Config, draws: nat -> real, make1: Maker, make2: Maker)
    requires UnitDraws(draws) && 4 <= cfg.popSize
    requires BuildsTrials(cfg, draws, make1) && BuildsTrials(cfg, draws, make2)
    ensures Agree(cfg, make1, make2)
  {
    forall members: seq<seq<real>>, i: nat, pos: nat |
      i < cfg.popSize && |members| == cfg.popSize && (forall k :: 0 <= k < |members| ==> |members[k]| == |cfg.bounds|)
      ensures make1(members, i, pos) == make2(members, i, pos)
    {
      assert make1(members, i, pos) == Trial(cfg, members, i, draws, pos);
    }
  }

  /** Individual `i`'s turn: the trial replaces it only when its score is strictly lower. */
  function Turn(cfg: Config, f: seq<real> -> Score, make: Maker, pop: Population, i: nat, pos: nat): (next: Population)
    requires Sound(cfg, make) && i < cfg.popSize && Shaped(cfg, pop)
    ensures Shaped(cfg, next)
  {
    var trial := make(pop.members, i, pos);
    var score := f(trial);
    if Below(score, pop.scores[i]) then
      Population(pop.members[i := trial], pop.scores[i := score])
    else
      pop
  }

  /** The turns of individuals `i ..` of one generation, each on the population the previous one left. */
  function Sweep(cfg: Config, f: seq<real> -> Score, make: Maker, pop: Population, i: nat, pos: nat): (last: Population)
    requires Sound(cfg, make) && Shaped(cfg, pop)
    ensures Shaped(cfg, last)
    decreases cfg.popSize - i
  {
    if i >= cfg.popSize then pop
    else Sweep(cfg, f, make, Turn(cfg, f, make, pop, i, pos), i + 1, pos + TurnDraws(cfg))
  }

  /** One step of a sweep: individual `i`'s turn, then the rest. */
  lemma SweepStep(cfg: Config, f: seq<real> -> Score, make: Maker, pop: Population, i: nat, pos: nat)
    requires Sound(cfg, make) && Shaped(cfg, pop) && i < cfg.popSize
    ensures Sweep(cfg, f, make, pop, i, pos) == Sweep(cfg, f, make, Turn(cfg, f, make, pop, i, pos), i + 1, pos + TurnDraws(cfg))
  {
  }

  /** The early-stopping test on the scores, taken as a value for the same reason as `Maker`. */
  type Stop = seq<Score> -> bool

  /** The run's test: the population has converged to within `tol`. */
  function SpreadBelow(tol: real): (stop: Stop)
  {
    (scores: seq<Score>) => |scores| > 0 && Converged(scores, tol)
  }

  /** `stop` is the convergence test on every non-empty list of scores. */
  ghost predicate StopsOnConvergence(tol: real, stop: Stop)
  {
    forall scores: seq<Score> {:trigger Converged(scores, tol)} ::
      |scores| > 0 ==> (stop(scores) <==> Converged(scores, tol))
  }

  /** Two stopping tests that agree on every non-empty list of scores. */
  ghost predicate SameStops(stop1: Stop, stop2: Stop)
  {
    forall scores: seq<Score> :: |scores| > 0 ==> stop1(scores) == stop2(scores)
  }

  lemma SomeStop(tol: real)
    ensures exists stop: Stop :: StopsOnConvergence(tol, stop)
  {
    assert StopsOnConvergence(tol, SpreadBelow(tol));
  }

  lemma ConvergenceStopsAgree(tol: real, stop1: Stop, stop2: Stop)
    requires StopsOnConvergence(tol, stop1) && StopsOnConvergence(tol, stop2)
    ensures SameStops(stop1, stop2)
  {
    forall scores: seq<Score> | |scores| > 0 ensures stop1(scores) == stop2(scores)
    {
      assert stop1(scores) <==> Converged(scores, tol);
    }
  }

  /**
   * Generations `iteration ..`: stop when the iterations are used up or the stopping test
   * holds, otherwise run a generation. Also yields how many generations ran.
   */
  function Evolve(cfg: Config, f: seq<real> -> Score, make: Maker, stop: Stop, pop: Population, iteration: nat, pos: nat): (r: (Population, nat))
    requires Sound(cfg, make) && Shaped(cfg, pop) && 0 < cfg.popSize
    ensures Shaped(cfg, r.0)
    decreases cfg.maxIter - iteration
  {
    if iteration >= cfg.maxIter || stop(pop.scores) then (pop, 0)
    else
      var r := Evolve(cfg, f, make, stop, Sweep(cfg, f, make, pop, 0, pos), iteration + 1,
                      pos + GenerationDraws(cfg));
      (r.0, r.1 + 1)
  }

  function Width(b: Bound): real
  {
    b.upper - b.lower
  }

  /** `lower + Math.random() * (upper - lower)`, also `random.uniform(lower, upper)`. */
  function Uniform(b: Bound, r: real): (v: real)
    requires 0.0 <= r < 1.0
    ensures b.lower <= b.upper ==> b.lower <= v <= b.upper
    ensures b.lower < b.upper ==> v < b.upper
  {
    var w := Width(b);
    if b.lower <= b.upper then
      UniformInBox(b.lower, b.upper, w, r);
      b.lower + r * w
    else
      b.lower + r * w
  }

  lemma UniformInBox(lower: real, upper: real, width: real, r: real)
    requires 0.0 <= r < 1.0 && width == upper - lower && lower <= upper
    ensures lower <= lower + r * width <= upper
    ensures lower < upper ==> lower + r * width < upper
  {
    UniformStep(lower, width, r);
  }

  lemma UniformStep(lower: real, width: real, r: real)
    requires 0.0 <= r < 1.0 && width >= 0.0
    ensures lower <= lower + r * width <= lower + width
    ensures width > 0.0 ==> lower + r * width < lower + width
  {
    MulMonotone(0.0, r, width);
    MulMonotone(r, 1.0, width);
    if width > 0.0 {
      assert (1.0 - r) * width == width - r * width;
      assert (1.0 - r) * width > 0.0;
    }
  }

  /** An initial individual: coordinate `j` from draw `start + j`. */
  function InitialMember(bounds: seq<Bound>, draws: nat -> real, start: nat): (v: seq<real>)
    requires UnitDraws(draws)
    ensures |v| == |bounds|
    ensures InBounds(v, bounds)
  {
    seq(|bounds|, j requires 0 <= j < |bounds| => Uniform(bounds[j], draws(start + j)))
  }

  /** Individual `i` takes draws `i * D ..`, and every individual is scored once. */
  function InitialPopulation(cfg: Config, f: seq<real> -> Score, draws: nat -> real): (pop: Population)
    requires UnitDraws(draws)
    ensures Shaped(cfg, pop) && Scored(f, pop)
    ensures Bounded(cfg, pop)
  {
    var members := seq(cfg.popSize, i requires 0 <= i < cfg.popSize => InitialMember(cfg.bounds, draws, i * |cfg.bounds|));
    Population(members, seq(cfg.popSize, i requires 0 <= i < cfg.popSize => f(members[i])))
  }

  /**
   * The population when the generation loop ends, and how many generations ran: the run
   * from the initial population, with `Trial` building the trials and convergence as the
   * stopping test. Any builder of `Trial` and any convergence test serve, since all of
   * them give the same run (`FinalBy`).
   */
  ghost function Final(cfg: Config, f: seq<real> -> Score, draws: nat -> real): (r: (Population, nat))
    requires UnitDraws(draws) && 4 <= cfg.popSize
    ensures Shaped(cfg, r.0)
  {
    SomeBuilder(cfg, draws);
    SomeStop(cfg.tol);
    var make: Maker :| TrialBuilder(cfg, draws, make);
    var stop: Stop :| StopsOnConvergence(cfg.tol, stop);
    Evolve(cfg, f, make, stop, InitialPopulation(cfg, f, draws), 0, cfg.popSize * |cfg.bounds|)
  }

  /** `scores.index(min(scores))`: the first individual holding the smallest score. */
  function BestIndex(pop: Population): (k: nat)
    requires 0 < |pop.scores|
    ensures k < |pop.scores|
  {
    FirstIndexOf(pop.scores, Smallest(pop.scores))
  }

  /** The member at the first index of the smallest final score, with that score. */
  ghost function Outcome(cfg: Config, f: seq<real> -> Score, draws: nat -> real): (r: (seq<real>, Score))
    requires UnitDraws(draws) && 4 <= cfg.popSize
    ensures |r.0| == |cfg.bounds|
  {
    var pop := Final(cfg, f, draws).0;
    var k := BestIndex(pop);
    (pop.members[k], pop.scores[k])
  }

  lemma NoWorseReflexive(a: seq<Score>)
    ensures NoWorse(a, a)
  {
    forall k | 0 <= k < |a| ensures !Below(a[k], a[k])
    {
      BelowIsStrictTotalOrder(a[k], a[k], a[k]);
    }
  }

  /** `!Below` is the reflexive order "no better than": it chains. */
  lemma NoWorseTransitive(a: seq<Score>, b: seq<Score>, c: seq<Score>)
    requires NoWorse(a, b) && NoWorse(b, c)
    ensures NoWorse(a, c)
  {
    forall k | 0 <= k < |a| ensures !Below(a[k], c[k])
    {
      BelowIsStrictTotalOrder(a[k], b[k], c[k]);
      BelowIsStrictTotalOrder(c[k], b[k], a[k]);
      BelowIsStrictTotalOrder(b[k], c[k], a[k]);
    }
  }

  /**
   * Greedy selection: the trial replaces individual `i`, vector and score together, only
   * when its score is strictly lower, so a tie keeps the incumbent; nothing else changes.
   */
  lemma TurnSelection(cfg: Config, f: seq<real> -> Score, make: Maker, pop: Population, i: nat, pos: nat)
    requires Sound(cfg, make) && i < cfg.popSize && Shaped(cfg, pop)
    ensures var next := Turn(cfg, f, make, pop, i, pos);
      var trial := make(pop.members, i, pos);
      && (next != pop ==> Below(f(trial), pop.scores[i]))
      && (Below(f(trial), pop.scores[i]) ==> next.members[i] == trial && next.scores[i] == f(trial))
      && (f(trial) == pop.scores[i] ==> next == pop)
      && (forall k :: 0 <= k < cfg.popSize && k != i ==>
            next.members[k] == pop.members[k] && next.scores[k] == pop.scores[k])
      && NoWorse(pop.scores, next.scores)
  {
    var trial := make(pop.members, i, pos);
    BelowIsStrictTotalOrder(f(trial), pop.scores[i], pop.scores[i]);
  }

  /** A turn keeps every score equal to the objective at its vector, and every vector in the box. */
  lemma TurnKeeps(cfg: Config, f: seq<real> -> Score, make: Maker, pop: Population, i: nat, pos: nat)
    requires Sound(cfg, make) && i < cfg.popSize && Shaped(cfg, pop)
    ensures Scored(f, pop) ==> Scored(f, Turn(cfg, f, make, pop, i, pos))
    ensures Boxed(cfg, make) && Bounded(cfg, pop) ==> Bounded(cfg, Turn(cfg, f, make, pop, i, pos))
  {
  }

  /** The rest of a generation keeps every score equal to the objective at its vector. */
  lemma {:induction false} SweepKeepsScored(cfg: Config, f: seq<real> -> Score, make: Maker, pop: Population, i: nat, pos: nat)
    requires Sound(cfg, make) && Shaped(cfg, pop) && Scored(f, pop)
    ensures Scored(f, Sweep(cfg, f, make, pop, i, pos))
    decreases cfg.popSize - i
  {
    if i < cfg.popSize {
      var next := Turn(cfg, f, make, pop, i, pos);
      SweepStep(cfg, f, make, pop, i, pos);
      TurnKeeps(cfg, f, make, pop, i, pos);
      SweepKeepsScored(cfg, f, make, next, i + 1, pos + TurnDraws(cfg));
    }
  }

  /** The rest of a generation keeps every vector in the box. */
  lemma {:induction false} SweepKeepsBounded(cfg: Config, f: seq<real> -> Score, make: Maker, pop: Population, i: nat, pos: nat)
    requires Sound(cfg, make) && Boxed(cfg, make) && Shaped(cfg, pop) && Bounded(cfg, pop)
    ensures Bounded(cfg, Sweep(cfg, f, make, pop, i, pos))
    decreases cfg.popSize - i
  {
    if i < cfg.popSize {
      var next := Turn(cfg, f, make, pop, i, pos);
      SweepStep(cfg, f, make, pop, i, pos);
      TurnKeeps(cfg, f, make, pop, i, pos);
      SweepKeepsBounded(cfg, f, make, next, i + 1, pos + TurnDraws(cfg));
    }
  }

  /** The rest of a generation worsens no individual's score. */
  lemma {:induction false} SweepNoWorse(cfg: Config, f: seq<real> -> Score, make: Maker, pop: Population, i: nat, pos: nat)
    requires Sound(cfg, make) && Shaped(cfg, pop)
    ensures NoWorse(pop.scores, Sweep(cfg, f, make, pop, i, pos).scores)
    decreases cfg.popSize - i
  {
    if i < cfg.popSize {
      var next := Turn(cfg, f, make, pop, i, pos);
      SweepStep(cfg, f, make, pop, i, pos);
      TurnSelection(cfg, f, make, pop, i, pos);
      SweepNoWorse(cfg, f, make, next, i + 1, pos + TurnDraws(cfg));
      NoWorseTransitive(pop.scores, next.scores, Sweep(cfg, f, make, next, i + 1, pos + TurnDraws(cfg)).scores);
    } else {
      NoWorseReflexive(pop.scores);
    }
  }

  /** One step of the generation loop: when it does not stop, a generation runs and the loop goes on. */
  lemma EvolveStep(cfg: Config, f: seq<real> -> Score, make: Maker, stop: Stop, pop: Population, iteration: nat, pos: nat)
    requires Sound(cfg, make) && Shaped(cfg, pop) && 0 < cfg.popSize
    ensures iteration >= cfg.maxIter || stop(pop.scores) ==> Evolve(cfg, f, make, stop, pop, iteration, pos).0 == pop
    ensures iteration < cfg.maxIter && !stop(pop.scores) ==>
      Evolve(cfg, f, make, stop, pop, iteration, pos).0
        == Evolve(cfg, f, make, stop, Sweep(cfg, f, make, pop, 0, pos), iteration + 1, pos + GenerationDraws(cfg)).0
  {
  }

  /** A generation that is run: the rest of the run continues from the population it leaves. */
  lemma EvolveAdvance(cfg: Config, f: seq<real> -> Score, make: Maker, stop: Stop, before: Population, after: Population,
                      iteration: nat, pos: nat, next: nat)
    requires Sound(cfg, make) && Shaped(cfg, before) && 0 < cfg.popSize
    requires iteration < cfg.maxIter && !stop(before.scores)
    requires after == Sweep(cfg, f, make, before, 0, pos) && next == pos + GenerationDraws(cfg)
    ensures Evolve(cfg, f, make, stop, before, iteration, pos).0 == Evolve(cfg, f, make, stop, after, iteration + 1, next).0
  {
  }

  /** Over all remaining generations every score stays the objective at its vector. */
  lemma {:induction false} EvolveKeepsScored(cfg: Config, f: seq<real> -> Score, make: Maker, stop: Stop, pop: Population, iteration: nat, pos: nat)
    requires Sound(cfg, make) && Shaped(cfg, pop) && 0 < cfg.popSize && Scored(f, pop)
    ensures Scored(f, Evolve(cfg, f, make, stop, pop, iteration, pos).0)
    decreases cfg.maxIter - iteration
  {
    if !(iteration >= cfg.maxIter || stop(pop.scores)) {
      var next := Sweep(cfg, f, make, pop, 0, pos);
      assert Evolve(cfg, f, make, stop, pop, iteration, pos).0 == Evolve(cfg, f, make, stop, next, iteration + 1, pos + GenerationDraws(cfg)).0;
      SweepKeepsScored(cfg, f, make, pop, 0, pos);
      EvolveKeepsScored(cfg, f, make, stop, next, iteration + 1, pos + GenerationDraws(cfg));
    }
  }

  /** Over all remaining generations every vector stays in the box. */
  lemma {:induction false} EvolveKeepsBounded(cfg: Config, f: seq<real> -> Score, make: Maker, stop: Stop, pop: Population, iteration: nat, pos: nat)
    requires Sound(cfg, make) && Boxed(cfg, make) && Shaped(cfg, pop) && 0 < cfg.popSize && Bounded(cfg, pop)
    ensures Bounded(cfg, Evolve(cfg, f, make, stop, pop, iteration, pos).0)
    decreases cfg.maxIter - iteration
  {
    if !(iteration >= cfg.maxIter || stop(pop.scores)) {
      var next := Sweep(cfg, f, make, pop, 0, pos);
      assert Evolve(cfg, f, make, stop, pop, iteration, pos).0 == Evolve(cfg, f, make, stop, next, iteration + 1, pos + GenerationDraws(cfg)).0;
      SweepKeepsBounded(cfg, f, make, pop, 0, pos);
      EvolveKeepsBounded(cfg, f, make, stop, next, iteration + 1, pos + GenerationDraws(cfg));
    }
  }

  /** Over all remaining generations no individual's score gets worse. */
  lemma {:induction false} EvolveNoWorse(cfg: Config, f: seq<real> -> Score, make: Maker, stop: Stop, pop: Population, iteration: nat, pos: nat)
    requires Sound(cfg, make) && Shaped(cfg, pop) && 0 < cfg.popSize
    ensures NoWorse(pop.scores, Evolve(cfg, f, make, stop, pop, iteration, pos).0.scores)
    decreases cfg.maxIter - iteration
  {
    if iteration >= cfg.maxIter || stop(pop.scores) {
      NoWorseReflexive(pop.scores);
    } else {
      var next := Sweep(cfg, f, make, pop, 0, pos);
      var last := Evolve(cfg, f, make, stop, next, iteration + 1, pos + GenerationDraws(cfg)).0;
      assert Evolve(cfg, f, make, stop, pop, iteration, pos).0 == last;
      SweepNoWorse(cfg, f, make, pop, 0, pos);
      EvolveNoWorse(cfg, f, make, stop, next, iteration + 1, pos + GenerationDraws(cfg));
      NoWorseTransitive(pop.scores, next.scores, last.scores);
    }
  }

  /**
   * The loop stops early only on the stopping test: if fewer generations ran than were
   * left, the test holds of the final scores. It never runs more than were left.
   */
  lemma {:induction false} EvolveStopsEarlyOnlyOnTest(cfg: Config, f: seq<real> -> Score, make: Maker, stop: Stop,
                                                        pop: Population, iteration: nat, pos: nat)
    requires Sound(cfg, make) && Shaped(cfg, pop) && 0 < cfg.popSize && iteration <= cfg.maxIter
    ensures var r := Evolve(cfg, f, make, stop, pop, iteration, pos);
      && iteration + r.1 <= cfg.maxIter
      && (iteration + r.1 < cfg.maxIter ==> stop(r.0.scores))
    decreases cfg.maxIter - iteration
  {
    if !(iteration >= cfg.maxIter || stop(pop.scores)) {
      EvolveStopsEarlyOnlyOnTest(cfg, f, make, stop, Sweep(cfg, f, make, pop, 0, pos), iteration + 1,
                                   pos + GenerationDraws(cfg));
    }
  }

  /** Builders that agree give the same turn. */
  lemma TurnAgree(cfg: Config, f: seq<real> -> Score, make1: Maker, make2: Maker, pop: Population, i: nat, pos: nat)
    requires Sound(cfg, make1) && Sound(cfg, make2) && Agree(cfg, make1, make2)
    requires i < cfg.popSize && Shaped(cfg, pop)
    ensures Turn(cfg, f, make1, pop, i, pos) == Turn(cfg, f, make2, pop, i, pos)
  {
    assert make1(pop.members, i, pos) == make2(pop.members, i, pos);
  }

  lemma {:induction false} SweepAgree(cfg: Config, f: seq<real> -> Score, make1: Maker, make2: Maker,
                                      pop: Population, i: nat, pos: nat)
    requires Sound(cfg, make1) && Sound(cfg, make2) && Agree(cfg, make1, make2) && Shaped(cfg, pop)
    ensures Sweep(cfg, f, make1, pop, i, pos) == Sweep(cfg, f, make2, pop, i, pos)
    decreases cfg.popSize - i
  {
    if i < cfg.popSize {
      TurnAgree(cfg, f, make1, make2, pop, i, pos);
      SweepAgree(cfg, f, make1, make2, Turn(cfg, f, make1, pop, i, pos), i + 1, pos + TurnDraws(cfg));
    }
  }

  /** Builders that agree and stopping tests that agree give the same run. */
  lemma {:induction false} EvolveAgree(cfg: Config, f: seq<real> -> Score, make1: Maker, make2: Maker,
                                       stop1: Stop, stop2: Stop, pop: Population, iteration: nat, pos: nat)
    requires Sound(cfg, make1) && Sound(cfg, make2) && Agree(cfg, make1, make2) && SameStops(stop1, stop2)
    requires Shaped(cfg, pop) && 0 < cfg.popSize
    ensures Evolve(cfg, f, make1, stop1, pop, iteration, pos) == Evolve(cfg, f, make2, stop2, pop, iteration, pos)
    decreases cfg.maxIter - iteration
  {
    assert stop1(pop.scores) == stop2(pop.scores);
    if !(iteration >= cfg.maxIter || stop1(pop.scores)) {
      var next := Sweep(cfg, f, make1, pop, 0, pos);
      SweepAgree(cfg, f, make1, make2, pop, 0, pos);
      assert next == Sweep(cfg, f, make2, pop, 0, pos);
      EvolveAgree(cfg, f, make1, make2, stop1, stop2, next, iteration + 1, pos + GenerationDraws(cfg));
      var r := Evolve(cfg, f, make1, stop1, next, iteration + 1, pos + GenerationDraws(cfg));
      assert !stop2(pop.scores);
      assert Evolve(cfg, f, make1, stop1, pop, iteration, pos) == (r.0, r.1 + 1);
    }
  }

  /** The run `Final` describes, with a given builder of `Trial` and a given convergence test. */
  lemma FinalBy(cfg: Config, f: seq<real> -> Score, draws: nat -> real, make: Maker, stop: Stop)
    requires UnitDraws(draws) && 4 <= cfg.popSize
    requires TrialBuilder(cfg, draws, make) && StopsOnConvergence(cfg.tol, stop)
    ensures Final(cfg, f, draws)
         == Evolve(cfg, f, make, stop, InitialPopulation(cfg, f, draws), 0, cfg.popSize * |cfg.bounds|)
  {
    var init := InitialPopulation(cfg, f, draws);
    forall other: Maker, otherStop: Stop | TrialBuilder(cfg, draws, other) && StopsOnConvergence(cfg.tol, otherStop)
      ensures Evolve(cfg, f, other, otherStop, init, 0, cfg.popSize * |cfg.bounds|)
           == Evolve(cfg, f, make, stop, init, 0, cfg.popSize * |cfg.bounds|)
    {
      BuildersAgree(cfg, draws, other, make);
      ConvergenceStopsAgree(cfg.tol, otherStop, stop);
      EvolveAgree(cfg, f, other, make, otherStop, stop, init, 0, cfg.popSize * |cfg.bounds|);
    }
  }

  /** Every initial coordinate lies in `[lower, upper)` (in `[lower, upper]` for a degenerate box). */
  lemma InitialInBox(cfg: Config, f: seq<real> -> Score, draws: nat -> real, i: nat, j: nat)
    requires UnitDraws(draws) && i < cfg.popSize && j < |cfg.bounds| && cfg.bounds[j].lower <= cfg.bounds[j].upper
    ensures var x := InitialPopulation(cfg, f, draws).members[i][j];
      && cfg.bounds[j].lower <= x <= cfg.bounds[j].upper
      && (cfg.bounds[j].lower < cfg.bounds[j].upper ==> x < cfg.bounds[j].upper)
  {
  }

  /** In a scored, boxed population, the first individual holding the smallest score is a fitting result. */
  lemma BestOf(cfg: Config, f: seq<real> -> Score, pop: Population)
    requires Shaped(cfg, pop) && Scored(f, pop) && Bounded(cfg, pop) && 0 < cfg.popSize
    ensures var k := BestIndex(pop);
      && InBounds(pop.members[k], cfg.bounds)
      && pop.scores[k] == f(pop.members[k])
      && (forall m :: 0 <= m < cfg.popSize ==> !Below(pop.scores[m], pop.scores[k]))
      && (forall m :: 0 <= m < k ==> pop.scores[m] != pop.scores[k])
  {
  }

  /** A score that beats none of `last`, where `last` is no worse than `before`, beats none of `before`. */
  lemma NoWorseMinimum(before: seq<Score>, last: seq<Score>, score: Score)
    requires NoWorse(before, last)
    requires forall m :: 0 <= m < |last| ==> !Below(last[m], score)
    ensures forall m :: 0 <= m < |before| ==> !Below(before[m], score)
  {
    forall m | 0 <= m < |before| ensures !Below(before[m], score)
    {
      BelowIsStrictTotalOrder(score, last[m], before[m]);
      BelowIsStrictTotalOrder(last[m], score, before[m]);
      BelowIsStrictTotalOrder(before[m], last[m], score);
    }
  }

  /**
   * What a run of the generation loop yields from a scored population in the box: the
   * first individual holding the smallest final score is in the box, scored truly, and no
   * worse than any final or starting score.
   */
  lemma EvolveResult(cfg: Config, f: seq<real> -> Score, make: Maker, stop: Stop, init: Population, pos: nat)
    requires Sound(cfg, make) && Boxed(cfg, make) && Shaped(cfg, init) && Scored(f, init) && Bounded(cfg, init)
    requires 0 < cfg.popSize
    ensures var last := Evolve(cfg, f, make, stop, init, 0, pos).0;
      var k := BestIndex(last);
      && InBounds(last.members[k], cfg.bounds)
      && last.scores[k] == f(last.members[k])
      && (forall m :: 0 <= m < cfg.popSize ==> !Below(last.scores[m], last.scores[k]))
      && (forall m :: 0 <= m < cfg.popSize ==> !Below(init.scores[m], last.scores[k]))
      && (forall m :: 0 <= m < k ==> last.scores[m] != last.scores[k])
  {
    var last := Evolve(cfg, f, make, stop, init, 0, pos).0;
    EvolveKeepsScored(cfg, f, make, stop, init, 0, pos);
    EvolveKeepsBounded(cfg, f, make, stop, init, 0, pos);
    EvolveNoWorse(cfg, f, make, stop, init, 0, pos);
    BestOf(cfg, f, last);
    NoWorseMinimum(init.scores, last.scores, last.scores[BestIndex(last)]);
  }

  /**
   * The result: the member at the first index holding the smallest final score, with that
   * score; it is in the box, its score is the objective at it and no worse than any final
   * or initial score.
   */
  lemma OutcomeProperties(cfg: Config, f: seq<real> -> Score, draws: nat -> real)
    requires UnitDraws(draws) && 4 <= cfg.popSize
    ensures var last := Final(cfg, f, draws).0;
      var k := BestIndex(last);
      && Outcome(cfg, f, draws) == (last.members[k], last.scores[k])
      && InBounds(last.members[k], cfg.bounds)
      && last.scores[k] == f(last.members[k])
      && (forall m :: 0 <= m < cfg.popSize ==> !Below(last.scores[m], last.scores[k]))
      && (forall m :: 0 <= m < cfg.popSize ==> !Below(InitialPopulation(cfg, f, draws).scores[m], last.scores[k]))
      && (forall m :: 0 <= m < k ==> last.scores[m] != last.scores[k])
  {
    SomeBuilder(cfg, draws);
    SomeStop(cfg.tol);
    var make: Maker :| TrialBuilder(cfg, draws, make);
    var stop: Stop :| StopsOnConvergence(cfg.tol, stop);
    FinalBy(cfg, f, draws, make, stop);
    EvolveResult(cfg, f, make, stop, InitialPopulation(cfg, f, draws), cfg.popSize * |cfg.bounds|);
  }

  /** The result lies in the box and carries the objective's value at it. */
  lemma OutcomeInBox(cfg: Config, f: seq<real> -> Score, draws: nat -> real)
    requires UnitDraws(draws) && 4 <= cfg.popSize
    ensures InBounds(Outcome(cfg, f, draws).0, cfg.bounds)
    ensures Outcome(cfg, f, draws).1 == f(Outcome(cfg, f, draws).0)
  {
    OutcomeProperties(cfg, f, draws);
  }

  /**
   * The generation loop ran at most `maxIter` times, and fewer only when the final scores
   * have converged.
   */
  lemma FinalGenerations(cfg: Config, f: seq<real> -> Score, draws: nat -> real)
    requires UnitDraws(draws) && 4 <= cfg.popSize
    ensures Final(cfg, f, draws).1 <= cfg.maxIter
    ensures Final(cfg, f, draws).1 < cfg.maxIter ==> Converged(Final(cfg, f, draws).0.scores, cfg.tol)
  {
    SomeBuilder(cfg, draws);
    SomeStop(cfg.tol);
    var make: Maker :| TrialBuilder(cfg, draws, make);
    var stop: Stop :| StopsOnConvergence(cfg.tol, stop);
    FinalBy(cfg, f, draws, make, stop);
    StopsEarlyOnlyOnConvergence(cfg, f, make, stop, InitialPopulation(cfg, f, draws), cfg.popSize * |cfg.bounds|);
  }

  /** With a convergence test as the stopping test, an early stop means the final scores have converged. */
  lemma StopsEarlyOnlyOnConvergence(cfg: Config, f: seq<real> -> Score, make: Maker, stop: Stop, init: Population, pos: nat)
    requires Sound(cfg, make) && Shaped(cfg, init) && 0 < cfg.popSize && StopsOnConvergence(cfg.tol, stop)
    ensures var r := Evolve(cfg, f, make, stop, init, 0, pos);
      && r.1 <= cfg.maxIter
      && (r.1 < cfg.maxIter ==> Converged(r.0.scores, cfg.tol))
  {
    EvolveStopsEarlyOnlyOnTest(cfg, f, make, stop, init, 0, pos);
  }
}
