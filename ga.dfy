/** The generational loop of the genetic algorithm. Individuals are values
    (the clones DEAP makes mean no two population slots share storage); the
    population the caller passes in is an array that the loop overwrites
    generation by generation. Selection, crossover, mutation and evaluation
    are DEAP toolbox entries: selection enters as the index lists it drew,
    crossover and mutation as functions of the call's position (standing for
    its random draws), evaluation as a function of the values and the
    evaluation set. */
module GA {
  import opened Common
  import Mutation

  /** An individual: its values and its fitness, `None` when invalid. */
  datatype Individual = Individual(values: seq<real>, fitness: Option<real>)

  /** The toolbox entries the loop calls. `mate` and `mutate` take the
      generation and the position as keys standing for their random draws;
      `mutate` reports what the mutation operator did, which may be
      returning nothing or raising. */
  datatype Toolbox = Toolbox(evaluate: (seq<real>, seq<seq<real>>) -> real,
                             mate: (nat, nat, seq<real>, seq<real>) -> (seq<real>, seq<real>),
                             mutate: (nat, nat, seq<real>) -> Mutation.Outcome)

  /** The draws of one generation: the positions tournament selection
      picked, one `random.random()` per pair for crossover, one per
      individual for mutation, and the indices of the batch sample. */
  datatype GenerationDraws = GenerationDraws(selection: seq<nat>, crossover: seq<real>, mutation: seq<real>, sample: seq<nat>)

  /** Pair `(i - 1, i)` of the offspring (odd `i`) is crossed when its draw
      is below `cxpb`; position `i` belongs to a crossed pair. A trailing
      individual of an odd population has no pair. */
  predicate Crossed(n: nat, i: nat, cxDraws: seq<real>, cxpb: real)
    requires |cxDraws| == n / 2
  {
    i < 2 * (n / 2) && cxDraws[i / 2] < cxpb
  }

  /** The values position `i` receives from `mate`, called on the pair
      `(i - 1, i)` with the pair's odd position as its key. */
  function Mated(pop: seq<Individual>, i: nat, gen: nat, tb: Toolbox): seq<real>
    requires i < 2 * (|pop| / 2)
  {
    if i % 2 == 0 then tb.mate(gen, i + 1, pop[i].values, pop[i + 1].values).0
    else tb.mate(gen, i, pop[i - 1].values, pop[i].values).1
  }

  /** Position `i` after the crossover pass. */
  function AfterCrossover(pop: seq<Individual>, i: nat, gen: nat, tb: Toolbox, cxDraws: seq<real>, cxpb: real): Individual
    requires i < |pop| && |cxDraws| == |pop| / 2
  {
    if Crossed(|pop|, i, cxDraws, cxpb) then Individual(Mated(pop, i, gen, tb), None) else pop[i]
  }

  /** Position `i` after the mutation pass, given its value after crossover.
      A mutation that returns nothing makes the unpacking
      `offspring[i], = ...` raise `TypeError`; one that raises passes its
      error on. */
  function Mutated(ind: Individual, i: nat, gen: nat, tb: Toolbox, mutDraws: seq<real>, mutpb: real): Result<Individual>
    requires i < |mutDraws|
  {
    if mutDraws[i] < mutpb then
      match tb.mutate(gen, i, ind.values)
      case Returned(v) => Ok(Individual(v, None))
      case ReturnedNone => Err(TypeError)
      case Raised(e) => Err(e)
    else Ok(ind)
  }

  /** Position `i` of the offspring `varAnd` builds: crossed, then mutated. */
  function VariedAt(pop: seq<Individual>, i: nat, gen: nat, tb: Toolbox, cxDraws: seq<real>, mutDraws: seq<real>,
                    cxpb: real, mutpb: real): Result<Individual>
    requires i < |pop| && |cxDraws| == |pop| / 2 && |mutDraws| == |pop|
  {
    Mutated(AfterCrossover(pop, i, gen, tb, cxDraws, cxpb), i, gen, tb, mutDraws, mutpb)
  }

  /** `offspring` is what `varAnd` returns for `pop`: every position holds
      its crossed-then-mutated individual. */
  ghost predicate IsVariation(pop: seq<Individual>, offspring: seq<Individual>, gen: nat, tb: Toolbox,
                              cxDraws: seq<real>, mutDraws: seq<real>, cxpb: real, mutpb: real)
    requires |cxDraws| == |pop| / 2 && |mutDraws| == |pop|
  {
    && |offspring| == |pop|
    && forall i {:trigger VariedAt(pop, i, gen, tb, cxDraws, mutDraws, cxpb, mutpb)} :: 0 <= i < |pop| ==>
         VariedAt(pop, i, gen, tb, cxDraws, mutDraws, cxpb, mutpb) == Ok(offspring[i])
  }

  /** `varAnd` stops with `e` at position `i`: the first position whose
      mutation fails. */
  ghost predicate FailsAt(pop: seq<Individual>, i: nat, e: Error, gen: nat, tb: Toolbox,
                          cxDraws: seq<real>, mutDraws: seq<real>, cxpb: real, mutpb: real)
    requires |cxDraws| == |pop| / 2 && |mutDraws| == |pop|
  {
    && i < |pop|
    && VariedAt(pop, i, gen, tb, cxDraws, mutDraws, cxpb, mutpb) == Err(e)
    && forall j :: 0 <= j < i ==> VariedAt(pop, j, gen, tb, cxDraws, mutDraws, cxpb, mutpb).Ok?
  }

  /** An individual with its fitness computed on the evaluation set `T`. */
  function Evaluated(ind: Individual, evaluate: (seq<real>, seq<seq<real>>) -> real, T: seq<seq<real>>): Individual
  {
    Individual(ind.values, Some(evaluate(ind.values, T)))
  }

  /** With batch evaluation every individual is re-evaluated, otherwise only
      the ones without a valid fitness. */
  predicate NeedsEvaluation(ind: Individual, batch: bool)
  {
    batch || ind.fitness.None?
  }

  /** The positions of the individuals to evaluate, in population order. */
  function ToEvaluate(pop: seq<Individual>, batch: bool): (ix: seq<nat>)
    ensures |ix| <= |pop|
    ensures forall k :: 0 <= k < |ix| ==> ix[k] < |pop| && NeedsEvaluation(pop[ix[k]], batch)
    ensures forall i :: 0 <= i < |pop| && NeedsEvaluation(pop[i], batch) ==> i in ix
    ensures forall k, l :: 0 <= k < l < |ix| ==> ix[k] < ix[l]
  {
    if pop == [] then []
    else
      var n := |pop| - 1;
      var ix := ToEvaluate(pop[..n], batch);
      assert forall i :: 0 <= i < n ==> pop[..n][i] == pop[i];
      ix + if NeedsEvaluation(pop[n], batch) then [n] else []
  }

  /** With batch evaluation the whole population is evaluated. */
  lemma {:induction false} ToEvaluateBatch(pop: seq<Individual>)
    ensures ToEvaluate(pop, true) == Range(0, |pop|)
    decreases |pop|
  {
    if pop != [] {
      var n := |pop| - 1;
      ToEvaluateBatch(pop[..n]);
      assert Range(0, n) + [n] == Range(0, |pop|) by {
        assert forall k :: 0 <= k < |pop| ==> (Range(0, n) + [n])[k] == k;
      }
    }
  }

  /** Every individual has a valid fitness. */
  predicate AllValid(pop: seq<Individual>)
  {
    forall i :: 0 <= i < |pop| ==> pop[i].fitness.Some?
  }

  /** Every valid fitness is the evaluation of the individual's values on `T`. */
  predicate Consistent(pop: seq<Individual>, evaluate: (seq<real>, seq<seq<real>>) -> real, T: seq<seq<real>>)
  {
    forall i :: 0 <= i < |pop| && pop[i].fitness.Some? ==> pop[i].fitness.value == evaluate(pop[i].values, T)
  }

  /** The first evaluated individual with the given values (Python's
      `list.index`, where individuals compare by their values). */
  function FirstWithValues(es: seq<Individual>, v: seq<real>): (r: Option<nat>)
    ensures r.None? <==> forall j :: 0 <= j < |es| ==> es[j].values != v
    ensures r.Some? ==> r.value < |es| && es[r.value].values == v
    ensures r.Some? ==> forall j :: 0 <= j < r.value ==> es[j].values != v
  {
    if es == [] then None
    else if es[0].values == v then Some(0)
    else
      match FirstWithValues(es[1..], v)
      case None => assert forall j :: 1 <= j < |es| ==> es[j] == es[1..][j - 1]; None
      case Some(j) => Some(j + 1)
  }

  /** The fitnesses computed so far: `evaluated[j]` holds the fitness of
      the distinct value sequence `calls[j]`. */
  ghost predicate Memo(evaluated: seq<Individual>, calls: seq<seq<real>>,
                       evaluate: (seq<real>, seq<seq<real>>) -> real, T: seq<seq<real>>)
  {
    && |calls| == |evaluated|
    && (forall j :: 0 <= j < |evaluated| ==> evaluated[j] == Evaluated(Individual(calls[j], None), evaluate, T))
    && (forall j, l :: 0 <= j < l < |calls| ==> calls[j] != calls[l])
  }

  /** One step of the deduplicated evaluation: the fitness of `values` is
      copied from the first evaluated individual with those values, or
      computed and recorded when there is none. */
  method Lookup(evaluated: seq<Individual>, values: seq<real>,
                evaluate: (seq<real>, seq<seq<real>>) -> real, T: seq<seq<real>>, ghost calls: seq<seq<real>>)
    returns (ind: Individual, evaluated': seq<Individual>, ghost calls': seq<seq<real>>)
    requires Memo(evaluated, calls, evaluate, T)
    ensures ind == Evaluated(Individual(values, None), evaluate, T)
    ensures Memo(evaluated', calls', evaluate, T)
    ensures values in calls'
    ensures calls' == calls || calls' == calls + [values]
  {
    var first := FirstWithValues(evaluated, values);
    if first.None? {
      ind := Individual(values, Some(evaluate(values, T)));
      evaluated', calls' := evaluated + [ind], calls + [values];
    } else {
      ind := Individual(values, evaluated[first.value].fitness);
      evaluated', calls' := evaluated, calls;
    }
  }

  /** The evaluation loop of generation 0: every listed individual is
      evaluated, duplicates included; `calls` records the values `evaluate`
      was called on. */
  method EvaluateEach(pop: seq<Individual>, ix: seq<nat>, evaluate: (seq<real>, seq<seq<real>>) -> real, T: seq<seq<real>>)
    returns (r: seq<Individual>, ghost calls: seq<seq<real>>)
    requires forall k :: 0 <= k < |ix| ==> ix[k] < |pop|
    ensures |r| == |pop|
    ensures forall i :: 0 <= i < |pop| ==> r[i] == if i in ix then Evaluated(pop[i], evaluate, T) else pop[i]
    ensures calls == seq(|ix|, k requires 0 <= k < |ix| => pop[ix[k]].values)
  {
    r := pop;
    calls := [];
    for k := 0 to |ix|
      invariant |r| == |pop|
      invariant forall i :: 0 <= i < |pop| ==> r[i] == if i in ix[..k] then Evaluated(pop[i], evaluate, T) else pop[i]
      invariant calls == seq(k, j requires 0 <= j < k => pop[ix[j]].values)
    {
      assert ix[..k + 1] == ix[..k] + [ix[k]];
      var ind := r[ix[k]];
      r := r[ix[k] := Individual(ind.values, Some(evaluate(ind.values, T)))];
      calls := calls + [ind.values];
    }
    assert ix[..|ix|] == ix;
  }

  /** The de-duplicated evaluation loop of later generations: `evaluate` runs
      once per distinct value sequence among the listed individuals, and
      later individuals with the same values copy the first one's fitness.
      The outcome is the same as evaluating every listed individual. */
  method EvaluateDistinct(pop: seq<Individual>, ix: seq<nat>, evaluate: (seq<real>, seq<seq<real>>) -> real, T: seq<seq<real>>)
    returns (r: seq<Individual>, ghost calls: seq<seq<real>>)
    requires forall k :: 0 <= k < |ix| ==> ix[k] < |pop|
    ensures |r| == |pop|
    ensures forall i :: 0 <= i < |pop| ==> r[i] == if i in ix then Evaluated(pop[i], evaluate, T) else pop[i]
    ensures forall j, l :: 0 <= j < l < |calls| ==> calls[j] != calls[l]
    ensures forall c :: c in calls ==> exists k :: 0 <= k < |ix| && c == pop[ix[k]].values
    ensures forall k :: 0 <= k < |ix| ==> pop[ix[k]].values in calls
    ensures |calls| <= |ix|
  {
    r := pop;
    calls := [];
    var evaluated: seq<Individual> := [];
    for k := 0 to |ix|
      invariant |r| == |pop|
      invariant forall i :: 0 <= i < |pop| ==> r[i] == if i in ix[..k] then Evaluated(pop[i], evaluate, T) else pop[i]
      invariant Memo(evaluated, calls, evaluate, T) && |calls| <= k
      invariant forall c :: c in calls ==> exists k' :: 0 <= k' < k && c == pop[ix[k']].values
      invariant forall k' :: 0 <= k' < k ==> pop[ix[k']].values in calls
    {
      assert ix[..k + 1] == ix[..k] + [ix[k]];
      var ind;
      ind, evaluated, calls := Lookup(evaluated, r[ix[k]].values, evaluate, T, calls);
      r := r[ix[k] := ind];
    }
    assert ix[..|ix|] == ix;
  }

  /** The indices of a `random.sample` of `count` elements out of `n`:
      distinct positions in range. */
  predicate IsSample(idx: seq<nat>, n: nat, count: int)
  {
    && |idx| == count
    && (forall k :: 0 <= k < |idx| ==> idx[k] < n)
    && (forall k, l :: 0 <= k < l < |idx| ==> idx[k] != idx[l])
  }

  function Sample(S: seq<seq<real>>, idx: seq<nat>): (T: seq<seq<real>>)
    requires forall k :: 0 <= k < |idx| ==> idx[k] < |S|
    ensures |T| == |idx| && forall k :: 0 <= k < |T| ==> T[k] in S
  {
    seq(|idx|, k requires 0 <= k < |idx| => S[idx[k]])
  }

  /** `batch_n = max(1, int(batch_size * len(S)))`: at least one series and,
      for a batch size in `(0, 1]` and a non-empty set, at most all of them. */
  function BatchCount(batchSize: real, n: nat): (c: int)
    ensures 1 <= c
    ensures 0.0 <= batchSize <= 1.0 && n >= 1 ==> c <= n
  {
    var t := Trunc(Mul(batchSize, n as real));
    if 0.0 <= batchSize <= 1.0 then MulAtMost(batchSize, n as real); Max(1, t) else Max(1, t)
  }

  /** `step = int(0.05 / batch_size)`, replaced by 1 when it truncates to
      0: the period of the convergence trace that `ag` records under
      `save_time`. The trace itself is not part of this model and nothing
      here uses the step; the function states its values and the
      `ZeroDivisionError` a zero batch size raises when `save_time` is on. A batch size in `(0, 0.05]`
      gives the truncated quotient, a larger one gives 1, and a negative
      size down to `-0.05` keeps a negative step; a zero batch size divides
      by zero. */
  function StepFor(batchSize: real): (r: Result<int>)
    ensures batchSize == 0.0 <==> r == Err(ZeroDivisionError)
    ensures 0.0 < batchSize ==> r.Ok? && 1 <= r.value
    ensures 0.0 < batchSize <= 0.05 ==> r.value == Trunc(0.05 / batchSize) && r.value as real <= 0.05 / batchSize
    ensures 0.05 < batchSize || batchSize < -0.05 ==> r == Ok(1)
    ensures -0.05 <= batchSize < 0.0 ==> r.Ok? && r.value < 0
  {
    if batchSize == 0.0 then Err(ZeroDivisionError)
    else
      var step := Trunc(0.05 / batchSize);
      Ok(if step == 0 then 1 else step)
  }

  /** `desp = max(2, int(desp * len(Sn[0])))`: the relative displacement
      turned into a count of positions, never below 2. */
  function ClampedDesp(ratio: real, n: nat): (d: int)
    ensures 2 <= d
    ensures 0.0 <= ratio <= 1.0 ==> d <= Max(2, n)
  {
    var t := Trunc(Mul(ratio, n as real));
    if 0.0 <= ratio <= 1.0 then MulAtMost(ratio, n as real); Max(2, t) else Max(2, t)
  }

  /** With the default ratio 0.04 a series of length 5 gives `desp = 2`, so
      the mutation may draw `|d| = 2` while `5 < 3 * 2`. */
  lemma DefaultDespAdmitsTooLongShift()
    ensures ClampedDesp(0.04, 5) == 2 && 5 < 3 * 2
  {
    assert Mul(0.04, 5 as real) == 0.2;
  }

  /** Python's `population[:] = offspring` for an offspring of the
      population's size. */
  method Replace(population: array<Individual>, offspring: seq<Individual>)
    requires |offspring| == population.Length
    modifies population
    ensures population[..] == offspring
  {
    for i := 0 to population.Length
      invariant forall j :: 0 <= j < i ==> population[j] == offspring[j]
    {
      population[i] := offspring[i];
    }
  }

  /** A generation's draws fit a population of `n` individuals and, in batch
      mode, a sample of `count` series out of `m`. */
  predicate DrawsFit(dr: GenerationDraws, n: nat, batch: bool, m: nat, count: int)
  {
    && |dr.selection| == n && (forall k :: 0 <= k < n ==> dr.selection[k] < n)
    && |dr.crossover| == n / 2 && |dr.mutation| == n
    && (batch && count <= m ==> IsSample(dr.sample, m, count))
  }

  /** The draws of a generation index a population of `n` individuals and,
      in batch mode, a set of `m` series. */
  predicate Indexes(dr: GenerationDraws, n: nat, batch: bool, m: nat)
  {
    && |dr.selection| == n && (forall k :: 0 <= k < n ==> dr.selection[k] < n)
    && |dr.crossover| == n / 2 && |dr.mutation| == n
    && (batch ==> forall k :: 0 <= k < |dr.sample| ==> dr.sample[k] < m)
  }

  /** The individuals tournament selection returns: copies of the drawn
      positions. */
  function Selected(pop: seq<Individual>, sel: seq<nat>): (r: seq<Individual>)
    requires forall k :: 0 <= k < |sel| ==> sel[k] < |pop|
    ensures |r| == |sel| && forall k :: 0 <= k < |sel| ==> r[k] == pop[sel[k]]
  {
    seq(|sel|, k requires 0 <= k < |sel| => pop[sel[k]])
  }

  /** The set a generation's fitness is computed on: the whole set, or its
      batch sample. */
  function EvaluationSet(S: seq<seq<real>>, sample: seq<nat>, batch: bool): seq<seq<real>>
    requires batch ==> forall k :: 0 <= k < |sample| ==> sample[k] < |S|
  {
    if batch then Sample(S, sample) else S
  }

  /** The offspring after the listed positions have been evaluated on `T`. */
  function EvaluatedAt(offspring: seq<Individual>, ix: seq<nat>, evaluate: (seq<real>, seq<seq<real>>) -> real,
                       T: seq<seq<real>>): (r: seq<Individual>)
    ensures |r| == |offspring|
  {
    seq(|offspring|, i requires 0 <= i < |offspring| => if i in ix then Evaluated(offspring[i], evaluate, T) else offspring[i])
  }

  /** One generation that completes: `offspring` is `varAnd` of the selected
      copies of `before`, and `after` is the offspring with the individuals
      that need it evaluated on the generation's evaluation set. */
  ghost predicate Step(before: seq<Individual>, after: seq<Individual>, offspring: seq<Individual>, S: seq<seq<real>>,
                       gen: nat, dr: GenerationDraws, tb: Toolbox, batch: bool, cxpb: real, mutpb: real)
  {
    && Indexes(dr, |before|, batch, |S|)
    && IsVariation(Selected(before, dr.selection), offspring, gen, tb, dr.crossover, dr.mutation, cxpb, mutpb)
    && after == EvaluatedAt(offspring, ToEvaluate(offspring, batch), tb.evaluate, EvaluationSet(S, dr.sample, batch))
  }

  /** One generation that stops with `e`: `varAnd` of the selected copies of
      `before` fails with `e`. */
  ghost predicate Fails(before: seq<Individual>, gen: nat, dr: GenerationDraws, e: Error, tb: Toolbox, cxpb: real, mutpb: real)
  {
    && |dr.selection| == |before| && (forall k :: 0 <= k < |before| ==> dr.selection[k] < |before|)
    && |dr.crossover| == |before| / 2 && |dr.mutation| == |before|
    && exists i :: FailsAt(Selected(before, dr.selection), i, e, gen, tb, dr.crossover, dr.mutation, cxpb, mutpb)
  }

  /** `pops` holds the population after each completed generation, starting
      with the one the run started from, and `offsprings` each of those
      generations' offspring. */
  ghost predicate Trace(pops: seq<seq<Individual>>, offsprings: seq<seq<Individual>>, S: seq<seq<real>>,
                        draws: seq<GenerationDraws>, tb: Toolbox, batch: bool, cxpb: real, mutpb: real)
  {
    && 1 <= |pops| <= |draws| + 1 && |offsprings| == |pops| - 1
    && forall g :: 0 <= g < |offsprings| ==>
         Step(pops[g], pops[g + 1], offsprings[g], S, g + 1, draws[g], tb, batch, cxpb, mutpb)
  }

  /** The logged `nevals` of each generation: the number of its offspring
      that needed evaluation. */
  predicate NevalsLog(log: seq<nat>, offsprings: seq<seq<Individual>>, batch: bool)
  {
    |log| == |offsprings| && forall g :: 0 <= g < |log| ==> log[g] == |ToEvaluate(offsprings[g], batch)|
  }

  /** Appending a generation's count and offspring keeps the log and its
      bounds. */
  lemma LogSnoc(log: seq<nat>, offsprings: seq<seq<Individual>>, batch: bool, n: nat, nevals: nat, offspring: seq<Individual>)
    requires NevalsLog(log, offsprings, batch) && nevals == |ToEvaluate(offspring, batch)|
    requires nevals <= n && forall g :: 0 <= g < |log| ==> log[g] <= n
    requires batch ==> nevals == n && forall g :: 0 <= g < |log| ==> log[g] == n
    ensures NevalsLog(log + [nevals], offsprings + [offspring], batch)
    ensures forall g :: 0 <= g < |log| + 1 ==> (log + [nevals])[g] <= n
    ensures batch ==> forall g :: 0 <= g < |log| + 1 ==> (log + [nevals])[g] == n
  {
  }

  /** The `nevals` column of a run: generation 0's count, then each later
      generation's. */
  predicate LogOf(log: seq<nat>, first: nat, offsprings: seq<seq<Individual>>, batch: bool)
  {
    |log| >= 1 && log[0] == first && NevalsLog(log[1..], offsprings, batch)
  }

  /** Prefixing generation 0's count to the later generations' log gives
      the run's log, within the same bounds. */
  lemma LogCons(first: nat, rest: seq<nat>, offsprings: seq<seq<Individual>>, batch: bool, n: nat)
    requires NevalsLog(rest, offsprings, batch)
    requires first <= n && forall g :: 0 <= g < |rest| ==> rest[g] <= n
    requires batch ==> first == n && forall g :: 0 <= g < |rest| ==> rest[g] == n
    ensures LogOf([first] + rest, first, offsprings, batch)
    ensures forall g :: 0 <= g < |rest| + 1 ==> ([first] + rest)[g] <= n
    ensures batch ==> forall g :: 0 <= g < |rest| + 1 ==> ([first] + rest)[g] == n
  {
    assert ([first] + rest)[1..] == rest;
  }

  /** `GA_segments`: the parameters of a run, with the source's defaults.
      `desp` holds the relative displacement until `register_toolbox` turns
      it into a count. */
  class GASegments {
    var ngen: int
    var cxpb: real
    var mutpb: real
    var desp: real
    var batchEvaluate: bool
    var batchSize: real

    constructor (ngen: int := 200, cxpb: real := 0.2, mutpb: real := 0.1, desp: real := 0.04,
                 batchEvaluate: bool := false, batchSize: real := 0.1)
      ensures this.ngen == ngen && this.cxpb == cxpb && this.mutpb == mutpb && this.desp == desp
      ensures this.batchEvaluate == batchEvaluate && this.batchSize == batchSize
    {
      this.ngen := ngen;
      this.cxpb := cxpb;
      this.mutpb := mutpb;
      this.desp := desp;
      this.batchEvaluate := batchEvaluate;
      this.batchSize := batchSize;
    }

    /** `register_toolbox(Sn)`: replaces the relative displacement by the
        clamped count for the first series' length; an empty set fails at
        `Sn[0]`. */
    method RegisterToolbox(Sn: seq<seq<real>>) returns (r: Result<int>)
      modifies this
      ensures Sn == [] ==> r == Err(IndexError) && desp == old(desp)
      ensures Sn != [] ==> r == Ok(ClampedDesp(old(desp), |Sn[0]|)) && desp == r.value as real
      ensures ngen == old(ngen) && cxpb == old(cxpb) && mutpb == old(mutpb)
      ensures batchEvaluate == old(batchEvaluate) && batchSize == old(batchSize)
    {
      if Sn == [] {
        return Err(IndexError);
      }
      var d := Trunc(Mul(desp, |Sn[0]| as real));
      if d < 2 {
        d := 2;
      }
      desp := d as real;
      return Ok(d);
    }

    /** `varAnd`: crossover on the pairs `(i - 1, i)` for odd `i` whose draw
        is below `cxpb`, then mutation of every individual whose draw is below
        `mutpb`. It fails at the first position whose mutation returns
        nothing or raises. Otherwise exactly the crossed or mutated
        individuals lose their fitness; the others are unchanged clones, and
        the trailing individual of an odd population is never crossed. */
    method VarAnd(pop: seq<Individual>, gen: nat, tb: Toolbox, cxDraws: seq<real>, mutDraws: seq<real>)
      returns (r: Result<seq<Individual>>)
      requires |cxDraws| == |pop| / 2 && |mutDraws| == |pop|
      ensures r.Ok? <==> forall i :: 0 <= i < |pop| ==> VariedAt(pop, i, gen, tb, cxDraws, mutDraws, cxpb, mutpb).Ok?
      ensures r.Ok? ==> IsVariation(pop, r.value, gen, tb, cxDraws, mutDraws, cxpb, mutpb)
      ensures r.Err? ==> exists i :: FailsAt(pop, i, r.error, gen, tb, cxDraws, mutDraws, cxpb, mutpb)
      ensures r.Ok? ==> forall i :: 0 <= i < |pop| ==>
        r.value[i].fitness == if Crossed(|pop|, i, cxDraws, cxpb) || mutDraws[i] < mutpb then None else pop[i].fitness
      ensures r.Ok? ==> forall i :: 0 <= i < |pop| && !Crossed(|pop|, i, cxDraws, cxpb) && mutDraws[i] >= mutpb ==>
        r.value[i] == pop[i]
      ensures |pop| % 2 == 1 ==> !Crossed(|pop|, |pop| - 1, cxDraws, cxpb)
    {
      var offspring := pop;
      var i := 1;
      while i < |offspring|
        invariant i % 2 == 1 && 1 <= i <= |pop| + 1 && |offspring| == |pop|
        invariant forall j :: 0 <= j < |pop| && j < i - 1 ==> offspring[j] == AfterCrossover(pop, j, gen, tb, cxDraws, cxpb)
        invariant forall j :: 0 <= j < |pop| && j >= i - 1 ==> offspring[j] == pop[j]
      {
        if cxDraws[i / 2] < cxpb {
          var children := tb.mate(gen, i, offspring[i - 1].values, offspring[i].values);
          offspring := offspring[i - 1 := Individual(children.0, None)][i := Individual(children.1, None)];
        }
        i := i + 2;
      }
      for i := 0 to |offspring|
        invariant |offspring| == |pop|
        invariant forall j :: 0 <= j < i ==> VariedAt(pop, j, gen, tb, cxDraws, mutDraws, cxpb, mutpb) == Ok(offspring[j])
        invariant forall j :: i <= j < |pop| ==> offspring[j] == AfterCrossover(pop, j, gen, tb, cxDraws, cxpb)
      {
        if mutDraws[i] < mutpb {
          match tb.mutate(gen, i, offspring[i].values)
          case Returned(v) =>
            offspring := offspring[i := Individual(v, None)];
          case ReturnedNone =>
            assert FailsAt(pop, i, TypeError, gen, tb, cxDraws, mutDraws, cxpb, mutpb);
            return Err(TypeError);
          case Raised(e) =>
            assert FailsAt(pop, i, e, gen, tb, cxDraws, mutDraws, cxpb, mutpb);
            return Err(e);
        }
      }
      return Ok(offspring);
    }

    /** One generation: tournament selection (the drawn positions), variation,
        evaluation of the individuals that need it with de-duplication, and
        replacement of the whole population. Returns the logged `nevals`,
        the number of individuals that needed evaluation, and, as a ghost,
        the offspring. When the variation fails the population is left as it
        was. */
    method Generation(population: array<Individual>, S: seq<seq<real>>, gen: nat, dr: GenerationDraws, tb: Toolbox)
      returns (r: Result<nat>, ghost offspring: seq<Individual>)
      requires DrawsFit(dr, population.Length, batchEvaluate, |S|, BatchCount(batchSize, |S|))
      requires batchEvaluate ==> BatchCount(batchSize, |S|) <= |S|
      requires !batchEvaluate ==> Consistent(population[..], tb.evaluate, S)
      modifies population
      ensures r.Ok? ==> Step(old(population[..]), population[..], offspring, S, gen, dr, tb, batchEvaluate, cxpb, mutpb)
      ensures r.Ok? ==> r.value == |ToEvaluate(offspring, batchEvaluate)|
      ensures r.Err? ==> Fails(old(population[..]), gen, dr, r.error, tb, cxpb, mutpb)
      ensures r.Err? ==> population[..] == old(population[..])
      ensures r.Ok? ==> AllValid(population[..])
      ensures r.Ok? ==> Consistent(population[..], tb.evaluate, if batchEvaluate then Sample(S, dr.sample) else S)
      ensures r.Ok? ==> r.value <= population.Length
      ensures r.Ok? && batchEvaluate ==> r.value == population.Length
    {
      var n := population.Length;
      ghost var before := population[..];
      var selected := seq(n, k requires 0 <= k < n reads population => population[dr.selection[k]]);
      assert selected == Selected(before, dr.selection);
      if !batchEvaluate {
        SelectionKeepsConsistent(before, dr.selection, selected, tb.evaluate, S);
      }
      var varied := VarAnd(selected, gen, tb, dr.crossover, dr.mutation);
      if varied.Err? {
        return Err(varied.error), [];
      }
      var off := varied.value;
      offspring := off;
      if !batchEvaluate {
        VariationKeepsConsistent(selected, off, tb.evaluate, S);
      }
      var invalid := ToEvaluate(off, batchEvaluate);
      var T;
      if batchEvaluate {
        T := Sample(S, dr.sample);
        ToEvaluateBatch(off);
      } else {
        T := S;
      }
      var evaluated, _ := EvaluateDistinct(off, invalid, tb.evaluate, T);
      assert evaluated == EvaluatedAt(off, invalid, tb.evaluate, T);
      EvaluationCompletes(off, invalid, evaluated, batchEvaluate, tb.evaluate, T);
      Replace(population, evaluated);
      return Ok(|invalid|), off;
    }

    /** One pass of the generational loop of `ag`: runs generation `gen`
        and, when it completes, records its population, offspring and
        `nevals`. */
    method Advance(population: array<Individual>, S: seq<seq<real>>, gen: nat, draws: seq<GenerationDraws>, tb: Toolbox,
                   log: seq<nat>, ghost pops: seq<seq<Individual>>, ghost offsprings: seq<seq<Individual>>)
      returns (r: Result<seq<nat>>, ghost pops': seq<seq<Individual>>, ghost offsprings': seq<seq<Individual>>)
      requires 1 <= gen <= |draws| && |pops| == gen
      requires DrawsFit(draws[gen - 1], population.Length, batchEvaluate, |S|, BatchCount(batchSize, |S|))
      requires batchEvaluate ==> BatchCount(batchSize, |S|) <= |S|
      requires Trace(pops, offsprings, S, draws, tb, batchEvaluate, cxpb, mutpb) && population[..] == pops[gen - 1]
      requires NevalsLog(log, offsprings, batchEvaluate)
      requires forall g :: 0 <= g < |log| ==> log[g] <= population.Length
      requires batchEvaluate ==> forall g :: 0 <= g < |log| ==> log[g] == population.Length
      requires !batchEvaluate ==> Consistent(population[..], tb.evaluate, S)
      modifies population
      ensures r.Err? ==> pops' == pops && offsprings' == offsprings && population[..] == old(population[..])
      ensures r.Err? ==> Fails(pops[gen - 1], gen, draws[gen - 1], r.error, tb, cxpb, mutpb)
      ensures r.Ok? ==> Trace(pops', offsprings', S, draws, tb, batchEvaluate, cxpb, mutpb)
      ensures r.Ok? ==> |pops'| == gen + 1 && pops'[0] == pops[0] && population[..] == pops'[gen]
      ensures r.Ok? ==> NevalsLog(r.value, offsprings', batchEvaluate)
      ensures r.Ok? ==> forall g :: 0 <= g < |r.value| ==> r.value[g] <= population.Length
      ensures r.Ok? && batchEvaluate ==> forall g :: 0 <= g < |r.value| ==> r.value[g] == population.Length
      ensures r.Ok? ==> AllValid(population[..])
      ensures r.Ok? && !batchEvaluate ==> Consistent(population[..], tb.evaluate, S)
    {
      var res, off := Generation(population, S, gen, draws[gen - 1], tb);
      if res.Err? {
        return Err(res.error), pops, offsprings;
      }
      TraceExtends(pops, offsprings, S, draws, tb, batchEvaluate, cxpb, mutpb, population[..], off);
      LogSnoc(log, offsprings, batchEvaluate, population.Length, res.value, off);
      return Ok(log + [res.value]), pops + [population[..]], offsprings + [off];
    }

    /** The generational loop of `ag`: generations `1..ngen` from the
        current population. Returns the logged `nevals` of each generation
        and, as ghosts, the population after each completed generation and
        each generation's offspring; a failing variation stops the loop. */
    method Evolve(population: array<Individual>, S: seq<seq<real>>, draws: seq<GenerationDraws>, tb: Toolbox)
      returns (r: Result<seq<nat>>, ghost pops: seq<seq<Individual>>, ghost offsprings: seq<seq<Individual>>)
      requires |draws| >= ngen
      requires forall g :: 0 <= g < |draws| ==>
        DrawsFit(draws[g], population.Length, batchEvaluate, |S|, BatchCount(batchSize, |S|))
      requires batchEvaluate ==> BatchCount(batchSize, |S|) <= |S|
      requires AllValid(population[..])
      requires !batchEvaluate ==> Consistent(population[..], tb.evaluate, S)
      modifies population
      ensures Trace(pops, offsprings, S, draws, tb, batchEvaluate, cxpb, mutpb)
      ensures pops[0] == old(population[..]) && population[..] == pops[|pops| - 1]
      ensures r.Ok? <==> |pops| == Max(0, ngen) + 1
      ensures r.Err? ==> |pops| <= ngen && Fails(pops[|pops| - 1], |pops|, draws[|pops| - 1], r.error, tb, cxpb, mutpb)
      ensures r.Ok? ==> NevalsLog(r.value, offsprings, batchEvaluate)
      ensures r.Ok? ==> forall g :: 0 <= g < |r.value| ==> r.value[g] <= population.Length
      ensures r.Ok? && batchEvaluate ==> forall g :: 0 <= g < |r.value| ==> r.value[g] == population.Length
      ensures r.Ok? ==> AllValid(population[..])
      ensures r.Ok? && !batchEvaluate ==> Consistent(population[..], tb.evaluate, S)
    {
      pops, offsprings := [population[..]], [];
      var log: seq<nat> := [];
      var gen := 1;
      while gen <= ngen
        invariant 1 <= gen <= Max(0, ngen) + 1 && |pops| == gen
        invariant Trace(pops, offsprings, S, draws, tb, batchEvaluate, cxpb, mutpb)
        invariant pops[0] == old(population[..]) && population[..] == pops[gen - 1]
        invariant NevalsLog(log, offsprings, batchEvaluate)
        invariant forall g :: 0 <= g < |log| ==> log[g] <= population.Length
        invariant batchEvaluate ==> forall g :: 0 <= g < |log| ==> log[g] == population.Length
        invariant AllValid(population[..])
        invariant !batchEvaluate ==> Consistent(population[..], tb.evaluate, S)
      {
        var next;
        next, pops, offsprings := Advance(population, S, gen, draws, tb, log, pops, offsprings);
        if next.Err? {
          return Err(next.error), pops, offsprings;
        }
        log := next.value;
        gen := gen + 1;
      }
      return Ok(log), pops, offsprings;
    }

    /** The evaluation of generation 0 in `ag`: the individuals without a
        fitness (all of them on a batch sample) are evaluated, duplicates
        included, on the evaluation set. Returns the logged `nevals`. */
    method EvaluateInitial(population: array<Individual>, S: seq<seq<real>>, sample0: seq<nat>, tb: Toolbox)
      returns (nevals: nat)
      requires batchEvaluate ==> forall k :: 0 <= k < |sample0| ==> sample0[k] < |S|
      requires !batchEvaluate ==> Consistent(population[..], tb.evaluate, S)
      modifies population
      ensures population[..] == EvaluatedAt(old(population[..]), ToEvaluate(old(population[..]), batchEvaluate), tb.evaluate,
                                            EvaluationSet(S, sample0, batchEvaluate))
      ensures nevals == |ToEvaluate(old(population[..]), batchEvaluate)| <= population.Length
      ensures batchEvaluate ==> nevals == population.Length
      ensures AllValid(population[..])
      ensures !batchEvaluate ==> Consistent(population[..], tb.evaluate, S)
    {
      var pop := population[..];
      var invalid := ToEvaluate(pop, batchEvaluate);
      var T := S;
      if batchEvaluate {
        T := Sample(S, sample0);
        ToEvaluateBatch(pop);
      }
      var evaluated, _ := EvaluateEach(pop, invalid, tb.evaluate, T);
      assert evaluated == EvaluatedAt(pop, invalid, tb.evaluate, EvaluationSet(S, sample0, batchEvaluate));
      EvaluationCompletes(pop, invalid, evaluated, batchEvaluate, tb.evaluate, T);
      Replace(population, evaluated);
      nevals := |invalid|;
    }

    /** `ag`: evaluates the initial population (the individuals without a
        fitness, or all of them on a batch sample), then runs generations
        `1..ngen`. Returns the `nevals` column of the logbook and, as ghosts,
        the population after each completed generation (generation 0 first)
        and each generation's offspring. In batch mode a sample larger than
        the set makes `random.sample` raise `ValueError` before anything is
        evaluated; a failing variation stops the run in that generation. */
    method Ag(population: array<Individual>, S: seq<seq<real>>, sample0: seq<nat>, draws: seq<GenerationDraws>, tb: Toolbox)
      returns (r: Result<seq<nat>>, ghost pops: seq<seq<Individual>>, ghost offsprings: seq<seq<Individual>>)
      requires batchEvaluate && BatchCount(batchSize, |S|) <= |S| ==> IsSample(sample0, |S|, BatchCount(batchSize, |S|))
      requires |draws| >= ngen
      requires forall g :: 0 <= g < |draws| ==>
        DrawsFit(draws[g], population.Length, batchEvaluate, |S|, BatchCount(batchSize, |S|))
      requires !batchEvaluate ==> Consistent(population[..], tb.evaluate, S)
      modifies population
      ensures batchEvaluate && BatchCount(batchSize, |S|) > |S| ==> r == Err(ValueError) && population[..] == old(population[..])
      ensures !(batchEvaluate && BatchCount(batchSize, |S|) > |S|) ==>
        && Trace(pops, offsprings, S, draws, tb, batchEvaluate, cxpb, mutpb)
        && pops[0] == EvaluatedAt(old(population[..]), ToEvaluate(old(population[..]), batchEvaluate), tb.evaluate,
                                  EvaluationSet(S, sample0, batchEvaluate))
        && population[..] == pops[|pops| - 1]
        && (r.Ok? <==> |pops| == Max(0, ngen) + 1)
        && (r.Err? ==> |pops| <= ngen && Fails(pops[|pops| - 1], |pops|, draws[|pops| - 1], r.error, tb, cxpb, mutpb))
      ensures r.Ok? ==> LogOf(r.value, |ToEvaluate(old(population[..]), batchEvaluate)|, offsprings, batchEvaluate)
      ensures r.Ok? ==> forall g :: 0 <= g < |r.value| ==> r.value[g] <= population.Length
      ensures r.Ok? && batchEvaluate ==> forall g :: 0 <= g < |r.value| ==> r.value[g] == population.Length
      ensures r.Ok? ==> AllValid(population[..])
      ensures r.Ok? && !batchEvaluate ==> Consistent(population[..], tb.evaluate, S)
    {
      pops, offsprings := [], [];
      if batchEvaluate && BatchCount(batchSize, |S|) > |S| {
        return Err(ValueError), pops, offsprings;
      }
      var nevals0 := EvaluateInitial(population, S, sample0, tb);
      var rest;
      rest, pops, offsprings := Evolve(population, S, draws, tb);
      if rest.Err? {
        return Err(rest.error), pops, offsprings;
      }
      var log := [nevals0] + rest.value;
      LogCons(nevals0, rest.value, offsprings, batchEvaluate, population.Length);
      return Ok(log), pops, offsprings;
    }
  }

  /** A trace of completed generations, extended by one more completed
      generation, is still a trace. */
  lemma TraceExtends(pops: seq<seq<Individual>>, offsprings: seq<seq<Individual>>, S: seq<seq<real>>,
                     draws: seq<GenerationDraws>, tb: Toolbox, batch: bool, cxpb: real, mutpb: real,
                     next: seq<Individual>, offspring: seq<Individual>)
    requires Trace(pops, offsprings, S, draws, tb, batch, cxpb, mutpb) && |pops| <= |draws|
    requires Step(pops[|pops| - 1], next, offspring, S, |pops|, draws[|pops| - 1], tb, batch, cxpb, mutpb)
    ensures Trace(pops + [next], offsprings + [offspring], S, draws, tb, batch, cxpb, mutpb)
  {
    var pops', offsprings' := pops + [next], offsprings + [offspring];
    forall g | 0 <= g < |offsprings|
      ensures Step(pops'[g], pops'[g + 1], offsprings'[g], S, g + 1, draws[g], tb, batch, cxpb, mutpb)
    {
      assert pops'[g] == pops[g] && pops'[g + 1] == pops[g + 1] && offsprings'[g] == offsprings[g];
    }
    var h := |offsprings|;
    assert Step(pops'[h], pops'[h + 1], offsprings'[h], S, h + 1, draws[h], tb, batch, cxpb, mutpb) by {
      assert pops'[h] == pops[|pops| - 1] && pops'[h + 1] == next && offsprings'[h] == offspring;
    }
  }

  /** Selected copies of consistent individuals are consistent. */
  lemma SelectionKeepsConsistent(pop: seq<Individual>, sel: seq<nat>, selected: seq<Individual>,
                                 evaluate: (seq<real>, seq<seq<real>>) -> real, T: seq<seq<real>>)
    requires Consistent(pop, evaluate, T)
    requires |selected| == |sel| && forall k :: 0 <= k < |sel| ==> sel[k] < |pop| && selected[k] == pop[sel[k]]
    ensures Consistent(selected, evaluate, T)
  {
    forall k | 0 <= k < |selected| && selected[k].fitness.Some?
      ensures selected[k].fitness.value == evaluate(selected[k].values, T)
    {
      assert selected[k] == pop[sel[k]];
    }
  }

  /** Variation keeps a fitness only on an unchanged individual, so it keeps
      consistency. */
  lemma VariationKeepsConsistent(pop: seq<Individual>, offspring: seq<Individual>,
                                 evaluate: (seq<real>, seq<seq<real>>) -> real, T: seq<seq<real>>)
    requires Consistent(pop, evaluate, T) && |offspring| == |pop|
    requires forall i :: 0 <= i < |pop| ==> offspring[i].fitness.None? || offspring[i] == pop[i]
    ensures Consistent(offspring, evaluate, T)
  {
    forall i | 0 <= i < |offspring| && offspring[i].fitness.Some?
      ensures offspring[i].fitness.value == evaluate(offspring[i].values, T)
    {
      assert offspring[i] == pop[i];
    }
  }

  /** After evaluating the listed individuals every fitness is valid, and
      consistent when the unlisted ones were. */
  lemma EvaluationCompletes(offspring: seq<Individual>, ix: seq<nat>, r: seq<Individual>, batch: bool,
                            evaluate: (seq<real>, seq<seq<real>>) -> real, T: seq<seq<real>>)
    requires ix == ToEvaluate(offspring, batch)
    requires |r| == |offspring|
    requires forall i :: 0 <= i < |offspring| ==> r[i] == if i in ix then Evaluated(offspring[i], evaluate, T) else offspring[i]
    requires batch || Consistent(offspring, evaluate, T)
    ensures AllValid(r) && Consistent(r, evaluate, T)
  {
    forall i | 0 <= i < |r|
      ensures r[i].fitness.Some? && r[i].fitness.value == evaluate(r[i].values, T)
    {
      if !(i in ix) {
        assert !NeedsEvaluation(offspring[i], batch);
      }
    }
  }
}
