# ga_segments in Dafny

This project models the core of `ga_segments`, a genetic algorithm that
computes the DTW centroid of a set of time series. It also models the
nearest-centroid classifier built on top of it. The model covers:

- the **resampler** (`interpolate`): linear interpolation of a series onto
  `m` sample positions centred in equal bins;
- the **normaliser** (`Normalize`): a pooled, sign-flipped z-score whose
  mean and standard deviation are stored on the object and used by the
  inverse map;
- the **crossover**:
  - the DTW warping path of the two parents is cut into alignment segments
    at plateau boundaries;
  - a run of segments is drawn;
  - the aligned parts of the parents are swapped in place, each resampled to
    the length of the part it replaces;
- the **mutation**: a lateral displacement (one segment widens by `d`, another
  narrows by `d`), the smooth vertical shift (unreachable as written), and
  the extreme single-point shift, behind the length guard;
- the **fitness**: the sum of squared alignment distances, for DTW and for
  FastDTW;
- the **initialisation helpers**: the pooled minimum and maximum, a uniform
  random individual, and a sampled series;
- the **generational loop** (`GA_segments`):
  - `varAnd`, which crosses pairs, then mutates, and invalidates the
    fitness of whatever changed;
  - the evaluation of generation 0;
  - the de-duplicated evaluation of later generations;
  - the replacement of the population in place;
  - the derived parameters `batch_n`, `step` and `desp`;
- the **nearest-centroid classifier** (`NC`):
  - `fit` as a per-class loop over an abstract centroid function;
  - `predict` and `pretrained_predict` (argmin labelling);
  - the two fuzzy predictions (memberships `1 - d / sum(d)` normalised);
  - `score` (accuracy).

Several things enter the model as inputs:

- **The DTW alignment**, which comes from a native library. For the crossover
  it is an `Alignment` value whose path satisfies `IsWarpingPath`: the two
  index sequences have equal length, start at `(0, 0)`, end at
  `(n-1, m-1)`, and each step advances each index by 0 or 1, at least one of
  them by 1. For fitness and classification the DTW distance is a function
  parameter.
- **Random draws**: `random.random`, `randint`, `choice`, `gauss` and `sample`
  results are parameters with their ranges. A `random.choice` over a
  computed list is the element at the drawn index modulo the list's length.
  An empty list raises `IndexError`.
- **DEAP toolbox entries**: selection is given as the positions it drew;
  crossover and mutation are functions of the call's position; evaluation
  is a function of the values and the evaluation set.

Errors that Python raises are modelled as `Err(...)` results or `Raised`
outcomes carrying the exception's class.

Layout, one module per source file:

- `interpolation.dfy`
- `normalizacion.dfy`
- `crossover.dfy`, with `alignment.dfy` for the shape of a warping path
- `mutation.dfy`
- `fitness.dfy`
- `generate.dfy`
- `ga.dfy`
- `nc.dfy`
- `common.dfy` for shared definitions (`Result`, `Option`, sums, ranges,
  truncation)

## Model

| member | source | states |
|---|---|---|
| Interpolation.Interpolate | ga_segments/segmentsf/interpolation.py:14-19 | Cases by input: one value gives `m` copies of it; at least two values and `m > 0` give exactly `m` values; `m = 0` with other than one value raises `ZeroDivisionError`; an empty series with `m > 0` raises `ValueError` |
| Interpolation.Position | ga_segments/segmentsf/interpolation.py:16-18 | Every sample position `(2k+1)·n/(2m)` lies strictly inside `(0, n)` |
| Interpolation.PositionsIncreasing | ga_segments/segmentsf/interpolation.py:17-18 | Sample positions strictly increase with `k` |
| Interpolation.SampleIsConvexCombination | ga_segments/segmentsf/interpolation.py:19 | Output `k` is the convex combination `(1-f)·x[i] + f·x[i+1]` of the two input values around its position `t`, with `i = ⌊t⌋` a valid pair index and `0 <= f < 1` |
| Interpolation.InterpolateWithinBounds | ga_segments/segmentsf/interpolation.py:14-19 | Any bounds that hold for every input value hold for every output value, so outputs lie between `min(x)` and `max(x)` |
| Interpolation.LerpMonotone | ga_segments/segmentsf/interpolation.py:19 | On a non-decreasing series the interpolated value is monotone in the position |
| Interpolation.InterpolatePreservesOrder | ga_segments/segmentsf/interpolation.py:14-19 | Resampling a non-decreasing series gives a non-decreasing series |
| Alignment.PathMonotone | ga_segments/segmentsf/dtw.py:42-50 | Both index sequences of a warping path are non-decreasing |
| Alignment.PathInRange | ga_segments/segmentsf/dtw.py:42-50 | Every index on a warping path is a valid index of its series |
| Normalization.Variance | ga_segments/segmentsf/normalizacion.py:22 | The pooled population variance is non-negative |
| Normalization.NormalizeAll | ga_segments/segmentsf/normalizacion.py:24-30 | Normalising keeps the number of series and each series' length |
| Normalization.DenormalizeAll | ga_segments/segmentsf/normalizacion.py:38-44 | Denormalising keeps the number of series and each series' length |
| Normalization.FlattenNormalize | ga_segments/segmentsf/normalizacion.py:15-30 | Normalising series by series and then pooling equals pooling and then normalising |
| Normalization.SumNormalizeSeries | ga_segments/segmentsf/normalizacion.py:27 | The normalised values sum to `(n·media - sum(v)) / std` |
| Normalization.CenteredSumIsZero | ga_segments/segmentsf/normalizacion.py:21-27 | Centred on its own mean, a normalised sequence sums to zero |
| Normalization.NormalizedSumIsZero | ga_segments/segmentsf/normalizacion.py:15-27 | The pooled normalised values of the whole set sum to zero, because `media` is the pooled mean |
| Normalization.RoundTrip | ga_segments/segmentsf/normalizacion.py:27-42 | `desnormalize(normalize(S)) == S` exactly for the same statistics with `std != 0` |
| Normalization.Normalizer.Normalize | ga_segments/segmentsf/normalizacion.py:9-30 | Stores the pooled mean and standard deviation on the object and maps every value `v` to `(media - v) / std` |
| Normalization.Normalizer.Denormalize | ga_segments/segmentsf/normalizacion.py:32-44 | After a `normalize`, maps every `w` to `media - std·w` with the stored statistics. Before any `normalize` the statistics are read only at the first value: `AttributeError` exactly when some series is non-empty, otherwise the all-empty input comes back |
| Crossover.BoundariesBelow | ga_segments/segmentsf/crossover.py:21-30 | The number of boundaries among interior positions below `hi` is at most their count |
| Crossover.SegmentCount | ga_segments/segmentsf/crossover.py:20-33 | There is at least one segment, and at most `len(w) - 1` for a path longer than 2 |
| Crossover.CutAtBoundary | ga_segments/segmentsf/crossover.py:23-30 | At a boundary, closing the open segment and opening `[i]` keeps the loop state |
| Crossover.CutInside | ga_segments/segmentsf/crossover.py:31-32 | Elsewhere, extending the open segment by `i` keeps the loop state |
| Crossover.FinishRuns | ga_segments/segmentsf/crossover.py:33 | Closing the last segment at the final path position completes the segmentation |
| Crossover.CutStep | ga_segments/segmentsf/crossover.py:23-32 | One pass of the loop body, with the three branches of the source, keeps the loop state |
| Crossover.CutSegments | ga_segments/segmentsf/crossover.py:20-33 | The segmentation: one segment per boundary plus one. Segments are consecutive, non-empty runs from position 0 to the last position; a segment opens at an interior position exactly when it is a boundary; a one-step path gives `[[0, 0]]` |
| Crossover.StartsOrdered | ga_segments/segmentsf/crossover.py:20-33 | Each segment ends before any later segment starts |
| Crossover.RunInRange | ga_segments/segmentsf/crossover.py:20-33 | Every segment lies within the path positions |
| Crossover.ChosenRun | ga_segments/segmentsf/crossover.py:35-40 | For ordered draws, `0 <= pi <= pf < len(W1)` |
| Crossover.ChooseRun | ga_segments/segmentsf/crossover.py:20-40 | The segmentation, and `pi`/`pf` as the start of the lower and the end of the higher drawn segment, in range |
| Crossover.Splice | ga_segments/segmentsf/crossover.py:44 | Replacing `g[pi:pf]` by a part changes the length by the difference of the two lengths |
| Crossover.Children | ga_segments/segmentsf/crossover.py:40-44 | Each child keeps its parent's length, since each swapped part is resampled to the length it replaces |
| Crossover.ChildrenSplice | ga_segments/segmentsf/crossover.py:40-44 | `0 <= pi1 < pf1 <= len(G1)` and `0 <= pi2 < pf2 <= len(G2)`, both resamplings succeed, and each child is its parent with the other's resampled part spliced in |
| Crossover.SpliceKeeps | ga_segments/segmentsf/crossover.py:44 | A same-length splice keeps every position outside `[pi, pf)` |
| Crossover.ChildrenKeepOutside | ga_segments/segmentsf/crossover.py:44 | `G1` outside `[pi1, pf1)` and `G2` outside `[pi2, pf2)` are unchanged |
| Crossover.ChildrenWithinParentRange | ga_segments/segmentsf/crossover.py:44 | Bounds holding for every value of both parents hold for every value of both children |
| Crossover.Overwrite | ga_segments/segmentsf/crossover.py:44 | The slice assignment `a[at:at+len(r)] = r` writes `r` there and keeps the rest |
| Crossover.Exchange | ga_segments/segmentsf/crossover.py:44 | Both resamplings read the original parents before either slice is written; the arrays become the two splices |
| Crossover.ExchangedAreChildren | ga_segments/segmentsf/crossover.py:41-44 | The two splices at `W1[pi]..W1[pf]+1` and `W2[pi]..W2[pf]+1` are exactly the children |
| Crossover.SwapAligned | ga_segments/segmentsf/crossover.py:41-44 | The parents are overwritten in place by the children of the run `[pi, pf]` |
| Crossover.Crossover | ga_segments/segmentsf/crossover.py:8-46 | The whole crossover: the segmentation of the path, the run between the draws, and both parents replaced in place by their children |
| Mutation.Choice | ga_segments/segmentsf/mutation.py:36-45 | `random.choice` returns a member of the candidate list |
| Mutation.VariantOf | ga_segments/segmentsf/mutation.py:34-88 | The lateral displacement is chosen exactly when `p < 0.4`, and the smooth vertical shift is never chosen |
| Mutation.SecondCut | ga_segments/segmentsf/mutation.py:36-45 | Raises `IndexError` exactly when the second cut's candidate list is empty. Otherwise the cut is in range, more than `abs(d)` from the first, and leaves room for a second segment |
| Mutation.OtherSegment | ga_segments/segmentsf/mutation.py:50-64 | The four cuts satisfy `c1 + abs(d) < c2 <= c3` and `c3 + abs(d) < c4 <= len`. One segment is the drawn pair; the side follows the draw when both sides have room |
| Mutation.ChooseCuts | ga_segments/segmentsf/mutation.py:36-64 | Raises `IndexError` exactly when no second cut exists, which needs a length of at most `3·abs(d) + 2`; otherwise the cuts are valid |
| Mutation.Displace | ga_segments/segmentsf/mutation.py:66-72 | The lateral displacement keeps the length exactly |
| Mutation.Resampled | ga_segments/segmentsf/mutation.py:67-69 | Both resamplings succeed, with lengths `c2-c1+d >= 1` and `c4-c3-d >= 1` |
| Mutation.DisplaceKeeps | ga_segments/segmentsf/mutation.py:66-72 | The prefix `[0, c1)`, the middle `[c2, c3)` (moved by `d`) and the suffix `[c4, len)` are copied unchanged |
| Mutation.DisplaceWithinRange | ga_segments/segmentsf/mutation.py:66-72 | A lateral displacement never leaves the value range of the individual |
| Mutation.LateralDisplacement | ga_segments/segmentsf/mutation.py:34-72 | The lateral branch: `IndexError` exactly when no second cut exists, otherwise the displaced copy for valid cuts |
| Mutation.SmoothCuts | ga_segments/segmentsf/mutation.py:76-82 | `1 <= cxpoint1 < cxpoint2 <= size` |
| Mutation.SmoothShift | ga_segments/segmentsf/mutation.py:76-86 | Only positions in `[cxpoint1, cxpoint2)` change, each by `g·(0.1·r + 0.9)` |
| Mutation.ExtremeShift | ga_segments/segmentsf/mutation.py:88-90 | Exactly the drawn position changes, by the drawn offset |
| Mutation.MutationAsWritten | ga_segments/segmentsf/mutation.py:29-91 | As written: too short an individual is untouched and no value is returned. Otherwise the lateral branch leaves the input alone and returns the displaced copy or raises, and the extreme branch shifts one value in place and returns it |
| Mutation.Mutate | ga_segments/segmentsf/mutation.py:29-91 | As intended: always returns an individual, unchanged when it is too short for the shift |
| Fitness.SquaredDistances | ga_segments/segmentsf/fitness.py:32-35 | A sum of squared distances is non-negative |
| Fitness.SquaredDistancesAppend | ga_segments/segmentsf/fitness.py:33-34 | The fitness is additive over a concatenation of evaluation sets |
| Fitness.PerfectFitness | ga_segments/segmentsf/fitness.py:32-35 | A candidate at distance 0 from every series, including the empty set's case, has fitness 0 |
| Fitness.FitnessDtw | ga_segments/segmentsf/fitness.py:23-35 | The loop computes the sum over `S`, in order, of `dtw(s, C)` squared, which is non-negative |
| Fitness.Radius | ga_segments/segmentsf/fitness.py:17 | The radius is at least 1, and for `vp` in `[0, 1]` at most `max(1, len(S[0]))` |
| Fitness.FitnessFastdtw | ga_segments/segmentsf/fitness.py:6-20 | As `fitness_dtw` with FastDTW at the radius taken from the first series; an empty set raises `IndexError` |
| Generate.SeqMin | ga_segments/segmentsf/generate.py:8 | `min` of a series is one of its values and at most every value |
| Generate.SeqMax | ga_segments/segmentsf/generate.py:12 | `max` of a series is one of its values and at least every value |
| Generate.Minimo | ga_segments/segmentsf/generate.py:7-8 | The minimum over all values of all series; `ValueError` exactly when the set or one of its series is empty |
| Generate.Maximo | ga_segments/segmentsf/generate.py:11-12 | The maximum over all values of all series; `ValueError` exactly when the set or one of its series is empty |
| Generate.MinimoAtMostMaximo | ga_segments/segmentsf/generate.py:7-12 | `minimo(S) <= maximo(S)` |
| Generate.Scale | ga_segments/segmentsf/generate.py:26 | `r·(maxi - mini) + mini` with `r` in `[0, 1)` lies in `[mini, maxi]` |
| Generate.RandomGenerate | ga_segments/segmentsf/generate.py:15-27 | Exactly `L` values, value `i` being draw `i` scaled onto `[mini, maxi]`; `ValueError` when a series is empty |
| Generate.SampleGenerate | ga_segments/segmentsf/generate.py:30-38 | A member of `S`; an empty set raises `IndexError` |
| Common.CountEqual | ga_segments/nc.py:183 | The number of equal positions is at most the length |
| GA.ToEvaluate | ga_segments/ga.py:168-173 | Positions in increasing order. Without batches, exactly the individuals with an invalid fitness; with batches, all of them |
| GA.ToEvaluateBatch | ga_segments/ga.py:171-173 | With batch evaluation every position is listed |
| GA.FirstWithValues | ga_segments/ga.py:178-182 | `list.index` of the first evaluated individual with equal values, or none exactly when no such individual exists |
| GA.Lookup | ga_segments/ga.py:177-182 | One de-duplicated evaluation: the fitness of the values on the evaluation set, recorded once per distinct value sequence |
| GA.EvaluateEach | ga_segments/ga.py:139-140 | Generation 0 evaluates every listed individual, duplicates included, calling `evaluate` once per listed individual |
| GA.EvaluateDistinct | ga_segments/ga.py:176-182 | The result equals evaluating every listed individual, while `evaluate` runs once per distinct value sequence among them |
| GA.Sample | ga_segments/ga.py:137 | The batch sample has the drawn size and consists of members of `S` |
| GA.BatchCount | ga_segments/ga.py:127-130 | `batch_n >= 1`, and `batch_n <= len(S)` for a batch size in `[0, 1]` and a non-empty set |
| GA.StepFor | ga_segments/ga.py:120-123 | A zero batch size, and only that, raises `ZeroDivisionError`. A positive one gives `step >= 1`: `int(0.05 / batch_size)` (at most the quotient) for sizes up to 0.05, and 1 above. A negative size gives 1 below -0.05 and the negative truncated quotient from -0.05 up |
| GA.ClampedDesp | ga_segments/ga.py:219-221 | `desp >= 2`, and at most `max(2, len(Sn[0]))` for a ratio in `[0, 1]` |
| GA.DefaultDespAdmitsTooLongShift | ga_segments/ga.py:52-58 | With the default ratio 0.04 and series of length 5, `desp = 2`, so a shift `abs(d) = 2` with `5 < 3·2` can be drawn |
| GA.Replace | ga_segments/ga.py:189 | `population[:] = offspring` makes the population equal to the offspring, keeping its size |
| GA.SelectionKeepsConsistent | ga_segments/ga.py:162 | Selected copies of individuals whose fitness is their evaluation keep that property |
| GA.VariationKeepsConsistent | ga_segments/ga.py:73-85 | Variation keeps a fitness only on an unchanged individual, so it keeps that property |
| GA.EvaluationCompletes | ga_segments/ga.py:168-182 | After the evaluation every fitness is valid and is the evaluation of the individual on the evaluation set |
| GA.GASegments.constructor | ga_segments/ga.py:19-60 | Stores the run parameters, the relative shift `desp` among them, with the source's defaults: `ngen = 200`, `cxpb = 0.2`, `mutpb = 0.1`, `desp = 0.04`, no batch evaluation, `batch_size = 0.1` |
| GA.GASegments.RegisterToolbox | ga_segments/ga.py:211-221 | Replaces the relative `desp` by the clamped count for `len(Sn[0])`; an empty set raises `IndexError` |
| GA.GASegments.VarAnd | ga_segments/ga.py:69-87 | Succeeds exactly when every position's crossover-then-mutation succeeds, and then returns, position by position, the crossed pair member (pairs `(i-1, i)` for odd `i` whose draw is below `cxpb`) mutated when its draw is below `mutpb`. Otherwise it fails with the error of the first failing position: `TypeError` when the mutation returns nothing, or the error the mutation raised. On success exactly the crossed or mutated individuals lose their fitness, the rest are unchanged clones, and the last of an odd population is never crossed |
| GA.Selected | ga_segments/ga.py:162 | Selection returns one copy of the population member at each drawn position, in draw order |
| GA.GASegments.Generation | ga_segments/ga.py:160-193 | One generation. On success the new population is the offspring (`varAnd` of the selected copies) with the individuals that need it evaluated on the generation's set (the whole set, or the batch sample); `nevals` is the number of those individuals, at most the population size and equal to it with batches; every fitness ends valid and equal to its evaluation. When `varAnd` fails the error is that failure and the population is unchanged |
| GA.GASegments.Advance | ga_segments/ga.py:160-193 | One pass of the generational loop: on success the record of populations, offsprings and `nevals` grows by this generation and keeps its invariants; on failure nothing changes and the failure is `varAnd`'s in this generation |
| GA.GASegments.Evolve | ga_segments/ga.py:160-193 | The loop over generations `1..ngen`: the population after each completed generation is the previous one stepped by that generation, the final population is the last of them, and the run completes all `ngen` generations exactly when it succeeds; otherwise it stops at the first generation whose `varAnd` fails, with that error. The `nevals` of each generation is logged |
| GA.GASegments.EvaluateInitial | ga_segments/ga.py:132-146 | Generation 0: the individuals without a fitness (all of them with batches) are evaluated on the set or on the batch sample, and `nevals` is their number |
| GA.TraceExtends | ga_segments/ga.py:160-193 | A record of completed generations extended by one more completed generation is still a record |
| GA.LogSnoc | ga_segments/ga.py:193 | Logging one more generation's `nevals` keeps the log in step with the offsprings and within the population size |
| GA.LogCons | ga_segments/ga.py:146-193 | Generation 0's `nevals` followed by the later generations' log is the run's `nevals` column, within the same bounds |
| GA.GASegments.Ag | ga_segments/ga.py:89-209 | An oversized batch sample raises `ValueError` before anything changes. Otherwise generation 0 is the initial population with the individuals that need it evaluated, each later generation is the previous one stepped by that generation's selection, variation and evaluation, and the final population is the last; the run succeeds exactly when all `ngen` generations complete, and otherwise fails with the first failing `varAnd`'s error. The `nevals` log has one entry per generation plus generation 0, each the count of individuals that needed evaluation, at most the population size and equal to it with batches. At the end every fitness is valid (and, without batches, the evaluation on `S`) |
| NC.Distances | ga_segments/nc.py:72 | One distance per centroid |
| NC.ArgMin | ga_segments/nc.py:73 | `np.argmin`: a position holding the smallest value, and the first such position |
| NC.Beliefs | ga_segments/nc.py:130-134 | One membership per centroid; failures are `ZeroDivisionError` |
| NC.SumRawBeliefs | ga_segments/nc.py:131-132 | Summing `1 - d/t` over `k` distances gives `k - sum(d)/t` |
| NC.RawBeliefsSum | ga_segments/nc.py:131-132 | The raw beliefs for the total distance sum to `k - 1` |
| NC.SumScaled | ga_segments/nc.py:133-134 | Dividing every belief by `c` divides their sum by `c` |
| NC.BeliefsSumToOne | ga_segments/nc.py:130-135 | The memberships fail exactly for a single centroid or a zero total distance, and otherwise sum to 1 |
| NC.BeliefsOrder | ga_segments/nc.py:130-134 | With non-negative distances every membership lies in `[0, 1]`, and a nearer centroid gets a strictly larger membership |
| NC.Unique | ga_segments/nc.py:34 | `np.unique`: strictly increasing, with exactly the labels of `y` |
| NC.Count | ga_segments/nc.py:44 | The count of a label is positive exactly when the label occurs |
| NC.Members | ga_segments/nc.py:44-45 | `X[y == c]` holds one series per occurrence of `c`, each a series of `X` at a position labelled `c` |
| NC.LabelPositions | ga_segments/nc.py:44 | The positions the mask `y == c` selects: strictly increasing, each labelled `c`, one per occurrence of `c` |
| NC.LabelPositionsComplete | ga_segments/nc.py:44 | Every position labelled `c` is selected by the mask `y == c` |
| NC.MembersInOrder | ga_segments/nc.py:44-45 | `X[y == c]` is exactly the series of `X` at the selected positions, in their order in `X`, each once |
| NC.Computed | ga_segments/nc.py:38-46 | The classes before the first one whose centroid computation raises all compute, and the class at that position raises; all classes when none does |
| NC.ComputedSnoc | ga_segments/nc.py:46-55 | One more class that computes appends its centroid and its inertia to those of the classes before it |
| NC.PerClass | ga_segments/nc.py:38-55 | The loop computes one centroid per class in class order, and the running total of the per-class inertias, up to the first class whose computation raises; it succeeds exactly when no class raises, and otherwise fails with that class's error |
| NC.NC.constructor | ga_segments/nc.py:15-23 | A new classifier is not fitted |
| NC.NC.Fit | ga_segments/nc.py:25-55 | Sets `classes` to the distinct labels in increasing order, then one centroid per class from the series with that label, and `inertia` to the running sum of the per-class inertias after each class. The first class whose centroid computation raises stops `fit` with that error, keeping `classes` and the centroids and inertia of the earlier classes; it succeeds exactly when every class has its centroid |
| NC.NC.Predict | ga_segments/nc.py:58-74 | Each label is `classes[argmin]` of the distances to the centroids. Before `fit` it raises `AttributeError`; with no centroid it raises `Exception` |
| NC.NC.PretrainedPredict | ga_segments/nc.py:92-111 | One label per series: the position of the first centroid at strictly smallest distance, found by a running minimum from infinity; with no centroid every label stays 0 |
| NC.NC.FuzzyLoop | ga_segments/nc.py:128-136 | The memberships of each series in order; the first failing series stops the loop with `ZeroDivisionError` |
| NC.NC.FuzzyPredict | ga_segments/nc.py:114-136 | Returns nothing and stores the memberships for the fitted centroids. `AttributeError` before `fit`, `Exception` with no centroid; otherwise it succeeds exactly when every series' memberships can be computed, and fails with `ZeroDivisionError` at the first one that cannot, leaving the memberships of the earlier series stored |
| NC.NC.PretrainedFuzzyPredict | ga_segments/nc.py:152-171 | Stores and returns the memberships for the given centroids. It succeeds exactly when every series' memberships can be computed, and fails with `ZeroDivisionError` at the first one that cannot, leaving the memberships of the earlier series stored |
| NC.NC.Score | ga_segments/nc.py:174-183 | Labels every series with `classes[argmin]` of its distances to the centroids, and returns the fraction of those labels equal to `y`, in `[0, 1]`; `nan` for an empty `y`. Before `fit` it raises `AttributeError` and with no centroid `Exception`, leaving the labels alone; the fitted model and the memberships never change |

## Left out

- The DTW and FastDTW algorithms (`dtwf.so`) are not part of this model. The alignment path and the distances are inputs, described by `IsWarpingPath` and by function parameters.
- Probability distributions are not modelled. Each random draw is an input within its stated range, and nothing is stated about how often an outcome occurs.
- DEAP internals are not modelled: `creator`, `Toolbox`, tournament selection, `selBest`, `HallOfFame`, `Statistics`, and the `Logbook` beyond its `nevals` column. Selection enters as the positions drawn; `mate`, `mutate` and `evaluate` are function parameters.
- `multiprocessing.Pool`, wall-clock timing, the convergence trace (`timesg`), printing, verbosity and plotting are left out. They do not affect the population.
- `calculate_centroids` and the cooperative genetic algorithm (`ga_coop`) are not part of this model. `fit` receives the centroid computation as the function `centroidOf`, which returns the centroid and its inertia, or the error it raises.
- `fit_predict` and `fit_fuzzy_predict` are the compositions of `Fit` with `Predict` or `FuzzyPredict`. As written, `fit_predict` returns `None`, since `predict` returns nothing. `fit_fuzzy_predict` likewise returns `None`.
- Floating-point behaviour is not modelled; values are reals. This covers:
  - `np.arange` rounding, which can yield `m ± 1` sample positions;
  - `nan` or `inf` from numpy's division by a zero `std`, or from the mean of an empty set;
  - comparisons involving `nan` in `pretrained_predict`.
- Normalization.Normalizer.Normalize: requires a non-empty pooled set and a positive `std`, because numpy yields `nan`/`inf` there instead of raising. The square root behind `np.std` is the input `sd`.
- Fitness.FitnessDtw: returns the fitness itself rather than the 1-tuple `(fitness,)`.
- NC.NC.Score: requires `len(y) == len(X)`. numpy's element-wise comparison of arrays of different shapes is not modelled.
- Crossover.Crossover: requires two distinct parent arrays. `varAnd` passes clones, so the two parents never share storage.
- Mutation.ChooseCuts: states the guarantees of the drawn cuts rather than which draw leads to which cut. `Choice` fixes that mapping, and the cut-level lemmas state its consequences.
- Mutation.MutationAsWritten: the smooth vertical shift is unreachable through `VariantOf`, so it is modelled separately as `Mutation.SmoothShift`.
- GA.GASegments.RegisterToolbox: the source stores the caller's `mutparams` dictionary itself and rewrites its `desp` entry in place, so a dictionary shared with the caller or with another `GA_segments` sees the clamped count. The model holds `desp` as a field of this object, so that aliasing is not modelled.
- NC.NC.Fit: when `params_ga` holds a `mutparams` dictionary, every class's genetic algorithm receives that same dictionary, so the first class's `register_toolbox` turns the relative `desp` into a count and later classes scale that count again. The model receives the centroid computation as the function `centroidOf`, so this sharing between classes is not modelled.
- GA.GASegments.constructor: models the parameters the generational loop reads. `pop_size`, `verbose`, `multi_jobs`, `save_time`, the selection parameters and the mutation's `mu`, `sigma` and `sigma_extrem` entries (the mutation receives its draws as inputs) are left out, because they only size the initial population, print, parallelise, time, or configure DEAP operators outside this model.
- The loops of `crossover` (segmentation), `ag` (de-duplicated evaluation) and `fit` (per class) each delegate their body to a helper method with its own contract: `CutStep`, `Lookup` and `PerClass`. The slice assignment is `Overwrite`, called by `Exchange`. The statements are the source's.

## Findings

| source | as written | input that shows it | evidently intended | confidence | as-written member | corrected member |
|---|---|---|---|---|---|---|
| ga_segments/segmentsf/mutation.py:31-33 | The `return` at line 91 sits inside the `else` of line 33. An individual shorter than `3·abs(d)` gets no mutation, and the call returns `None` instead of a 1-tuple. `varAnd` then fails unpacking `offspring[i], = toolbox.mutate(...)` with `TypeError` | Series of length 5 with the default `desp` ratio 0.04: `register_toolbox` clamps `desp` to 2, so `randint(1, 2)` can give `abs(d) = 2`, and `5 < 6` | The individual is returned unchanged when it is too short for the shift | not executed | Mutation.MutationAsWritten | Mutation.Mutate |
