# Hardmax occupancy forecasting, modelled in Dafny

This project models the forecasting half of the hardmax inference pipeline of
`pedestrian_prediction`, in `pp/inference/hardmax/state.py`. It has three parts.

- **The occupancy propagator, `infer_simple`** (`occupancy.dfy`, module `Propagator`).
  It builds a (T+1) x S table of state probabilities. Row 0 is one-hot at the
  start state. Each later row is filled from the row before it. Every state s
  with non-zero mass m pushes `m * action_prob[s, a]` to `s'` for each of its
  `(a, s')` neighbour pairs. The pure functions `PushPairs`, `PushStates`,
  `Step`, `Occupancy` and `Rollout` follow the order of the source's three
  nested loops. The imperative `InferSimple` fills an `array2<real>` in place
  with those loops and is proved equal to them entry by entry. A pull-style
  reference, `Inflow`, writes each target as a sum over all states and pairs.
  `StepIsInflow` proves the two agree.
- **The mixture aggregator, `infer_from_start`** (`mixture.dfy`, module `Mixture`).
  It turns the destination and beta arguments into lists of length L and checks
  the lengths. It defaults the destination weights to all ones and divides them
  by their sum. It then adds each destination's occupancy table, scaled by its
  weight, into one accumulator. The result is the full table with the betas and
  weights, or only row T. `FromStart` is the value-level meaning. The method
  `InferFromStart` accumulates into an `array2<real>`, in the way the source
  uses `np.multiply(..., out=)` and `np.add(..., out=)`, and is proved to return
  exactly `FromStart`.
- **The entry point, `infer`** (`entry.dfy`, module `Entry`). An empty
  trajectory is refused. The start state is the transition of the last
  observed (state, action) pair. The betas are either the caller's, with no
  destination probabilities, or come with destination probabilities from one
  of two estimators, chosen by the `hmm` flag. `Infer` is proved to return
  `Outcome`, the composition of `Dispatch` and `FromStart`.

`wrappers.dfy` holds the `Option` and `Result` datatypes.

Probabilities are exact `real`s. The source's failures are values of
`InferError`:

- A failed `assert` on the beta or weight list lengths is
  `BetaLengthMismatch` or `WeightLengthMismatch`.
- A start state that does not index the table is `StateOutOfRange`. The
  source raises `IndexError` when `infer_simple` first writes row 0, which
  happens only when there is at least one destination. The model checks this
  before accumulating.
- Destination probabilities that sum to 0 over at least one destination are
  `UndefinedWeights`. NumPy divides by zero there and fills the table with
  NaN instead of failing.
- With no destinations the source returns an all-zero table, and so does the
  model.
- An empty trajectory is `EmptyTrajectory`.

Several things outside the core are parameters:

- The environment is an `Env`: S, A, the neighbour pairs of every state, and
  the grid's rows and cols.
- The action-probability table of a destination and a beta is a `Policy`
  function.
- The trajectory estimators are `Estimator` functions.
- The environment's transition is a `Transition` function.

`unpack_opt_list` is not part of this model, and its behaviour is assumed
here. A single value becomes `extend_to` copies of itself (1 by default), and
a list is kept as it is (`Broadcast`, `Unpack`). Under that assumption, `infer`
wraps a single supplied beta into a one-element list (state.py:143) before
`infer_from_start` can spread it over the destinations (state.py:76). Over more
than one destination the beta length check then fails
(`Entry.ScalarBetaNeedsOneDestination`). The documentation of `infer`
(state.py:124-127) promises the opposite: a fixed beta, or one beta per
destination. `Dispatch`, `Outcome` and `Infer` model the code as written;
`DispatchIntended` and `OutcomeIntended` model the documented behaviour (see
"## Findings").

## Model

| member | source | states |
|---|---|---|
| Propagator.InferSimple | pp/inference/hardmax/state.py:9-31 | The returned array is fresh and (T+1) x S, and entry (t, s) equals the occupancy distribution `Occupancy(init, t)` at s, for every t and s |
| Propagator.StepRow | pp/inference/hardmax/state.py:23-30 | Filling the zeroed row t from row t-1, with states of zero mass skipped, leaves row t equal to one `Step` of row t-1 and every other row unchanged |
| Propagator.PushState | pp/inference/hardmax/state.py:29-30 | The inner loop adds `m * ap[s][a]` to each neighbour `s'` of s, in pair order, which gives `PushPairs`; no other row changes |
| Propagator.StepIsInflow | pp/inference/hardmax/state.py:23-30 | The push-style step agrees at every target j with the sum over all states s and all pairs (a, j) of s of `p[s] * ap[s][a]` |
| Propagator.OccupancyRecurrence | pp/inference/hardmax/state.py:23-30 | For every t, entry j of row t+1 is that per-target sum taken over row t |
| Propagator.PushPairsZeroMass | pp/inference/hardmax/state.py:26-28 | A state with mass 0 pushes nothing, so skipping it, as the source does, leaves the row unchanged |
| Propagator.StepMass | pp/inference/hardmax/state.py:23-30 | A step keeps exactly the sum over s of `p[s]` times the total action probability of s's neighbour pairs, whatever the table |
| Propagator.StepConservesMass | pp/inference/hardmax/state.py:23-30 | When each state's neighbour-pair action probabilities sum to 1, a step keeps the total mass |
| Propagator.OccupancySumsToOne | pp/inference/hardmax/state.py:21-30 | Under that premise, every row of every run sums to 1 |
| Propagator.OccupancyNonNegative | pp/inference/hardmax/state.py:23-30 | With a non-negative table, every entry of every row is non-negative |
| Propagator.UniformFirstStepMass | pp/inference/hardmax/test_occupancy.py:28-35 | Under the table that is c everywhere, row 1 holds (number of neighbour pairs of the start) * c, which is 4/A for c = 1/A and four pairs, so mass is lost when the premise fails |
| Propagator.RolloutStartsOneHot | pp/inference/hardmax/state.py:21-22 | Row 0 is 1 at the start state and 0 everywhere else |
| Propagator.RolloutPrefix | pp/inference/hardmax/state.py:21-31 | The first t+1 rows of a horizon-T run are the horizon-t run |
| Mixture.Normalize | pp/inference/hardmax/state.py:88-91 | The weights are proportional to the destination probabilities (`w[i] * Sum(p) == p[i]`) and, over at least one destination, sum to 1 |
| Mixture.FromStart | pp/inference/hardmax/state.py:70-105 | Succeeds exactly when the broadcast betas and the (default) weights have length L and, for L > 0, the start state is in range and the weights do not sum to 0. Each length and range failure is reported by its own error. The verbose result is the (T+1) x S table with the broadcast betas and weights summing to 1; otherwise the result is one row of length S |
| Mixture.InferFromStart | pp/inference/hardmax/state.py:34-105 | The imperative procedure returns exactly `FromStart`, error or forecast |
| Mixture.MixDestinations | pp/inference/hardmax/state.py:93-100 | The accumulator, starting from zeros, ends as the weighted sum `Accumulate` over all L destinations |
| Mixture.AddDestination | pp/inference/hardmax/state.py:96-100 | One pass adds the destination's occupancy table, scaled by its weight, into the accumulator |
| Mixture.ScaleInPlace | pp/inference/hardmax/state.py:99 | Every entry is multiplied by the weight in place |
| Mixture.AddInto | pp/inference/hardmax/state.py:100 | Every entry of the second array is added into the first in place |
| Mixture.AccumulateAt | pp/inference/hardmax/state.py:94-100 | With destination i, entry (t, j) of the mixture grows by that destination's occupancy at (t, j) times its weight |
| Mixture.AccumulateMass | pp/inference/hardmax/state.py:93-100 | With conserving tables, each row of the mixture of the first i destinations sums to the total weight of those destinations |
| Mixture.AccumulateNonNegative | pp/inference/hardmax/state.py:93-100 | With non-negative tables and weights, every entry of the mixture is non-negative |
| Mixture.AccumulatePrefix | pp/inference/hardmax/state.py:93-100 | The first t+1 rows of the horizon-T mixture are the horizon-t mixture |
| Mixture.AccumulateStart | pp/inference/hardmax/state.py:93-100 | Row 0 of the mixture is the one-hot start row scaled by the total weight mixed so far |
| Mixture.FromStartSumsToOne | pp/inference/hardmax/state.py:88-105 | With conserving tables and at least one destination, every row of a successful forecast sums to 1 |
| Mixture.FromStartNonNegative | pp/inference/hardmax/state.py:88-105 | With non-negative tables and non-negative (or default) destination probabilities, every entry of a successful forecast is non-negative |
| Mixture.FromStartBaseCase | pp/inference/hardmax/test_occupancy.py:11-16 | Over at least one destination, the horizon-0 non-verbose forecast is one-hot at the start state |
| Mixture.VerboseRowsAreFinalRows | pp/inference/hardmax/test_occupancy.py:52-53 | Row t of the verbose horizon-T table is the non-verbose horizon-t forecast, which then succeeds too |
| Mixture.MixTwice | pp/inference/hardmax/state.py:94-100 | Mixing a table twice with weights a and b equals mixing it once with weight a + b |
| Mixture.NormalizeScaleInvariant | pp/inference/hardmax/state.py:88-91 | Scaling the destination probabilities by any non-zero factor leaves the normalised weights unchanged, so only their ratios matter |
| Mixture.DuplicateDestination | pp/inference/hardmax/state.py:88-100 | Listing a destination twice with the same beta and any split of weight gives the same table as listing it once |
| Mixture.DefaultWeightsUniform | pp/inference/hardmax/state.py:88-91 | Without destination probabilities, every weight is 1/L |
| Mixture.NormalizeNonNegative | pp/inference/hardmax/state.py:91 | Non-negative destination probabilities normalise to non-negative weights |
| Entry.Dispatch | pp/inference/hardmax/state.py:139-153 | Fails exactly on an empty trajectory. Otherwise the start is the transition of the last observation and the destinations are unpacked. Supplied betas are passed on with no destination probabilities. Without betas, the estimator picked by `hmm` supplies both |
| Entry.Outcome | pp/inference/hardmax/state.py:139-156 | `EmptyTrajectory` is reported exactly when the trajectory is empty; the forecast stage never reports it |
| Entry.Infer | pp/inference/hardmax/state.py:108-156 | The procedure returns exactly `Outcome` |
| Entry.SuppliedBetasIgnoreEstimators | pp/inference/hardmax/state.py:142-144 | With betas supplied, the estimators and the `hmm` flag do not matter, and of the trajectory only its last observation does |
| Entry.SuppliedBetasUniformWeights | pp/inference/hardmax/state.py:142-155 | With betas supplied, a successful verbose forecast has every weight equal to 1/L |
| Entry.ScalarBetaNeedsOneDestination | pp/inference/hardmax/state.py:141-143 | For a non-empty trajectory and a single supplied beta, the beta length check fails exactly when there is not one destination |
| Entry.EstimatedBetasLength | pp/inference/hardmax/state.py:146-155 | Without supplied betas, the beta length check fails exactly when the chosen estimator does not return one beta per destination |
| Entry.StartsAtLastTransition | pp/inference/hardmax/state.py:139-140 | Over at least one destination, the horizon-0 non-verbose forecast is one-hot at the transition of the last observation |
| Entry.OutcomeSumsToOne | pp/inference/hardmax/state.py:155-156 | With conserving tables and at least one destination, every row of a successful forecast sums to 1 |
| Entry.DispatchIntended | pp/inference/hardmax/state.py:124-127 | As documented: it agrees with `Dispatch` when no betas or a list of betas is supplied, and passes a supplied beta on unchanged, with no destination probabilities |
| Entry.OutcomeIntended | pp/inference/hardmax/state.py:139-156 | `EmptyTrajectory` is reported exactly for an empty trajectory, and without supplied betas the result is that of `Outcome` |
| Entry.ScalarBetaSpreadsOverDestinations | pp/inference/hardmax/state.py:76 | With the documented preparation, a single supplied beta never fails the beta length check and forecasts exactly as one copy of it per destination |

## Findings

| source | as written | input that shows it | evidently intended | confidence | as-written member | corrected member |
|---|---|---|---|---|---|---|
| pp/inference/hardmax/state.py:143 | A supplied single beta is unpacked without `extend_to`, so it reaches `infer_from_start` as a one-element list, which line 77 then rejects unless there is exactly one destination | `infer(g, [(4, 4)], [0, 1], beta_or_betas=1.0)`: two destinations, one beta, so the beta length assertion fails | The beta is used for every destination, as the documentation at lines 124-127 and the broadcast at line 76 describe | not executed; holds only if `unpack_opt_list` wraps a single value into a one-element list by default, and that helper is not part of this model | Entry.ScalarBetaNeedsOneDestination | Entry.ScalarBetaSpreadsOverDestinations |

## Left out

- The action-probability tables are not computed here. Value iteration, the Q values, `action_probabilities` and `trajectory_probability` are not part of this model. The table of a destination and a beta comes from a caller-supplied `Policy`. `InferSimple` takes the table directly, which covers both the `action_prob=` argument and its default through `val_mod`.
- The estimators are not computed here either. `destination.infer` and `destination.hmm_infer` are not part of this model. They are two `Estimator` functions, chosen by `hmm`. `beta_guesses`, `bin_search_opts` and `hmm_opts` are folded into them.
- The environment is not constructed here. `GridWorldMDP`, its rewards and `coor_to_state` are not part of this model. The environment is an `Env` value plus a `Transition` function.
- `unpack_opt_list` and `val_default` are not part of this model. Their assumed behaviour is described above.
- A `cached_action_probs` that is not two-dimensional leaves `act_probs` unbound in the source. The model takes `cached` as either absent or one S x A table.
- IEEE floating point is not modelled. Arithmetic is exact `real`, so rounding and `assert_allclose` tolerances are outside the model. The NaN table that a zero weight sum produces is reported as the `UndefinedWeights` error.
- Negative Python indices are not modelled. States, destinations and horizons are `nat`, so a negative `init_state` cannot be expressed.
- The unused `verbose` flag and the forwarding of `**kwargs` are not modelled. `Infer` takes `cached`, `verboseReturn` and the policy explicitly.
- The start-state check of `infer_from_start` happens before any destination is accumulated. The source fails inside the first `infer_simple` call instead. No partial result is observable in either case, so the outcome is the same.
- The concrete 3x3 expectations of `test_occupancy.py` are not reproduced. They need the grid world's neighbour pairs, which are not part of this model. `Propagator.UniformFirstStepMass` states the general form of their row-1 mass.
