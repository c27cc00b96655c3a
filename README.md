# GROE combination model, in Dafny

A model of darts' `GROECombinationModel`. This is an ensemble forecaster. It weights each
constituent model by the inverse of the loss that generalized rolling-origin
evaluation (GROE) reports for that model. It then combines the models' forecasts as the
weighted sum. The model covers three parts of the source:

- the configuration update `update_groe_params`;
- the weight derivation that `fit` runs after the base ensemble's own fit;
- the `combination_function`.

Modules:

- `Wrappers` (`wrappers.dfy`): `Option`, `Result`, `Outcome`.
- `Weighting` (`weighting.dfy`): the pure weighting rule. A `Loss` is `Finite(r)` or
  `Unbounded` (the source's `np.inf`). `DeriveWeights` is the rule as a function:
  - fail when any loss is unbounded;
  - otherwise, when some loss is zero, give weight one to the first zero (`OneHot` at `FirstZero`);
  - otherwise normalise the reciprocals.

  The lemmas state the rule's guarantees.
- `Combination` (`combination.dfy`): `Combine`. It is the left fold that Python's `sum` performs over the
  scaled forecasts. The lemmas tie it to the pointwise weighted sum and bound it by the forecasts.
- `GroeCombination` (`groe_combination_model.dfy`): the class `GroeCombinationModel`. Its
  fields are `nEvaluations`, `groeKwargs`, `criterion` and `weights`, and the methods
  update them as the source does:
  - `Fit` resets the criterion and appends one evaluation per model in a loop.
  - In the zero branch it fills a zero array and sets one slot.
  - `Fit` is proved against `DeriveWeights`.

  `Valid()` is the invariant that every fit preserves: one criterion and one weight per model,
  with the weights non-negative and summing to one.

The evaluator `groe` is a function-valued parameter of `Fit`. It receives the training series,
the model, the metric, the evaluation count and the options. The training series, models,
metric and option values are opaque type parameters.

A failed fit leaves the earlier weights in place. Lines 61-63 of
`darts/models/groe_combination_model.py` raise before lines 65 and 69 assign `self.weights`,
so the weights of the previous successful fit remain. `Fit` keeps them as well:
on failure it assigns the new `criterion` and leaves `weights` as they were.

## Model

| member | source | states |
|---|---|---|
| `GroeCombination.GroeCombinationModel.constructor` | darts/models/groe_combination_model.py:44-48 | stores models, metric, evaluation count and options, the options never holding `n_evaluations` (Python binds that keyword to its named parameter); no criterion and no weights yet |
| `GroeCombination.GroeCombinationModel.UpdateGroeParams` | darts/models/groe_combination_model.py:50-53 | an `n_evaluations` keyword becomes the evaluation count and is absent from the stored options; without it the count is unchanged; the options become exactly the remaining keywords, with nothing kept from before; the invariant is kept |
| `GroeCombination.GroeCombinationModel.Criteria` | darts/models/groe_combination_model.py:57-60 | one evaluator result per model, entry i being the evaluation of model i under the current count and options |
| `GroeCombination.GroeCombinationModel.Fit` | darts/models/groe_combination_model.py:55-69 | the criterion becomes the per-model evaluations in model order; the fit fails with the evaluation error exactly when some criterion is unbounded, and then the weights are left untouched; otherwise the weights are those of the weighting rule; the invariant (one weight per model, non-negative, summing to one) is kept |
| `GroeCombination.GroeCombinationModel.CombinationFunction` | darts/models/groe_combination_model.py:71-72 | the combined forecast has the forecasts' length and at each timestamp equals the weighted sum of the models' forecasts under the stored weights; reads state and changes none |
| `GroeCombination.CombineEverywhere` | darts/models/groe_combination_model.py:72 | the series-level fold agrees with the pointwise weighted sum at every timestamp |
| `Weighting.FirstZero` | darts/models/groe_combination_model.py:66 | `list.index(0.)`: an index holding a zero loss with no zero loss before it |
| `Weighting.Reciprocals` | darts/models/groe_combination_model.py:68 | one positive score per model, each the reciprocal of its loss (score times loss is one) |
| `Weighting.DeriveFailsIffUnbounded` | darts/models/groe_combination_model.py:61-64 | the rule fails, with the evaluation error, if and only if some criterion is unbounded, whether or not a zero is also present |
| `Weighting.DeriveWeightsIsWeighting` | darts/models/groe_combination_model.py:64-69 | in both success branches the weights have one entry per criterion, are non-negative and sum to one |
| `Weighting.ZeroCriterionIsOneHot` | darts/models/groe_combination_model.py:64-66 | with no unbounded and some zero criterion, the weight is one at the smallest zero index and zero everywhere else, later zeros included |
| `Weighting.InverseWeightsPositive` | darts/models/groe_combination_model.py:68-69 | with all criteria positive every weight is strictly positive |
| `Weighting.InverseWeightsProportional` | darts/models/groe_combination_model.py:26-28 | with all criteria positive, weight times criterion is the same for every model, so weights are inversely proportional to losses |
| `Weighting.InverseWeightsMonotone` | darts/models/groe_combination_model.py:68-69 | with all criteria positive, a strictly smaller loss earns a strictly larger weight |
| `Weighting.SumDivided` | darts/models/groe_combination_model.py:69 | dividing every score by a non-zero total divides their sum by it, so `score / score.sum()` sums to one |
| `Weighting.SumOneHot` | darts/models/groe_combination_model.py:65-66 | a zero vector with one slot set to one sums to one |
| `Weighting.FirstZeroWinsExample` | darts/models/groe_combination_model.py:64-66 | criteria `[0.5, 0, 0]` give weights `[0, 1, 0]` |
| `Weighting.UnboundedWinsExample` | darts/models/groe_combination_model.py:61-63 | criteria `[1, inf]` and `[0, inf]` both fail the fit |
| `Combination.Combine` | darts/models/groe_combination_model.py:72 | the combined series has the common length of the forecasts |
| `Combination.CombineAt` | darts/models/groe_combination_model.py:72 | at timestamp t the combined forecast is `Σ_i weights[i] * predictions[i][t]` |
| `Combination.CombineWithinForecasts` | darts/models/groe_combination_model.py:72 | under a weight vector the combined forecast at each timestamp lies between the smallest and largest model forecast there |
| `Combination.CombineOneHot` | darts/models/groe_combination_model.py:72 | under one-hot weights (a perfect model) the combined forecast is that model's forecast |
| `Combination.CombineExample` | darts/models/groe_combination_model.py:72 | weights `[0.2, 0.4, 0.4]` and forecasts `10`, `20`, `30` combine to `22` |

## Left out

- The rolling-origin evaluation itself is not part of this model. It appears only as the function `groe` that `Fit` is given; the model assumes its finite losses are non-negative.
- The metric (`smape` by default) is an opaque value handed to the evaluator. Its default value and implementation are not modelled.
- The default evaluation count of 6 is a default argument. The constructor takes the count explicitly.
- `update_groe_params` stores whatever value the caller passes for `n_evaluations`. So the count has the type of an option value, not `int`.
- The base ensemble is not part of this model. That includes `super().fit`, which stores the training series and fits the constituent models, and the `predictions` it collects. `CombinationFunction` takes those predictions as a parameter.
- The `TimeSeries` type is not modelled: no timestamps, no alignment, no pandas arithmetic. A series is a sequence of reals, and all series share one length.
- Floating point is not modelled. Losses and weights are reals, so the rounding in `1 / x` and in `score.sum()` is absent, and so are NaN losses, which `np.inf in criterion` does not catch.
- `Combination.Combine` requires at least one forecast. Over an empty model list Python's `sum` returns the integer `0`, not a series.
- `Weighting.DeriveWeightsIsWeighting` states "sums to one" only for at least one model. With no models the source's weights are empty and sum to zero.
- Logging through `raise_log` is left out. The `ValueError` is modelled as the `Fail(ImpossibleToEvaluate)` outcome.
