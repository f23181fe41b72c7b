# Gradient estimator bookkeeping

A Dafny model of the bookkeeping done by the `GradientEstimator` base class of
`learning-to-quantize` (`estim/gestim.py`):

- **`grad_estim`**: the concrete estimator's `grad` reads its minibatch from
  `self.data_iter`. `grad_estim` points that field at the estimation cursor
  for one call, then puts the training cursor back.
- **`get_random_index(model, number)`**: a memoised sampler, seeded with 123.
  It splits the `L` layers into `number` contiguous sub-ranges with
  boundaries `int(i * L / number)` and draws one layer from each sub-range,
  then one coordinate per dimension of that layer.
- **`get_gradient_distribution(model, gviter)`**, on raw gradients:
  - pass 1 sums `gviter` gradients layer by layer and divides by `gviter`;
  - pass 2 sums the squared deviations of `gviter` fresh gradients from
    that mean and does not divide;
  - it then reads the mean and the variance (accumulator divided by
    `gviter`) at the four sampled entries, and totals the means. As
    written, this read raises for a layer with a size-1 dimension after
    the first (see Findings); the model reads the intended element.
- **`get_Ege_var(model, gviter)`**: the same two passes around a single
  seeded coordinate tuple. It returns the mean and variance there and the
  literal `0.00034`. Its read has the same defect as above.

How the model is organised:

- A tensor is a shape plus its row-major list of `real` elements
  (`tensors.dfy`). A gradient or an accumulator list is a `Sample`: one
  tensor per model parameter.
- The estimator is a class (`estimator.dfy`):
  - two `Cursor` objects stand for the data iterators;
  - the cache is a field;
  - a ghost `seen` field records which cursor each `grad` call read from.
- The passes, the sampler loop, the drill-down and the folds are methods
  with loop invariants. Each is proved against a specification function:
  `SumOf`, `MeanOf` and `DeviationOf` in `aggregation.dfy`, and
  `SampleIndices` in `sampler.dfy`. The properties of the estimator are
  lemmas about those functions.
- `torch.randint` is a caller-supplied `Chooser`. `pick(k, lo, hi)` is the
  `k`-th draw after `torch.manual_seed(123)`, and it is required to lie in
  `[lo, hi)`.
- The concrete `grad` is a `GradOracle`: a function of the model and the
  minibatch the active cursor yields. It is required to return one tensor
  per parameter, of that parameter's shape.
- Python exceptions become the `Err` values of `Result`: `ZeroDivision`,
  `EmptyRange` (`randint` on an empty range) and `IndexOutOfRange`.

## Model

| member | source | states |
|---|---|---|
| Estimator.Cursor.constructor | estim/gestim.py:18-19 | a fresh iterator over the loader starts at its first minibatch |
| Estimator.Cursor.Next | estim/gestim.py:18-19 | taking a minibatch yields the stream's element at the current position and advances the position by one |
| Estimator.GradientEstimator.constructor | estim/gestim.py:10-19 | after `__init__` and `init_data_iter`: two distinct fresh cursors at position 0, no cached indices, no `grad` calls yet |
| Estimator.GradientEstimator.Grad | estim/gestim.py:21-22 | `grad` reads one minibatch from whichever cursor `data_iter` holds, and returns the oracle's gradient for it |
| Estimator.GradientEstimator.GradEstim | estim/gestim.py:24-31 | `grad` runs with the estimation cursor active: it is the cursor recorded as seen and the one that advances. `grad`'s result comes back unchanged. `data_iter` is the same object at the same position afterwards, and the cache is untouched |
| Estimator.GradientEstimator.MeanPass | estim/gestim.py:76-92 | exactly `gviter` estimation-cursor calls and no training-cursor use; the result is `MeanOf` the `gviter` gradients drawn, in order |
| Estimator.GradientEstimator.DeviationPass | estim/gestim.py:100-111 | exactly `gviter` further estimation-cursor calls; the result is `DeviationOf` those gradients from the given mean, undivided |
| Estimator.GradientEstimator.BothPasses | estim/gestim.py:76-111 | pass 2 uses the `gviter` minibatches after pass 1's, independent of them; `2 * gviter` estimation calls in all; the training cursor is untouched |
| Estimator.GradientEstimator.GetRandomIndex | estim/gestim.py:48-66 | with indices cached, returns them unchanged and keeps the cache, whatever `model` and `number` are. Otherwise returns `SampleIndices` and caches it when it succeeds. A fresh success has `number` entries, entry `j` in sub-range `j` and fitting its layer |
| Estimator.GradientEstimator.GetGradientDistribution | estim/gestim.py:68-147 | the means and variances are read at the cached or freshly drawn indices, in order; each variance is the pass-2 accumulator element divided by `gviter`; `total_mean` is `Total` of the means; the undivided `total_variance` is `Total` of the accumulator and is not returned; 4 values each on a first call; the cache is set as `get_random_index` sets it |
| Estimator.GradientEstimator.GetEgeVar | estim/gestim.py:150-203 | `Ege` is the pass-1 mean. The layer is drawn from `[0, L)` with one in-range coordinate per dimension; a failed draw raises before pass 2. On success: `gviter` more calls; `Es` and `En` stay all zero; the result is `Ege` and `var_e / gviter` at the drawn tuple and the literal `0.00034` |
| Estimator.ReadAt | estim/gestim.py:116-132 | succeeds iff every index entry names an element of the layers; then value `q` is the mean and the divided accumulator at entry `q`, in order |
| Estimator.Summarise | estim/gestim.py:116-147 | the whole tail of `get_gradient_distribution`: read-out, `total_mean`, `total_variance`; a failed index draw is passed through with its own error, and an entry that names no element gives an index error |
| Estimator.ReadEge | estim/gestim.py:184-196 | the `Ege` and `var_e / gviter` elements at the drawn entry, and the placeholder `0.00034` |
| Indexing.DrillDown | estim/gestim.py:119-128 | drilling into a layer one coordinate at a time reads the element at the row-major offset of the coordinates |
| Indexing.Squeeze | estim/gestim.py:125 | `squeeze_()` keeps the number of elements, never adds a dimension, and leaves no dimension of size 1 |
| Indexing.DrillAsWritten | estim/gestim.py:123-128 | the drill as written: each coordinate removes at least one dimension, so a success has at most rank minus the number of coordinates dimensions; the result is well formed and, after at least one coordinate, has no size-1 dimension |
| Indexing.DrillAsWrittenReadsOffset | estim/gestim.py:123-128 | the `layer[weight]; squeeze_()` drill reads the row-major element when no dimension after the first has size 1 |
| Indexing.DrillAsWrittenFailsOnUnitDimension | estim/gestim.py:123-128 | the same drill raises `IndexError` for every in-range coordinate tuple of a layer with a size-1 dimension after the first |
| Indexing.DrillAsWrittenSucceedsIff | estim/gestim.py:187-192 | the drill as written succeeds exactly when no dimension after the first has size 1 |
| Indexing.SqueezeKeepsNonUnit | estim/gestim.py:125 | `squeeze_()` leaves a shape without size-1 dimensions unchanged |
| Indexing.SqueezeDropsUnit | estim/gestim.py:125 | `squeeze_()` removes at least one dimension from a shape with a size-1 dimension |
| Tensors.Offset | estim/gestim.py:123-128 | a coordinate tuple in range names one of the `numel` elements |
| Tensors.RowAt | estim/gestim.py:124 | `t[c]` at `coords` is `t` at `[c] + coords` |
| Sampler.DrawCoords | estim/gestim.py:60-61 | one coordinate per dimension, each in `[0, size)`; fails exactly when some dimension has size 0 |
| Sampler.DrawEntry | estim/gestim.py:57-62 | an empty layer range raises; otherwise succeeds iff the drawn layer has no zero-size dimension; an entry is the layer, in `[lo, hi)`, followed by an in-range coordinate per dimension |
| Sampler.DrawCoordsLoop | estim/gestim.py:60-61 | the coordinate loop computes `DrawCoords` and consumes one draw per dimension |
| Sampler.DrawEntryLoop | estim/gestim.py:57-62 | computes `DrawEntry` and consumes one draw per element of the entry |
| Sampler.DrawIndices | estim/gestim.py:50-64 | the sampling loop computes `SampleIndices`; a success has `number` entries, entry `j` fits its layer and has its layer in `[int(j*L/number), int((j+1)*L/number))` |
| Sampler.BoundEnds | estim/gestim.py:54-55 | the first sub-range starts at 0 and the last one ends at `L` |
| Sampler.SubrangesCover | estim/gestim.py:54-64 | every layer lies in some sub-range |
| Sampler.SubrangesDisjoint | estim/gestim.py:54-64 | no layer lies in two sub-ranges |
| Sampler.SubrangeNonEmpty | estim/gestim.py:54-64 | with `L >= number` every sub-range is non-empty |
| Sampler.SubrangeEmpty | estim/gestim.py:54-64 | with `L < number` some sub-range is empty |
| Sampler.SampleFromFails | estim/gestim.py:56-57 | an empty sub-range makes the sampling loop raise |
| Sampler.SampleFromSucceeds | estim/gestim.py:56-64 | with enough layers and no zero-size dimension every round of the loop succeeds |
| Sampler.SampleIndicesFails | estim/gestim.py:55-57 | `number == 0` raises `ZeroDivisionError`; `0 < number` with `L < number` raises |
| Sampler.SampleIndicesSucceeds | estim/gestim.py:54-64 | with `0 < number <= L` and no zero-size dimension the sample succeeds |
| Aggregation.ZerosLike | estim/gestim.py:76 | the zero accumulators have exactly the parameters' shapes |
| Aggregation.SumOf | estim/gestim.py:79-84 | the pass-1 accumulators keep the parameters' shapes |
| Aggregation.MeanOf | estim/gestim.py:91-92 | the mean keeps the parameters' shapes |
| Aggregation.DeviationOf | estim/gestim.py:100-111 | the variance accumulators keep the parameters' shapes |
| Aggregation.SumOfAt | estim/gestim.py:79-84 | each accumulator element is the sum of the values the samples hold there |
| Aggregation.MeanOfAt | estim/gestim.py:79-92 | each mean element is the sum of the `gviter` sampled values there, divided by `gviter` |
| Aggregation.DeviationOfAt | estim/gestim.py:103-111 | each variance accumulator element is the undivided sum of the squared deviations from the mean there |
| Aggregation.DeviationNonNegative | estim/gestim.py:107-111 | every variance accumulator element is non-negative |
| Aggregation.ConstantMean | estim/gestim.py:76-92 | a source that always returns `g0` has mean `g0` |
| Aggregation.ConstantDeviation | estim/gestim.py:103-111 | samples that all equal the mean give an all-zero variance accumulator |
| Aggregation.ConstantSourceStatistics | estim/gestim.py:76-111 | a constant source `g0` over both passes gives mean `g0` and an all-zero variance accumulator |
| Aggregation.TotalSumOf | estim/gestim.py:134-136 | the total of a summed accumulator is the sum of the samples' totals |
| Aggregation.TotalMeanIsAverageTotal | estim/gestim.py:134-136 | `total_mean` is the average over the pass-1 gradients of each gradient's element total |
| Aggregation.TotalDeviationNonNegative | estim/gestim.py:138-140 | the undivided `total_variance` is non-negative |
| Aggregation.AccumulateInto | estim/gestim.py:83-84 | the layer-by-layer `e += g` computes the element-wise sum |
| Aggregation.DivideBy | estim/gestim.py:91-92 | the layer-by-layer `e /= gviter` divides every element by `gviter` |
| Aggregation.TotalOf | estim/gestim.py:134-136 | the running `total += torch.sum(e)` ends at `Total`, the sum of every element of every layer |

## Left out

- `flatten_and_normalize` and every `*_normalized` accumulator and total
  (estim/gestim.py:33-45, 74, 81, 86-87, 94-95, 101, 105, 108, 113-114,
  142-145) are not modelled. As written, line 74 passes the bound method
  `model.parameters` to `flatten_and_normalize`. That function reads an
  undefined `model` at line 34, so `get_gradient_distribution` raises
  before pass 1 starts. The model follows the raw path as if those lines
  were absent. The two normalised totals are therefore missing from
  `Distribution`.
- `snr_e` and `nv_e` (estim/gestim.py:199-202) are left out. They are
  floating-point logarithms with epsilon constants. Only the fact that `Es`
  and `En` stay zero is modelled.
- Floating-point arithmetic is modelled as exact `real` arithmetic, and the
  Python float division inside `int(i * L / number)` as exact integer
  division. Rounding, overflow, NaN and dtype are not modelled.
- Estimator.GradientEstimator.MeanPass: requires `gviter >= 1`.
  `GetGradientDistribution` and `GetEgeVar` require it too. The source has
  no guard: with `gviter == 0` the in-place division at lines 91-92 and
  159-160 gives non-finite tensors instead of raising.
- Seeding and `torch.randint` are modelled by the `Chooser` parameter. The
  model does not capture torch's actual generator, only that every draw
  lies in its range and that draws are numbered from the seed.
- `InfiniteLoader` and the data loader are not modelled. Each cursor is an
  endless stream of minibatches. The same goes for `tb_logger`, the `print`
  at line 197 and the `state_dict`/`load_state_dict` stubs.
- The concrete `grad` is an oracle function of the model and the minibatch.
  Gradients that depend on hidden state, or a `grad` that raises (the base
  class raises `NotImplementedError` at line 22), are not modelled.
- In-place updates of tensors that alias the model's own parameters are not
  modelled. The accumulator lists are values that each loop step
  reassigns.
- `number_of_weights` (line 98) is computed but unused, and is left out.
  `nw` (line 171) feeds only the left-out `snr_e` and `nv_e` (lines
  201-202), and is left out with them.
- Estimator.GradientEstimator.GetGradientDistribution: `total_variance`,
  the mean, the accumulator and the index draw are ghost out-parameters,
  because the source does not return them. Tensor-valued `means` and
  `variances` are modelled as the single element they hold.
- Estimator.ReadAt: a cached index list that does not fit the model now
  passed in gives `Err(IndexOutOfRange)`. Python does not always raise
  there. An entry with fewer coordinates than its layer's rank (`[0, 2]`
  for a layer of shape `[5, 4]`) makes the loop at lines 123-128 stop
  early, and line 129 divides a whole sub-tensor by `gviter`. The model
  reports an index error where Python returns that sub-tensor. Only
  entries that are too long or out of range raise in Python.
- Estimator.ReadAt: reads through the corrected drill-down (see Findings).
  As written, lines 123-128 raise `IndexError` for a sampled layer with a
  size-1 dimension after the first, such as a `[32, 1, 5, 5]` convolution
  weight; the model returns the element at the coordinates instead.
- Estimator.GradientEstimator.GetGradientDistribution: returns the means
  and variances read through the corrected drill-down, through `ReadAt`.
  As written, the call raises `IndexError` whenever a sampled layer has a
  size-1 dimension after the first.
- Estimator.GradientEstimator.GetEgeVar: returns the element at the drawn
  coordinates through the corrected drill-down (see Findings). As written,
  the read raises for layers with a size-1 dimension after the first.

## Findings

| source | as written | input that shows it | evidently intended | confidence | as-written member | corrected member |
|---|---|---|---|---|---|---|
| estim/gestim.py:123-128 and 187-192 | each coordinate is applied as `layer = layer[weight]; layer.squeeze_()`. `weight` is a one-element index tensor, so `layer[weight]` keeps a leading dimension of size 1. `squeeze_()` then removes it together with every other size-1 dimension, and the later coordinates address the wrong dimension | a layer of shape `[3, 1]` (say a linear layer with one input) and coordinates `[0, 0]`: after the first step the layer is 0-dimensional, and the second index raises `IndexError` | read the element at the sampled coordinates, that is, at their row-major offset | medium, not executed | Indexing.DrillAsWritten, Indexing.DrillAsWrittenFailsOnUnitDimension | Indexing.DrillDown |
