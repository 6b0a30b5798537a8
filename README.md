# 4-D batch normalization, modelled in Dafny

This project models the `dyn_batch_normalization_4d_layer` of the dll
neural-network library (`include/dll/neural/dyn_batch_normalization_layer_4d.inl`).
The layer normalizes a batch of activations shaped B x K x W x H (batch
element, channel or kernel, and a W x H spatial slice) one channel at a time.

- During training it normalizes with the statistics of the batch. It caches
  the normalized input and folds the batch statistics into running averages
  with momentum 0.9.
- During inference it normalizes with the running averages.
- It back-propagates errors with the two-reduction batch-normalization
  gradient, and it gives the gradients of its scale `gamma` and shift `beta`.

Files:

- `tensors.dfy` (module `Tensors`): tensors as nested sequences of reals,
  and the recursive sums they reduce with: of a row, of a W x H slice, and of
  one channel across the batch (`ChannelSum`). It also proves these sums
  linear, non-negative and zero where they should be.
- `batchnorm.dfy` (module `BatchNorm`): one function per quantity the layer
  computes. These are the element-wise expressions, the batch statistics, the
  running update, the inference output, the input gradient and the parameter
  gradients. The tensor library's `bias_batch_sum_4d` and `bias_batch_mean_4d`
  are `BatchNorm.ChannelSums` and `BatchNorm.BatchMeans`.
- `batchnorm_properties.dfy` (module `BatchNormProperties`): the properties of
  those functions.
- `layer.dfy` (module `BatchNormLayer`): the layer as a class `Layer`. Its
  fields are `gamma`, `beta`, `mean`, `variance`, `lastMean`, `lastVar`,
  `invVar` and the cached `inputPre`. Its methods are the layer's operations.
  A ghost flag `trained` records that a training pass has filled the cache.
  `Valid()` ties the cache to the input of that pass. The class
  `SgdContext` holds the training step's buffers.

Numbers are exact reals. The platform's `1 / sqrt(x)` is a parameter
`rsqrt` of the layer. Its type only says that it is positive on positive
arguments, because Dafny has no square root. The layer applies it to a
non-negative variance plus E, so the functions that apply it require the
variance to be non-negative. The epsilon `1e-8` of line 23 is the constant
`BatchNorm.E`.

Where the code differs from the standard batch-normalization algorithm, the
model follows the code:

- **Running variance factor.** Line 173 computes `S / (S - 1)` on unsigned
  integers, where S = B * W * H is the number of elements per channel. The
  quotient is truncated, so it is 2 when S = 2 and 1 for every S >= 3. It is
  not the real-valued Bessel correction S / (S - 1). For S >= 3 the running
  variance therefore takes in the biased population variance unchanged
  (`RunningVarUncorrected`), and the factor used is strictly below the
  correction (`BesselFactorBelowCorrection`). The model reproduces the
  truncation (`BatchNorm.BesselFactor`).
- **Degenerate batches and shape mismatches.** The code validates neither.
  S = 1 divides by zero on line 173, and S = 0 divides by zero on line 158.
  Mismatched shapes index out of bounds. The model makes S >= 2 and the
  shapes preconditions of the passes instead of error results, because the
  code has no error path to model.

## Model

| member | source | states |
|---|---|---|
| `BatchNormLayer.Layer.constructor` | include/dll/neural/dyn_batch_normalization_layer_4d.inl:47-53 | A new layer has zero channels and zero spatial size, an empty cache, and no training pass yet. |
| `BatchNormLayer.Layer.InitLayer` | include/dll/neural/dyn_batch_normalization_layer_4d.inl:55-73 | Kernels, W and H equal the arguments. All seven per-channel vectors have length K. `gamma` is 1 and `beta` is 0 everywhere. The running statistics start at zero. The cache is kept, and the layer counts as not trained. |
| `BatchNormLayer.Layer.Parameters` | include/dll/neural/dyn_batch_normalization_layer_4d.inl:86-88 | The count `4 * Kernels` is the total length of `gamma`, `beta`, `mean` and `variance`. |
| `BatchNormLayer.SampleSize` | include/dll/neural/dyn_batch_normalization_layer_4d.inl:94-104 | Both the input size and the output size count the elements of one sample: K slices of W x H. |
| `BatchNormLayer.Layer.TestBatchActivateHidden` | include/dll/neural/dyn_batch_normalization_layer_4d.inl:122-132 | The inference pass changes no layer field (it has no modifies clause). Its output is the batch normalized with the running mean and `rsqrt(var + E)`, then scaled by `gamma` and shifted by `beta`. |
| `BatchNormProperties.InferElement` | include/dll/neural/dyn_batch_normalization_layer_4d.inl:125-130 | Every inference output element equals `gamma(k) * ((x - mean(k)) * InvStd(var)(k)) + beta(k)`, where `InvStd(var)(k)` is `rsqrt(var(k) + E)`, the inverse standard deviation. |
| `BatchNormProperties.InferGammaZero` | include/dll/neural/dyn_batch_normalization_layer_4d.inl:129 | A channel with `gamma(k) = 0` outputs exactly `beta(k)` at inference. |
| `BatchNorm.InvStd` | include/dll/neural/dyn_batch_normalization_layer_4d.inl:160 | For a non-negative variance `v`, `1 / sqrt(v + E)` is positive in every channel. |
| `BatchNormLayer.Layer.TrainBatchActivateHidden` | include/dll/neural/dyn_batch_normalization_layer_4d.inl:140-174 | The training pass leaves `lastMean` equal to the channel sums over S; `lastVar` equal to the squared deviations over S; `invVar` equal to `rsqrt(lastVar + E)`; the cache equal to the normalized input; and the output equal to `gamma * cache + beta`. The running mean and variance take their momentum updates. `gamma`, `beta` and the dimensions are unchanged, and the layer stays valid. |
| `BatchNormLayer.Layer.NormalizeTrainingBatch` | include/dll/neural/dyn_batch_normalization_layer_4d.inl:143-169 | It sets the batch statistics, the cache and the output as the training pass describes, on the reused cache or one inherited from the input's shape. |
| `BatchNormLayer.BatchStatistics` | include/dll/neural/dyn_batch_normalization_layer_4d.inl:143-169 | It computes the batch mean, population variance, inverse standard deviation, normalized batch and output of a training batch. |
| `BatchNormLayer.SquaredDeviationSums` | include/dll/neural/dyn_batch_normalization_layer_4d.inl:150-156 | The nested b/k loop that accumulates `last_var(k) +=` leaves, in every channel, the sum over the whole batch of the squared deviations from the batch mean. |
| `BatchNormLayer.NormalizeBatch` | include/dll/neural/dyn_batch_normalization_layer_4d.inl:164-169 | The nested loop that overwrites the cache and the output leaves the cache equal to `(x - mu(k)) * iv(k)` and the output equal to `gamma(k) * cache + beta(k)` in every slice. |
| `BatchNormLayer.Layer.UpdateRunningStatistics` | include/dll/neural/dyn_batch_normalization_layer_4d.inl:171-173 | It updates `mean` to `m * mean + (1 - m) * lastMean` and `variance` to `m * var + (1 - m) * (S / (S - 1)) * lastVar`, with truncated division. The variance stays non-negative. |
| `BatchNormProperties.BatchVarsNonneg` | include/dll/neural/dyn_batch_normalization_layer_4d.inl:150-158 | The batch variance of every channel is at least zero. |
| `BatchNormProperties.BatchStatisticsExample` | include/dll/neural/dyn_batch_normalization_layer_4d.inl:147-158 | A channel holding 1, 2, 3 and 4 over four 1 x 1 samples has batch mean 2.5 and variance 1.25. |
| `BatchNormProperties.NormalizedSumsToZero` | include/dll/neural/dyn_batch_normalization_layer_4d.inl:160-166 | Centring on the batch mean makes every channel of the cached normalized input sum to zero, whatever the scale. |
| `BatchNormProperties.ConstantChannelMean` | include/dll/neural/dyn_batch_normalization_layer_4d.inl:147 | A channel holding one value v throughout has batch mean v. |
| `BatchNormProperties.ConstantChannel` | include/dll/neural/dyn_batch_normalization_layer_4d.inl:160-169 | A constant input channel normalizes to zero, so its training output is `beta(k)` everywhere. |
| `BatchNormProperties.AffineIdentity` | include/dll/neural/dyn_batch_normalization_layer_4d.inl:167 | With the initial `gamma = 1` and `beta = 0`, the training output is exactly the normalized input. |
| `BatchNormLayer.TrainedCache` | include/dll/neural/dyn_batch_normalization_layer_4d.inl:158-166 | After a training pass, the cache has the batch's shape, S >= 2, every cache channel sums to zero, `lastVar >= 0` and `invVar > 0`. |
| `BatchNorm.BesselFactor` | include/dll/neural/dyn_batch_normalization_layer_4d.inl:173 | The truncated factor `S / (S - 1)` lies between 1 and 2 for S >= 2. |
| `BatchNormProperties.BesselFactorValues` | include/dll/neural/dyn_batch_normalization_layer_4d.inl:173 | The factor is 2 when S = 2 and 1 for every S >= 3. |
| `BatchNormProperties.BesselFactorBelowCorrection` | include/dll/neural/dyn_batch_normalization_layer_4d.inl:173 | For S >= 3, the factor is strictly below the real ratio S / (S - 1). |
| `BatchNormProperties.RunningVarUncorrected` | include/dll/neural/dyn_batch_normalization_layer_4d.inl:173 | For S >= 3, the running variance takes in the uncorrected population variance. |
| `BatchNormProperties.RunningVarNonneg` | include/dll/neural/dyn_batch_normalization_layer_4d.inl:173 | Non-negative running and batch variances give a non-negative updated running variance. |
| `BatchNormProperties.RunningMeanBetween` | include/dll/neural/dyn_batch_normalization_layer_4d.inl:172 | The updated running mean lies between the old running mean and the batch mean. |
| `BatchNormProperties.RunningMeanSteady` | include/dll/neural/dyn_batch_normalization_layer_4d.inl:172 | A batch whose mean equals the running mean leaves the running mean unchanged. |
| `BatchNormProperties.RunningFromZero` | include/dll/neural/dyn_batch_normalization_layer_4d.inl:172-173 | From zero running statistics, one update gives `(1 - m) * lastMean` and `(1 - m) * factor * lastVar`. |
| `BatchNormLayer.Layer.BackwardBatch` | include/dll/neural/dyn_batch_normalization_layer_4d.inl:194-217 | The backward pass changes no layer field and needs a prior training pass. Its output is the batch-normalization input gradient built from the cache and `invVar`, shaped like the errors (B x K x W x H). Every channel of that output sums to zero. |
| `BatchNormLayer.ScaleErrors` | include/dll/neural/dyn_batch_normalization_layer_4d.inl:198-204 | The `dxhat` temporary filled in the nested loop equals `errors * gamma(k)` in every slice. |
| `BatchNormLayer.GradientSlices` | include/dll/neural/dyn_batch_normalization_layer_4d.inl:212-216 | The nested output loop, given the two channel reductions, yields the input gradient. |
| `BatchNormProperties.BackwardElement` | include/dll/neural/dyn_batch_normalization_layer_4d.inl:194-216 | Every input-gradient element is `(invVar(k) / S) * (S * dxhat - sum dxhat - xhat * sum(dxhat * xhat))`, with `dxhat = errors * gamma(k)`. |
| `BatchNormProperties.BackwardReductions` | include/dll/neural/dyn_batch_normalization_layer_4d.inl:206-207 | The two reductions of the backward pass are `gamma(k)` times `b_grad(k)` and `gamma(k)` times `w_grad(k)`. |
| `BatchNormProperties.BackwardSumsToZero` | include/dll/neural/dyn_batch_normalization_layer_4d.inl:206-216 | When the cache channel sums to zero, the input-gradient channel sums to zero. |
| `BatchNormProperties.BackwardChannelZero` | include/dll/neural/dyn_batch_normalization_layer_4d.inl:200-216 | A channel whose scaled errors all vanish gets an all-zero input gradient. |
| `BatchNormProperties.BackwardGammaZero` | include/dll/neural/dyn_batch_normalization_layer_4d.inl:200-216 | With `gamma(k) = 0`, no gradient flows back through channel k. |
| `BatchNormLayer.Layer.ComputeGradients` | include/dll/neural/dyn_batch_normalization_layer_4d.inl:224-230 | It sets `w_grad(k)` to the channel sum of `cache * errors` and `b_grad(k)` to the channel sum of `errors`, and writes nothing else. |
| `BatchNormProperties.ZeroErrors` | include/dll/neural/dyn_batch_normalization_layer_4d.inl:194-230 | All-zero errors give zero `gamma` and `beta` gradients and a zero input gradient. |
| `BatchNormLayer.SgdContext.constructor` | include/dll/neural/dyn_batch_normalization_layer_4d.inl:277-278 | The context's buffers are batchSize x K x W x H tensors and length-K gradients. |

## Left out

- Floating-point rounding and the square root: values are exact reals, and
  `1 / sqrt(x)` is an abstract function, positive on positive arguments.
- The tensor library's expression templates (`force_temporary`,
  `force_temporary_dim_only`, `inherit_if_null`, the element-wise `>>`)
  become plain functions on values. `bias_batch_mean_4d` and
  `bias_batch_sum_4d` become recursive channel sums.
- Caller-owned output buffers are returned as fresh values rather than
  written in place. `input_pre` is reassigned as a whole sequence.
- `inherit_if_null` adopts the input's shape only for an empty cache. A
  non-empty cache with fewer batch elements or fewer channels than the input
  is written out of bounds. Any other shape mismatch (more channels left from
  an earlier `init_layer`, for instance) is written in bounds but is excluded
  too, because `backward_batch` (line 207) and `compute_gradients` (line 226)
  would combine the cache with errors of another shape. Either way, the model
  requires a non-empty cache to already have the batch's shape.
- `BatchNormLayer.Layer.TrainBatchActivateHidden`: the code also accepts a
  smaller batch after a larger one. `inherit_if_null` then keeps the larger
  cache, the pass overwrites only its first B rows, and the trailing rows stay
  stale. The model excludes this case (it requires `|inputPre| == |input|`),
  because `backward_batch` and `compute_gradients` would then combine
  `input_pre` with an errors tensor of a different shape.
- `BatchNormLayer.Layer.InitLayer`: `init_layer` allocates `mean` and `var`
  but never assigns values to them in this file. The model takes the freshly
  allocated vectors to be zero, as a zero-initialized allocation holds; what
  the library's vectors hold at allocation is not part of this model.
- The `w`/`b` reference aliases of `gamma`/`beta` and the `bak_gamma`/`bak_beta`
  backups: they are aliasing and storage with no behaviour in this file.
- `to_short_string`, `dyn_init`, the no-op `adapt_errors`,
  `batch_activate_hidden` (which only forwards to the inference pass) and the
  `layer_base_traits` specialization: they are framework plumbing.
- Of `sgd_context`, only the buffer shapes are modelled. Its input, output
  and error buffers start at zero.
- Concurrency: every reduction is sequential.
- `BatchNormLayer.Layer.InputSize`: it carries no contract of its own. Its
  meaning is stated by `SampleSize`.
- `BatchNormLayer.Layer.OutputSize`: its own contract only relates it to
  `InputSize`. What it means, the element count of one K x W x H sample, is
  stated by `SampleSize`.
