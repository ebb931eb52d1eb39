# Siamese metric-learning layers for Caffe, modelled in Dafny

This project models four layers of a Caffe fork that trains siamese networks:

- **EuclideanDistLayer**. It takes two inputs `a` and `b`, each holding `num` samples of
  `channels` values. For every sample it ADDS the squared Euclidean distance
  `sum_k (a_ik - b_ik)^2` (there is no square root) to its scratch blob `dist_`, which is
  never cleared, and copies `dist_` into a top blob of shape `(num, 1, 1, 1)`. The top
  holds the squared distances themselves only when `dist_` starts at zero (see Findings). Its gradient is `2 * top.diff[i] * (a_i - b_i)` into `a`, and the exact
  negation of that into `b`.
- **DiscriminativeLossLayer**. It takes two embeddings and a label `y_i` per pair.
  - The forward pass ADDS `|a_i - b_i|^2 - tau` to its scratch blob `dist_i`, which is
    never cleared, so `dist_i = |a_i - b_i|^2 - tau` only when `dist_` starts at zero
    (see Findings). It then computes `z_i = exp(y_i * dist_i + margin)` and reports the
    loss `(1 / 2num) * sum_i log(1 + z_i)` in `top[0]`.
  - The backward pass writes `2 * sign * (z_i / (1 + z_i)) * y_i * (a_i - b_i)` into both
    embeddings, with sign `+1` for the first and `-1` for the second.
- **L2NormalizationLayer**. It scales every sample `x_i` to unit norm,
  `y_i = x_i / |x_i|`. Its gradient is `(g_i - (y_i . g_i) y_i) / |x_i|`.
- **SiameseLabels**, a Python layer. It turns two label arrays into a 0/1 "same class"
  array and propagates nothing.

How the model is built:

- **Blob storage.** A blob's data and diff halves are `array<real>`. Each layer is a
  `class` whose fields are its scratch blobs (`diff_`, `diff_sqr_`, `dist_`, `z_`, `z_act_`,
  `squared_`) together with the `num` and `channels` recorded at setup.
- **Forward and Backward methods.** Each takes the caller's blobs as arrays. Each is
  proved against sequence functions of the inputs (`Distances`, `SoftplusLoss`,
  `NormalizedRows`, `ProjectedRows`, ...). Lemmas then prove what those functions
  promise: non-negativity, symmetry, unit norm, orthogonality of the gradient, a closed
  form, positivity of the loss, bounds on the gradient factors, and worked examples.
- **Math helpers.** The helpers of `caffe/util/math_functions` that the layers call
  (`caffe_sub`, `caffe_sqr`, `caffe_mul`, `caffe_div`, `caffe_add_scalar`, `caffe_exp`,
  `caffe_log`, `caffe_cpu_axpby`, `caffe_cpu_scale`, `caffe_cpu_asum`, `caffe_cpu_dot`)
  are loops over a window `data + offset` of a buffer, in module `MathFunctions`.
- **Transcendental functions.** `exp`, `log` and `pow(s, -0.5)` are parameters of type
  `real -> real`. Every fact used about them is stated as a predicate in
  `Transcendental` (`ExpPositive`, `LogPositiveAboveOne`, `IsInvSqrt`).

## Model

| member | source | states |
|---|---|---|
| EuclideanDist.EuclideanDistLayer.constructor | src/caffe/layers/euclidean_dist_layer.cpp:9-18 | a layer before its first Reshape: every scratch blob is empty and fresh |
| EuclideanDist.EuclideanDistLayer.Reshape | src/caffe/layers/euclidean_dist_layer.cpp:9-18 | the CHECK passes iff both inputs hold equally many values per sample. On success the top is (num, 1, 1, 1), and num, channels and count are the first input's. dist_ keeps its storage and contents when the capacity suffices; otherwise it is fresh and zeroed. On failure nothing changes |
| EuclideanDist.EuclideanDistLayer.Forward | src/caffe/layers/euclidean_dist_layer.cpp:21-41 | diff_ = a - b and diff_sqr_ = diff_^2. dist_ becomes its old value plus every sample's squared distance, and top equals dist_ |
| EuclideanDist.EuclideanDistLayer.ComputeSquares | src/caffe/layers/euclidean_dist_layer.cpp:26-34 | diff_ = a - b and diff_sqr_ = its squares. Each sample of diff_sqr_ sums to that sample's squared distance. Nothing past count is written |
| EuclideanDist.EuclideanDistLayer.AccumulateDistances | src/caffe/layers/euclidean_dist_layer.cpp:35-40 | dist_ = old dist_ + the row sums of diff_sqr_, top = dist_, and dist_ past num is unchanged |
| EuclideanDist.EuclideanDistLayer.AccumulateSample | src/caffe/layers/euclidean_dist_layer.cpp:36-38 | dist_[i] grows by the sum of sample i of diff_sqr_. Every other entry is unchanged |
| EuclideanDist.EuclideanDistLayer.Backward | src/caffe/layers/euclidean_dist_layer.cpp:44-60 | every sample j of a's gradient is 2 * top.diff[j] times sample j of diff_ (which is a_j - b_j after Forward). b's gradient is the exact negation. Values past num*channels are unchanged |
| EuclideanDist.EuclideanDistLayer.BackwardInto | src/caffe/layers/euclidean_dist_layer.cpp:49-58 | one pass of the outer loop: every sample j becomes sign * top.diff[j] * 2 times sample j of diff_ (beta = 0, so old contents play no part) |
| EuclideanDist.EuclideanDistLayer.BackwardSample | src/caffe/layers/euclidean_dist_layer.cpp:51-57 | sample j of the gradient is alpha times sample j of diff_. Every other value is unchanged |
| EuclideanDist.EuclideanDistLayer.ForwardFresh | src/caffe/layers/euclidean_dist_layer.cpp:35-40 | corrected Forward (see Findings): top and dist_ equal exactly the per-sample squared distances, whatever dist_ held before |
| Vectors.UnitDistance | src/caffe/layers/euclidean_dist_layer.cpp:21-41 | worked example: a = [1, 0], b = [0, 0] has squared distance [1] |
| EuclideanDist.RepeatedForwardAccumulates | src/caffe/layers/euclidean_dist_layer.cpp:35-40 | as written, a second Forward over the same pair reports 2 instead of 1 |
| EuclideanDist.UnitGradient | src/caffe/layers/euclidean_dist_layer.cpp:44-60 | worked example: diff_ = [1, 0] and top.diff = [1] force gradients [2, 0] and [-2, 0] |
| DiscriminativeLoss.SetUpShape | src/caffe/layers/discriminative_loss_layer.cpp:13-26 | the CHECKs pass iff the embeddings have equal channels and unit height and width, and the label has one channel and unit height and width. The top is then (num, 1, 1, 1) |
| DiscriminativeLoss.DiscriminativeLossLayer.constructor | src/caffe/layers/discriminative_loss_layer.cpp:10-27 | after passing CHECKs, all eight scratch halves are fresh and distinct, diff_ and diff_sqr_ of exactly num*channels values and the other six of exactly num, and dist_ is zero |
| DiscriminativeLoss.DiscriminativeLossLayer.Forward | src/caffe/layers/discriminative_loss_layer.cpp:30-58 | diff_ = a - b and diff_sqr_ = diff_^2. dist_ = old dist_ + squared distances - tau. z_ = exp(y * dist_ + margin), z_act_.diff = z_ + 1 and z_act_.data = log(1 + z_). top[0] is the softplus loss; the rest of top is unchanged |
| DiscriminativeLoss.DiscriminativeLossLayer.ComputeDistances | src/caffe/layers/discriminative_loss_layer.cpp:38-45 | diff_, diff_sqr_, and dist_ = old dist_ + squared distances - tau |
| DiscriminativeLoss.DiscriminativeLossLayer.ComputeSquares | src/caffe/layers/discriminative_loss_layer.cpp:38-39 | diff_ = a - b and diff_sqr_ = diff_^2. The row sums of diff_sqr_ are the per-sample squared distances |
| DiscriminativeLoss.DiscriminativeLossLayer.AccumulateDistances | src/caffe/layers/discriminative_loss_layer.cpp:40-44 | dist_ = old dist_ + the row sums of diff_sqr_ |
| DiscriminativeLoss.DiscriminativeLossLayer.AccumulateSample | src/caffe/layers/discriminative_loss_layer.cpp:41-43 | dist_[i] grows by the sum of sample i of diff_sqr_. Every other entry is unchanged |
| DiscriminativeLoss.DiscriminativeLossLayer.ComputeActivations | src/caffe/layers/discriminative_loss_layer.cpp:46-51 | z_ = exp(y * dist_ + margin), z_act_.diff = z_ + 1, and z_act_.data = log(1 + z_) |
| DiscriminativeLoss.DiscriminativeLossLayer.ComputeZ | src/caffe/layers/discriminative_loss_layer.cpp:46-48 | z_ = exp(y * dist_ + margin) |
| DiscriminativeLoss.DiscriminativeLossLayer.ComputeZAct | src/caffe/layers/discriminative_loss_layer.cpp:49-51 | z_act_.diff = z_ + 1 and z_act_.data = log(z_act_.diff) |
| DiscriminativeLoss.DiscriminativeLossLayer.AverageLoss | src/caffe/layers/discriminative_loss_layer.cpp:52-57 | top[0] = (sum of z_act_.data) / num / 2. The rest of top is unchanged |
| DiscriminativeLoss.DiscriminativeLossLayer.Backward | src/caffe/layers/discriminative_loss_layer.cpp:61-75 | z_.diff = z_ / z_act_.diff and dist_.diff = z_.diff * y. Every sample j of a's gradient is 2 * dist_.diff[j] times sample j of diff_ (which is a_j - b_j after Forward), and b's gradient is its exact negation. Nothing past num*channels changes |
| DiscriminativeLoss.DiscriminativeLossLayer.GradientFactors | src/caffe/layers/discriminative_loss_layer.cpp:67-68 | z_.diff = z_ / z_act_.diff and dist_.diff = z_.diff * y |
| DiscriminativeLoss.DiscriminativeLossLayer.WriteGradient | src/caffe/layers/discriminative_loss_layer.cpp:69-73 | every sample j of the gradient = 2 * sign * dist_.diff[j] times sample j of diff_. Values past num*channels are unchanged |
| DiscriminativeLoss.DiscriminativeLossLayer.WriteGradientRow | src/caffe/layers/discriminative_loss_layer.cpp:70-72 | sample j of the gradient = alpha times sample j of diff_. Every other value is unchanged |
| DiscriminativeLoss.DiscriminativeLossLayer.ForwardFresh | src/caffe/layers/discriminative_loss_layer.cpp:40-45 | corrected Forward (see Findings): dist_ = squared distances - tau, and top[0] is the softplus loss of exactly those, whatever dist_ held before |
| DiscriminativeLoss.LossPositive | src/caffe/layers/discriminative_loss_layer.cpp:48-56 | with exp positive and log positive above 1, the reported loss is strictly positive |
| DiscriminativeLoss.GradientFactorsBounded | src/caffe/layers/discriminative_loss_layer.cpp:67-68 | once z_act_.diff = z_ + 1 (line 50) with z_ > 0, the divisor is non-zero, every z_.diff lies strictly between 0 and 1, and \|dist_.diff[i]\| < \|y_i\| unless y_i = 0 |
| DiscriminativeLoss.FactorBounded | src/caffe/layers/discriminative_loss_layer.cpp:67-68 | for z > 0: 0 < z / (z + 1) < 1, and multiplying y by it shrinks y |
| DiscriminativeLoss.UnitPairLoss | src/caffe/layers/discriminative_loss_layer.cpp:30-58 | worked example: a = [1, 0], b = [0, 0], y = -1, tau = 0.5, margin = 1 on a cleared dist_ give dist_ = [0.5] and loss log(1 + exp(0.5)) / 2 |
| DiscriminativeLoss.SimilarPairLoss | src/caffe/layers/discriminative_loss_layer.cpp:30-58 | worked example: a = [0, 0], b = [1, 0], y = 1, margin = 0, tau = 0 on a cleared dist_ give dist_ = [1] and loss log(1 + e) / 2 |
| DiscriminativeLoss.RepeatedForwardDrifts | src/caffe/layers/discriminative_loss_layer.cpp:40-45 | as written, a second Forward over the same pair leaves dist_ = [1.0] instead of [0.5] |
| L2Normalization.SetUpShape | src/caffe/layers/l2normalization_layer.cpp:12-15 | the CHECKs pass iff the input has unit height and width. squared_ and the top then take shape (num, channels, 1, 1), with the input's count |
| L2Normalization.L2NormalizationLayer.constructor | src/caffe/layers/l2normalization_layer.cpp:9-16 | after passing CHECKs, num and channels are the input's and squared_ is fresh storage of exactly num*channels values |
| L2Normalization.L2NormalizationLayer.Forward | src/caffe/layers/l2normalization_layer.cpp:19-31 | squared_ = x^2, and every sample of the top is its input sample scaled by invsqrt(x_i . x_i) |
| L2Normalization.L2NormalizationLayer.ForwardRow | src/caffe/layers/l2normalization_layer.cpp:28-29 | sample i of the top = sample i of x scaled by invsqrt(asum of its squares), which is its squared norm. Every other value is unchanged |
| L2Normalization.L2NormalizationLayer.Backward | src/caffe/layers/l2normalization_layer.cpp:34-49 | every sample of the input gradient = invsqrt(x_i . x_i) * (g_i - (y_i . g_i) y_i) |
| L2Normalization.L2NormalizationLayer.BackwardRow | src/caffe/layers/l2normalization_layer.cpp:43-47 | sample i of the input gradient is that projected gradient. Every other value is unchanged |
| L2Normalization.L2NormalizationLayer.ProjectRow | src/caffe/layers/l2normalization_layer.cpp:43-45 | sample i of the input gradient = g_i - (y_i . g_i) y_i. Every other value is unchanged |
| L2Normalization.L2NormalizationLayer.ScaleRow | src/caffe/layers/l2normalization_layer.cpp:44-47 | sample i of out = alpha times the old sample i of x, where x may be out itself. Every other value is unchanged |
| L2Normalization.L2NormalizationLayer.SubtractRow | src/caffe/layers/l2normalization_layer.cpp:45 | sample i of out = sample i of g minus the old sample i of out. Every other value is unchanged |
| L2Normalization.NormalizedRowsAreUnit | src/caffe/layers/l2normalization_layer.cpp:27-30 | every output sample whose input has a non-zero norm has unit squared norm |
| L2Normalization.GradientOrthogonalToOutput | src/caffe/layers/l2normalization_layer.cpp:42-48 | when y = x normalized, the input gradient is orthogonal to y |
| L2Normalization.GradientClosedForm | src/caffe/layers/l2normalization_layer.cpp:42-48 | when y = x normalized, the input gradient equals r g - r^3 (x . g) x with r = invsqrt(x . x) |
| L2Normalization.ThreeFourFive | src/caffe/layers/l2normalization_layer.cpp:19-49 | worked example: x = [3, 4] normalizes to [0.6, 0.8], and g = [1, 0] gives input gradient [0.128, -0.096] |
| Transcendental.InvSqrtOfSquare | src/caffe/layers/l2normalization_layer.cpp:29 | pow(q*q, -0.5) = 1/q for q > 0 |
| Transcendental.NormalizedRowIsUnit | src/caffe/layers/l2normalization_layer.cpp:28-29 | a sample scaled by invsqrt of its squared norm has squared norm 1 |
| SiameseLabels.Setup | python/python_layer/siameselabel.py:5-9 | returns normally iff there are exactly two inputs and one output. Otherwise it raises the input message first, then the output message |
| SiameseLabels.Reshape | python/python_layer/siameselabel.py:10-11 | the output takes the first input's shape, and so its element count |
| SiameseLabels.Forward | python/python_layer/siameselabel.py:12-13 | label k is 1 iff the inputs agree at k, and 0 iff they differ |
| SiameseLabels.Backward | python/python_layer/siameselabel.py:14-16 | the input gradients are left exactly as they were |
| SiameseLabels.ForwardIsBinary | python/python_layer/siameselabel.py:13 | every label is 0 or 1 |
| SiameseLabels.ForwardSymmetric | python/python_layer/siameselabel.py:13 | swapping the inputs gives the same labels |
| MathFunctions.Sub | src/caffe/layers/discriminative_loss_layer.cpp:38 | caffe_sub: the output window = x - y, elementwise. The rest of the output is unchanged |
| MathFunctions.Sqr | src/caffe/layers/discriminative_loss_layer.cpp:39 | caffe_sqr: out[..n] = the squares of x[..n]. The rest is unchanged |
| MathFunctions.Mul | src/caffe/layers/discriminative_loss_layer.cpp:46 | caffe_mul: out[p] = x[p] * y[p] for p < n. The rest is unchanged |
| MathFunctions.Div | src/caffe/layers/discriminative_loss_layer.cpp:67 | caffe_div: out[p] = x[p] / y[p] for p < n, for a non-zero divisor. The rest is unchanged |
| MathFunctions.AddScalar | src/caffe/layers/discriminative_loss_layer.cpp:45 | caffe_add_scalar: y[p] grows by alpha for p < n. The rest is unchanged |
| MathFunctions.Exp | src/caffe/layers/discriminative_loss_layer.cpp:48 | caffe_exp: out[p] = exp(old x[p]), even in place. The rest is unchanged |
| MathFunctions.Log | src/caffe/layers/discriminative_loss_layer.cpp:51 | caffe_log: out[p] = log(x[p]). The rest is unchanged |
| MathFunctions.CpuAxpby | src/caffe/layers/euclidean_dist_layer.cpp:52-57 | caffe_cpu_axpby: the y window = alpha * x + beta * old y. The rest of y is unchanged |
| MathFunctions.CpuScale | src/caffe/layers/l2normalization_layer.cpp:29 | caffe_cpu_scale: the output window = alpha times the old x window, where x may be the output itself. The rest is unchanged |
| MathFunctions.CpuAsum | src/caffe/layers/l2normalization_layer.cpp:28 | caffe_cpu_asum: the sum of absolute values of the window |
| MathFunctions.CpuDot | src/caffe/layers/l2normalization_layer.cpp:43 | caffe_cpu_dot: the inner product of the two windows |
| Vectors.SampleDistances | src/caffe/layers/euclidean_dist_layer.cpp:35-38 | when s holds the squared differences, each sample of s sums to that sample's squared distance |
| Vectors.RowSumsOfSquaredDifferences | src/caffe/layers/euclidean_dist_layer.cpp:26-38 | the row sums of (a - b)^2 are the per-sample squared distances |
| Vectors.DistancesNonnegative | src/caffe/layers/euclidean_dist_layer.cpp:35-40 | every squared distance is non-negative |
| Vectors.DistancesSymmetric | src/caffe/layers/euclidean_dist_layer.cpp:35-40 | swapping the two inputs gives the same distances |
| Vectors.DistancesOfIdentical | src/caffe/layers/euclidean_dist_layer.cpp:35-40 | identical inputs are at distance 0 |
| Vectors.OppositeRows | src/caffe/layers/euclidean_dist_layer.cpp:48-59 | two gradients scaled from the same diff_ by opposite factors are exact negations of each other |
| Vectors.AsumOfSquaredRow | src/caffe/layers/l2normalization_layer.cpp:26-28 | once squared_ = x^2, the asum of sample i of squared_ is x_i . x_i |
| Vectors.AsumOfNonnegative | src/caffe/layers/l2normalization_layer.cpp:28 | the asum of values none of which is negative (such as squares) is their plain sum |
| Vectors.AsumOfSquares | src/caffe/layers/l2normalization_layer.cpp:28 | the asum of the squares of x is x . x |
| Vectors.ProjectionOrthogonal | src/caffe/layers/l2normalization_layer.cpp:43-45 | for unit y, g - (y . g) y is orthogonal to y |
| Vectors.ProjectedGradientClosedForm | src/caffe/layers/l2normalization_layer.cpp:43-47 | r (g - ((r x) . g) (r x)) = r g - r^3 (x . g) x |
| Vectors.UnitAfterScaling | src/caffe/layers/l2normalization_layer.cpp:29 | if r^2 (x . x) = 1 then r x has unit squared norm |

## Left out

- Floating point: every value is an exact `real`. Rounding, overflow, NaN and infinities
  (for instance `exp` overflowing, or `pow(0, -0.5)` on an all-zero sample) are not modelled.
- Transcendental functions: `exp`, `log` and `pow(., -0.5)` are opaque parameters. Only the
  facts named by `ExpPositive`, `LogPositiveAboveOne` and `IsInvSqrt` are known about them.
- `caffe/util/math_functions` is not part of this model. Its helpers are given their
  documented elementwise and reduction meaning. Partial overlap of an input and an output
  window never occurs in these layers and is excluded; exact aliasing is allowed.
- GPU code paths, layer registration, protobuf parameters and the `LossLayer`,
  `NeuronLayer` and `Layer` base classes are not part of this model. `margin` and `tau`
  arrive as parameters.
- The caller's blobs are distinct arrays from each other and from the layer's scratch
  blobs. In-place use of the L2 normalization layer (top == bottom) is not modelled.
- `propagate_down` is ignored by all three C++ layers, and so it is absent from the model.
- `L2Normalization.L2NormalizationLayer.Forward` and `L2Normalization.L2NormalizationLayer.Backward`
  require `num > 0`. With `num == 0` the source divides `count / n` by zero.
- `DiscriminativeLoss.DiscriminativeLossLayer.Forward` requires `num > 0`, because the loss
  divides by `num`.
- `DiscriminativeLoss.DiscriminativeLossLayer.Backward` requires `z_act_.diff[i] != 0`.
  The source divides by it, and Forward leaves it at `1 + exp(.)`, which is positive
  (`GradientFactorsBounded`).
- `EuclideanDist.EuclideanDistLayer.Forward` and `EuclideanDist.EuclideanDistLayer.Backward`
  require `count == num * channels`. The source strides samples by `channels` but
  subtracts over `count`. The two agree only when height and width are 1, which its
  Reshape does not check.
- EuclideanDist.EuclideanDistLayer.Forward: requires both inputs to hold exactly `count`
  values, as does `ForwardFresh` and `ComputeSquares`. The source's Reshape checks only
  that the per-sample counts agree, never that the inputs have the same `num`. A longer
  second input would be read only in its first `count` values; a shorter one would make
  `caffe_sub` read past its end. Neither case is modelled.
- The L2 and discriminative layers record `num` and `channels` at setup. A later reshape
  to a different batch size is not modelled, and neither is `LossLayer::Reshape`.
- `DiscriminativeLoss.DiscriminativeLossLayer.constructor` states the zero fill only for
  dist_. The other scratch halves are written before they are read.
- The number of label values is not checked by the source and is a precondition here.
- The discriminative layer's Backward never reads the top gradient (the loss weight). Its
  scale, `2 * z/(1+z) * y * (a - b)`, lacks the `1 / (2 num)` factor of the reported loss.
  The model reproduces this as written. No derivative is modelled, so no lemma relates
  the gradient to the loss.
- `L2Normalization.L2NormalizationLayer.BackwardRow` takes the dot product of line 46
  before lines 43-45. Those lines write only the input gradient and line 46 reads only the
  input, so the result is the same.
- `SiameseLabels.Forward` requires both inputs to hold equally many values. numpy
  broadcasting of unequal shapes is not modelled. The result is given as reals, not as
  float32 (`f4`).
- Setting `top[0].data` in the Python layer is modelled as returning the new values. The
  Python layer's object state is not modelled.

## Findings

| source | as written | input that shows it | evidently intended | confidence | as-written member | corrected member |
|---|---|---|---|---|---|---|
| src/caffe/layers/euclidean_dist_layer.cpp:35-40 | dist_[i] += each squared difference, and dist_ is never cleared, so every Forward adds onto the previous pass | a = [1, 0], b = [0, 0]: the first Forward reports 1 and the second reports 2 | clear dist_ before the loop, so that top[i] is the squared distance of sample i | not executed | EuclideanDist.RepeatedForwardAccumulates | EuclideanDist.EuclideanDistLayer.ForwardFresh |
| src/caffe/layers/discriminative_loss_layer.cpp:40-45 | dist_[i] += each squared difference and then -= tau, and dist_ is never cleared, so every pass shifts dist_ by squared distance - tau (up when the distance exceeds tau, down when it is below) | a = [1, 0], b = [0, 0], tau = 0.5: dist_ is 0.5 after the first Forward and 1.0 after the second | clear dist_ first, so that dist_ = squared distance - tau on every pass | not executed | DiscriminativeLoss.RepeatedForwardDrifts | DiscriminativeLoss.DiscriminativeLossLayer.ForwardFresh |
