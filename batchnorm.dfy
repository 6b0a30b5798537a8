/**
 * The arithmetic of 4-D batch normalization, one function per quantity the
 * layer computes.  Per-channel quantities are vectors of length K; the
 * element-wise expressions act on one W x H slice at a time and are lifted
 * to whole tensors channel by channel.
 */
module BatchNorm {
  import opened Tensors

  /** Epsilon added to a variance before taking its inverse square root. */
  const E: real := 0.00000001

  /**
   * The platform's x |-> 1 / sqrt(x).  Only its positivity on positive
   * arguments is modelled: the layer applies it to a non-negative variance
   * plus E.
   */
  type InvSqrt = f: real -> real | forall x :: x > 0.0 ==> f(x) > 0.0 witness (x: real) => 1.0

  /** A batch whose every sample has K channels of W x H slices. */
  predicate Shaped(x: Tensor, K: nat, W: nat, H: nat) {
    IsTensor(x, |x|, K, W, H)
  }

  // ---------------------------------------------------------------------
  // Element-wise expressions on one slice.
  // ---------------------------------------------------------------------

  /** (x - mu) * c: centring by mu and scaling by c. */
  function Normalize(m: Matrix, mu: real, c: real): (r: Matrix)
    ensures |r| == |m| && forall w :: 0 <= w < |m| ==> |r[w]| == |m[w]|
  {
    seq(|m|, w requires 0 <= w < |m| =>
      seq(|m[w]|, h requires 0 <= h < |m[w]| => (m[w][h] - mu) * c))
  }

  /** g * x + beta. */
  function ScaleShift(m: Matrix, g: real, beta: real): (r: Matrix)
    ensures |r| == |m| && forall w :: 0 <= w < |m| ==> |r[w]| == |m[w]|
  {
    seq(|m|, w requires 0 <= w < |m| =>
      seq(|m[w]|, h requires 0 <= h < |m[w]| => g * m[w][h] + beta))
  }

  /** x * g. */
  function Scale(m: Matrix, g: real): (r: Matrix)
    ensures |r| == |m| && forall w :: 0 <= w < |m| ==> |r[w]| == |m[w]|
  {
    seq(|m|, w requires 0 <= w < |m| =>
      seq(|m[w]|, h requires 0 <= h < |m[w]| => m[w][h] * g))
  }

  /** The element-wise product of two slices of one shape. */
  function Hadamard(m: Matrix, n: Matrix): (r: Matrix)
    requires |n| == |m| && forall w :: 0 <= w < |m| ==> |n[w]| == |m[w]|
    ensures |r| == |m| && forall w :: 0 <= w < |m| ==> |r[w]| == |m[w]|
  {
    seq(|m|, w requires 0 <= w < |m| =>
      seq(|m[w]|, h requires 0 <= h < |m[w]| => m[w][h] * n[w][h]))
  }

  /** (x - mu) * (x - mu). */
  function SquaredDeviation(m: Matrix, mu: real): (r: Matrix)
    ensures |r| == |m| && forall w :: 0 <= w < |m| ==> |r[w]| == |m[w]|
  {
    seq(|m|, w requires 0 <= w < |m| =>
      seq(|m[w]|, h requires 0 <= h < |m[w]| => (m[w][h] - mu) * (m[w][h] - mu)))
  }

  /**
   * ((1 / S) * iv) * (S * d - l - xhat * xl): the input gradient of one
   * slice, given the scaled errors d, the normalized input xhat, the
   * channel's inverse standard deviation iv, the element count S and the
   * channel reductions l = sum of d and xl = sum of d * xhat.
   */
  function GradSlice(d: Matrix, xhat: Matrix, iv: real, S: real, l: real, xl: real): (r: Matrix)
    requires |xhat| == |d| && forall w :: 0 <= w < |d| ==> |xhat[w]| == |d[w]|
    requires S != 0.0
    ensures |r| == |d| && forall w :: 0 <= w < |d| ==> |r[w]| == |d[w]|
  {
    seq(|d|, w requires 0 <= w < |d| =>
      seq(|d[w]|, h requires 0 <= h < |d[w]| => ((1.0 / S) * iv) * (S * d[w][h] - l - xhat[w][h] * xl)))
  }

  // ---------------------------------------------------------------------
  // Per-channel vectors.
  // ---------------------------------------------------------------------

  /** The per-channel sums of a batch (the library's bias_batch_sum_4d). */
  function ChannelSums(t: Tensor, K: nat): (r: seq<real>)
    requires forall b :: 0 <= b < |t| ==> |t[b]| == K
    ensures |r| == K
  {
    seq(K, k requires 0 <= k < K => ChannelSum(t, k))
  }

  /**
   * The per-channel means of a batch over its S = B * W * H elements per
   * channel (the library's bias_batch_mean_4d).
   */
  function BatchMeans(x: Tensor, K: nat, S: nat): (r: seq<real>)
    requires forall b :: 0 <= b < |x| ==> |x[b]| == K
    requires S > 0
    ensures |r| == K
  {
    seq(K, k requires 0 <= k < K => ChannelSum(x, k) / (S as real))
  }

  /** The per-channel population variances of a batch around mu. */
  function BatchVars(x: Tensor, mu: seq<real>, S: nat): (r: seq<real>)
    requires forall b :: 0 <= b < |x| ==> |x[b]| == |mu|
    requires S > 0
    ensures |r| == |mu|
  {
    seq(|mu|, k requires 0 <= k < |mu| => ChannelSum(SquaredDeviations(x, mu), k) / (S as real))
  }

  /** 1 / sqrt(v + E) for every channel. */
  function InvStd(v: seq<real>, rsqrt: InvSqrt): (r: seq<real>)
    requires forall k :: 0 <= k < |v| ==> v[k] >= 0.0
    ensures |r| == |v| && forall k :: 0 <= k < |v| ==> r[k] > 0.0
  {
    seq(|v|, k requires 0 <= k < |v| => rsqrt(v[k] + E))
  }

  /** The running-mean update with momentum m. */
  function RunningMean(mean: seq<real>, batchMean: seq<real>, m: real): (r: seq<real>)
    requires |batchMean| == |mean|
    ensures |r| == |mean|
  {
    seq(|mean|, k requires 0 <= k < |mean| => m * mean[k] + (1.0 - m) * batchMean[k])
  }

  /**
   * The factor S / (S - 1) as the layer computes it: a quotient of unsigned
   * integers, hence truncated.  S = 1 would divide by zero.
   */
  function BesselFactor(S: nat): (f: nat)
    requires S >= 2
    ensures 1 <= f <= 2
  {
    S / (S - 1)
  }

  /** The running-variance update with momentum m on a batch of S elements per channel. */
  function RunningVar(v: seq<real>, batchVar: seq<real>, m: real, S: nat): (r: seq<real>)
    requires |batchVar| == |v|
    requires S >= 2
    ensures |r| == |v|
  {
    seq(|v|, k requires 0 <= k < |v| => m * v[k] + (1.0 - m) * ((BesselFactor(S) as real) * batchVar[k]))
  }

  // ---------------------------------------------------------------------
  // Whole-batch tensors, channel by channel.
  // ---------------------------------------------------------------------

  /** (x - mu(k)) * c(k) in every channel k. */
  function Normalized(x: Tensor, mu: seq<real>, c: seq<real>): (r: Tensor)
    requires |c| == |mu| && forall b :: 0 <= b < |x| ==> |x[b]| == |mu|
    ensures |r| == |x| && forall b :: 0 <= b < |x| ==> |r[b]| == |mu|
  {
    seq(|x|, b requires 0 <= b < |x| =>
      seq(|mu|, k requires 0 <= k < |mu| => Normalize(x[b][k], mu[k], c[k])))
  }

  /** gamma(k) * x + beta(k) in every channel k. */
  function Affine(x: Tensor, gamma: seq<real>, beta: seq<real>): (r: Tensor)
    requires |beta| == |gamma| && forall b :: 0 <= b < |x| ==> |x[b]| == |gamma|
    ensures |r| == |x| && forall b :: 0 <= b < |x| ==> |r[b]| == |gamma|
  {
    seq(|x|, b requires 0 <= b < |x| =>
      seq(|gamma|, k requires 0 <= k < |gamma| => ScaleShift(x[b][k], gamma[k], beta[k])))
  }

  /** (x - mu(k))^2 in every channel k. */
  function SquaredDeviations(x: Tensor, mu: seq<real>): (r: Tensor)
    requires forall b :: 0 <= b < |x| ==> |x[b]| == |mu|
    ensures |r| == |x| && forall b :: 0 <= b < |x| ==> |r[b]| == |mu|
  {
    seq(|x|, b requires 0 <= b < |x| =>
      seq(|mu|, k requires 0 <= k < |mu| => SquaredDeviation(x[b][k], mu[k])))
  }

  /** errors * gamma(k) in every channel k: the gradient reaching the normalized input. */
  function ScaledErrors(errors: Tensor, gamma: seq<real>): (r: Tensor)
    requires forall b :: 0 <= b < |errors| ==> |errors[b]| == |gamma|
    ensures |r| == |errors| && forall b :: 0 <= b < |errors| ==> |r[b]| == |gamma|
  {
    seq(|errors|, b requires 0 <= b < |errors| =>
      seq(|gamma|, k requires 0 <= k < |gamma| => Scale(errors[b][k], gamma[k])))
  }

  /** The element-wise product of two batches of one shape. */
  function Products(s: Tensor, t: Tensor, K: nat, W: nat, H: nat): (r: Tensor)
    requires Shaped(s, K, W, H) && Shaped(t, K, W, H) && |t| == |s|
    ensures Shaped(r, K, W, H) && |r| == |s|
  {
    seq(|s|, b requires 0 <= b < |s| =>
      seq(K, k requires 0 <= k < K => Hadamard(s[b][k], t[b][k])))
  }

  /**
   * The gradient of the loss with respect to the layer's input, given the
   * scaled errors d, the cached normalized input xhat, the cached inverse
   * standard deviations and S = B * W * H.
   */
  function InputGradient(d: Tensor, xhat: Tensor, invVar: seq<real>, W: nat, H: nat, S: nat): (r: Tensor)
    requires Shaped(d, |invVar|, W, H) && Shaped(xhat, |invVar|, W, H) && |xhat| == |d|
    requires S > 0
    ensures |r| == |d| && forall b :: 0 <= b < |d| ==> |r[b]| == |invVar|
  {
    var K := |invVar|;
    var l := ChannelSums(d, K);
    var xl := ChannelSums(Products(d, xhat, K, W, H), K);
    seq(|d|, b requires 0 <= b < |d| =>
      seq(K, k requires 0 <= k < K =>
        GradSlice(d[b][k], xhat[b][k], invVar[k], S as real, l[k], xl[k])))
  }

  // ---------------------------------------------------------------------
  // The layer's passes as functions of their inputs.
  // ---------------------------------------------------------------------

  /** The inference output: running statistics, then scale and shift. */
  function Infer(x: Tensor, gamma: seq<real>, beta: seq<real>, mean: seq<real>, v: seq<real>, rsqrt: InvSqrt): (r: Tensor)
    requires |beta| == |gamma| && |mean| == |gamma| && |v| == |gamma|
    requires forall k :: 0 <= k < |v| ==> v[k] >= 0.0
    requires forall b :: 0 <= b < |x| ==> |x[b]| == |gamma|
    ensures |r| == |x| && forall b :: 0 <= b < |x| ==> |r[b]| == |gamma|
  {
    Affine(Normalized(x, mean, InvStd(v, rsqrt)), gamma, beta)
  }

  /** The input gradient of the backward pass. */
  function Backward(errors: Tensor, gamma: seq<real>, xhat: Tensor, invVar: seq<real>, W: nat, H: nat, S: nat): (r: Tensor)
    requires |gamma| == |invVar|
    requires Shaped(errors, |gamma|, W, H) && Shaped(xhat, |gamma|, W, H) && |xhat| == |errors|
    requires S > 0
    ensures |r| == |errors| && forall b :: 0 <= b < |errors| ==> |r[b]| == |gamma|
  {
    InputGradient(ScaledErrors(errors, gamma), xhat, invVar, W, H, S)
  }

  /** The gradient of gamma: per channel, the sum of xhat * errors. */
  function GammaGrad(xhat: Tensor, errors: Tensor, K: nat, W: nat, H: nat): (r: seq<real>)
    requires Shaped(xhat, K, W, H) && Shaped(errors, K, W, H) && |errors| == |xhat|
    ensures |r| == K
  {
    ChannelSums(Products(xhat, errors, K, W, H), K)
  }

  /** The gradient of beta: per channel, the sum of the errors. */
  function BetaGrad(errors: Tensor, K: nat): (r: seq<real>)
    requires forall b :: 0 <= b < |errors| ==> |errors[b]| == K
    ensures |r| == K
  {
    ChannelSums(errors, K)
  }
}
