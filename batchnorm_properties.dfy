/**
 * What the batch-normalization arithmetic guarantees: the statistics it
 * takes, the normalized activations it caches, the running averages it
 * keeps and the gradients it propagates.
 */
module BatchNormProperties {
  import opened Tensors
  import opened BatchNorm

  // ---------------------------------------------------------------------
  // The element-wise expressions as linear combinations.
  // ---------------------------------------------------------------------

  /** x - mu(k) in every channel k, as a combination with the ones tensor. */
  function Centered(x: Tensor, K: nat, W: nat, H: nat, mu: seq<real>): (r: Tensor)
    requires Shaped(x, K, W, H) && |mu| == K
    ensures |r| == |x| && forall b :: 0 <= b < |x| ==> |r[b]| == K
  {
    seq(|x|, b requires 0 <= b < |x| =>
      seq(K, k requires 0 <= k < K => MatLin(x[b][k], MatOnes(W, H), 1.0, -mu[k])))
  }

  lemma CenteredSlices(x: Tensor, K: nat, W: nat, H: nat, mu: seq<real>, k: nat, m: real)
    requires Shaped(x, K, W, H) && |mu| == K && k < K && m == mu[k]
    ensures AffineSlices(Centered(x, K, W, H, mu), x, k, W, H, 1.0, -m)
  {
  }

  /** Centring channel k on m = -q subtracts m once per element from its sum. */
  lemma CenteredChannelSum(x: Tensor, K: nat, W: nat, H: nat, mu: seq<real>, k: nat, q: real)
    requires Shaped(x, K, W, H) && |mu| == K && k < K && q == -mu[k]
    ensures ChannelSum(Centered(x, K, W, H, mu), k) == 1.0 * ChannelSum(x, k) + q * ((|x| * W * H) as real)
  {
    CenteredSlices(x, K, W, H, mu, k, -q);
    ChannelSumAffine(Centered(x, K, W, H, mu), x, k, W, H, 1.0, q);
  }

  /** Centring on the batch mean leaves every channel summing to zero. */
  lemma CenteredSumsToZero(x: Tensor, K: nat, W: nat, H: nat, k: nat)
    requires Shaped(x, K, W, H) && k < K && |x| * W * H > 0
    ensures ChannelSum(Centered(x, K, W, H, BatchMeans(x, K, |x| * W * H)), k) == 0.0
  {
    var S := |x| * W * H;
    var q := -BatchMeans(x, K, S)[k];
    CenteredChannelSum(x, K, W, H, BatchMeans(x, K, S), k, q);
    MeanCancels(ChannelSum(x, k), S as real, q);
  }

  lemma MeanCancels(total: real, S: real, q: real)
    requires S > 0.0 && q == -(total / S)
    ensures 1.0 * total + q * S == 0.0
  {
  }

  lemma CentreScale(x: real, mu: real, c: real)
    ensures (x - mu) * c == c * (1.0 * x + -mu * 1.0) + 0.0 * (1.0 * x + -mu * 1.0)
  {
  }

  lemma NormalizedSlices(x: Tensor, K: nat, W: nat, H: nat, mu: seq<real>, c: seq<real>, k: nat)
    requires Shaped(x, K, W, H) && |mu| == K && |c| == K && k < K
    ensures LinSlices(Normalized(x, mu, c), Centered(x, K, W, H, mu), Centered(x, K, W, H, mu), k, W, H, c[k], 0.0)
  {
    var y := Centered(x, K, W, H, mu);
    forall b | 0 <= b < |x|
      ensures Normalized(x, mu, c)[b][k] == MatLin(y[b][k], y[b][k], c[k], 0.0)
    {
      var r, s := Normalized(x, mu, c)[b][k], MatLin(y[b][k], y[b][k], c[k], 0.0);
      forall w | 0 <= w < W ensures r[w] == s[w] {
        forall h | 0 <= h < H ensures r[w][h] == s[w][h] {
          CentreScale(x[b][k][w][h], mu[k], c[k]);
        }
      }
    }
  }

  /**
   * Centring on the batch mean makes every channel of the normalized batch
   * sum to zero, whatever the scale factor.
   */
  lemma NormalizedSumsToZero(x: Tensor, K: nat, W: nat, H: nat, c: seq<real>, k: nat)
    requires Shaped(x, K, W, H) && |c| == K && k < K
    requires |x| * W * H > 0
    ensures ChannelSum(Normalized(x, BatchMeans(x, K, |x| * W * H), c), k) == 0.0
  {
    var mu := BatchMeans(x, K, |x| * W * H);
    var y := Centered(x, K, W, H, mu);
    NormalizedSlices(x, K, W, H, mu, c, k);
    ChannelSumLin(Normalized(x, mu, c), y, y, k, W, H, c[k], 0.0);
    CenteredSumsToZero(x, K, W, H, k);
  }

  // ---------------------------------------------------------------------
  // Batch variance and running statistics.
  // ---------------------------------------------------------------------

  lemma SquareNonneg(a: real)
    ensures a * a >= 0.0
  {
  }

  /** The batch variance of every channel is non-negative. */
  lemma BatchVarsNonneg(x: Tensor, mu: seq<real>, S: nat)
    requires forall b :: 0 <= b < |x| ==> |x[b]| == |mu|
    requires S > 0
    ensures forall k :: 0 <= k < |mu| ==> BatchVars(x, mu, S)[k] >= 0.0
  {
    var d := SquaredDeviations(x, mu);
    forall k | 0 <= k < |mu| ensures BatchVars(x, mu, S)[k] >= 0.0 {
      forall b, w, h | 0 <= b < |d| && 0 <= w < |d[b][k]| && 0 <= h < |d[b][k][w]| ensures d[b][k][w][h] >= 0.0 {
        SquareNonneg(x[b][k][w][h] - mu[k]);
      }
      ChannelSumNonneg(d, k);
    }
  }

  /**
   * A batch of four samples of one 1 x 1 channel holding 1, 2, 3 and 4 has
   * batch mean 2.5 and population variance 1.25.
   */
  lemma BatchStatisticsExample()
    ensures BatchMeans([[[[1.0]]], [[[2.0]]], [[[3.0]]], [[[4.0]]]], 1, 4) == [2.5]
    ensures BatchVars([[[[1.0]]], [[[2.0]]], [[[3.0]]], [[[4.0]]]], [2.5], 4) == [1.25]
  {
    var x: Tensor := [[[[1.0]]], [[[2.0]]], [[[3.0]]], [[[4.0]]]];
    SingleElement(x, 0);
    SingleElement(SquaredDeviations(x, [2.5]), 0);
    assert SliceSums(x, 0) == [1.0, 2.0, 3.0, 4.0];
    assert SliceSums(SquaredDeviations(x, [2.5]), 0) == [2.25, 0.25, 0.25, 2.25];
    assert Sum([1.0, 2.0, 3.0, 4.0]) == 10.0 by {
      assert [1.0, 2.0, 3.0, 4.0][..3] == [1.0, 2.0, 3.0];
      assert [1.0, 2.0, 3.0][..2] == [1.0, 2.0];
      assert [1.0, 2.0][..1] == [1.0];
    }
    assert Sum([2.25, 0.25, 0.25, 2.25]) == 5.0 by {
      assert [2.25, 0.25, 0.25, 2.25][..3] == [2.25, 0.25, 0.25];
      assert [2.25, 0.25, 0.25][..2] == [2.25, 0.25];
      assert [2.25, 0.25][..1] == [2.25];
    }
  }

  /** A 1 x 1 slice sums to its one element. */
  lemma SingleElement(t: Tensor, k: nat)
    requires forall b :: 0 <= b < |t| ==> k < |t[b]| && |t[b][k]| == 1 && |t[b][k][0]| == 1
    ensures forall b :: 0 <= b < |t| ==> MatSum(t[b][k]) == t[b][k][0][0]
  {
    forall b | 0 <= b < |t| ensures MatSum(t[b][k]) == t[b][k][0][0] {
      var m := t[b][k];
      assert m[0][..0] == [];
      assert Sum(m[0]) == m[0][0];
      assert RowSums(m)[0] == m[0][0];
      assert RowSums(m)[..0] == [];
    }
  }

  /** The running average is a convex combination, so it stays between its two inputs. */
  lemma RunningMeanBetween(mean: seq<real>, batchMean: seq<real>, m: real)
    requires |batchMean| == |mean| && 0.0 <= m <= 1.0
    ensures forall k :: 0 <= k < |mean| ==>
      (mean[k] <= RunningMean(mean, batchMean, m)[k] <= batchMean[k]) ||
      (batchMean[k] <= RunningMean(mean, batchMean, m)[k] <= mean[k])
  {
    forall k | 0 <= k < |mean|
      ensures (mean[k] <= RunningMean(mean, batchMean, m)[k] <= batchMean[k]) ||
              (batchMean[k] <= RunningMean(mean, batchMean, m)[k] <= mean[k])
    {
      Convex(mean[k], batchMean[k], m, RunningMean(mean, batchMean, m)[k]);
    }
  }

  lemma Convex(a: real, b: real, m: real, r: real)
    requires 0.0 <= m <= 1.0 && r == m * a + (1.0 - m) * b
    ensures (a <= r <= b) || (b <= r <= a)
  {
    if a <= b {
      assert m * a + (1.0 - m) * b == a + (1.0 - m) * (b - a);
      NonnegProduct(1.0 - m, b - a);
      NonnegProduct(m, b - a);
    } else {
      assert m * a + (1.0 - m) * b == b + m * (a - b);
      NonnegProduct(m, a - b);
      NonnegProduct(1.0 - m, a - b);
    }
  }

  lemma NonnegProduct(a: real, b: real)
    requires a >= 0.0 && b >= 0.0
    ensures a * b >= 0.0
  {
  }

  /** A batch whose mean equals the running mean leaves the running mean unchanged. */
  lemma RunningMeanSteady(mean: seq<real>, m: real)
    ensures RunningMean(mean, mean, m) == mean
  {
    forall k | 0 <= k < |mean| ensures RunningMean(mean, mean, m)[k] == mean[k] {
      Steady(mean[k], m);
    }
  }

  lemma Steady(a: real, m: real)
    ensures m * a + (1.0 - m) * a == a
  {
  }

  /**
   * The truncated factor: 2 for a batch of two elements per channel and 1
   * for every larger batch.
   */
  lemma BesselFactorValues(S: nat)
    requires S >= 2
    ensures S == 2 ==> BesselFactor(S) == 2
    ensures S >= 3 ==> BesselFactor(S) == 1
  {
    if S >= 3 {
      DivOne(S, S - 1);
    }
  }

  lemma DivOne(a: nat, b: nat)
    requires 0 < b < a < 2 * b
    ensures a / b == 1
  {
  }

  /**
   * For every batch of three or more elements per channel the factor is
   * strictly below the sample-variance correction S / (S - 1).
   */
  lemma BesselFactorBelowCorrection(S: nat)
    requires S >= 3
    ensures (BesselFactor(S) as real) < (S as real) / ((S - 1) as real)
  {
    BesselFactorValues(S);
    BelowRatio(S as real);
  }

  lemma BelowRatio(s: real)
    requires s >= 3.0
    ensures 1.0 < s / (s - 1.0)
  {
    var q := s / (s - 1.0);
    assert (q - 1.0) * (s - 1.0) == 1.0;
    if q <= 1.0 {
      NonnegProduct(1.0 - q, s - 1.0);
    }
  }

  /**
   * For every batch of three or more elements per channel the running
   * variance takes in the population variance, uncorrected.
   */
  lemma RunningVarUncorrected(v: seq<real>, batchVar: seq<real>, m: real, S: nat)
    requires |batchVar| == |v| && S >= 3
    ensures forall k :: 0 <= k < |v| ==> RunningVar(v, batchVar, m, S)[k] == m * v[k] + (1.0 - m) * batchVar[k]
  {
    BesselFactorValues(S);
  }

  /**
   * From the zero statistics of a freshly sized layer, one update with
   * momentum m leaves (1 - m) times the batch mean and (1 - m) times the
   * truncated factor times the batch variance.
   */
  lemma RunningFromZero(batchMean: seq<real>, batchVar: seq<real>, m: real, S: nat)
    requires |batchVar| == |batchMean| && S >= 2
    ensures forall k :: 0 <= k < |batchMean| ==>
      RunningMean(Fill(|batchMean|, 0.0), batchMean, m)[k] == (1.0 - m) * batchMean[k] &&
      RunningVar(Fill(|batchMean|, 0.0), batchVar, m, S)[k] == (1.0 - m) * ((BesselFactor(S) as real) * batchVar[k])
  {
    forall k | 0 <= k < |batchMean|
      ensures RunningMean(Fill(|batchMean|, 0.0), batchMean, m)[k] == (1.0 - m) * batchMean[k]
      ensures RunningVar(Fill(|batchMean|, 0.0), batchVar, m, S)[k] == (1.0 - m) * ((BesselFactor(S) as real) * batchVar[k])
    {
      ZeroTerm(m, (1.0 - m) * batchMean[k]);
      ZeroTerm(m, (1.0 - m) * ((BesselFactor(S) as real) * batchVar[k]));
    }
  }

  lemma ZeroTerm(m: real, a: real)
    ensures m * 0.0 + a == a
  {
  }

  /** Non-negative variances stay non-negative under the running update. */
  lemma RunningVarNonneg(v: seq<real>, batchVar: seq<real>, m: real, S: nat)
    requires |batchVar| == |v| && S >= 2 && 0.0 <= m <= 1.0
    requires forall k :: 0 <= k < |v| ==> v[k] >= 0.0 && batchVar[k] >= 0.0
    ensures forall k :: 0 <= k < |v| ==> RunningVar(v, batchVar, m, S)[k] >= 0.0
  {
    var f := BesselFactor(S) as real;
    forall k | 0 <= k < |v| ensures RunningVar(v, batchVar, m, S)[k] >= 0.0 {
      assert RunningVar(v, batchVar, m, S)[k] == m * v[k] + (1.0 - m) * (f * batchVar[k]);
      NonnegProduct(m, v[k]);
      NonnegProduct(f, batchVar[k]);
      NonnegProduct(1.0 - m, f * batchVar[k]);
    }
  }

  // ---------------------------------------------------------------------
  // Element formulas of the passes.
  // ---------------------------------------------------------------------

  /**
   * Every inference output element is gamma(k) * (x - mean(k)) * iv(k) +
   * beta(k), with the running mean of channel k and its inverse standard
   * deviation iv(k) = 1 / sqrt(var(k) + E) taken from the running variance.
   */
  lemma InferElement(x: Tensor, K: nat, W: nat, H: nat, gamma: seq<real>, beta: seq<real>, mean: seq<real>, v: seq<real>, rsqrt: InvSqrt)
    requires Shaped(x, K, W, H) && |gamma| == K && |beta| == K && |mean| == K && |v| == K
    requires forall c :: 0 <= c < K ==> v[c] >= 0.0
    ensures forall b, k, w, h :: 0 <= b < |x| && 0 <= k < K && 0 <= w < W && 0 <= h < H ==>
      Infer(x, gamma, beta, mean, v, rsqrt)[b][k][w][h] == gamma[k] * ((x[b][k][w][h] - mean[k]) * InvStd(v, rsqrt)[k]) + beta[k]
  {
    AffineNormalizedElements(x, K, W, H, gamma, beta, mean, InvStd(v, rsqrt));
  }

  /** Normalizing with any per-channel factors c and then scaling and shifting, element by element. */
  lemma AffineNormalizedElements(x: Tensor, K: nat, W: nat, H: nat, gamma: seq<real>, beta: seq<real>, mean: seq<real>, c: seq<real>)
    requires Shaped(x, K, W, H) && |gamma| == K && |beta| == K && |mean| == K && |c| == K
    ensures forall b, k, w, h :: 0 <= b < |x| && 0 <= k < K && 0 <= w < W && 0 <= h < H ==>
      Affine(Normalized(x, mean, c), gamma, beta)[b][k][w][h] == gamma[k] * ((x[b][k][w][h] - mean[k]) * c[k]) + beta[k]
  {
    forall b, k, w, h | 0 <= b < |x| && 0 <= k < K && 0 <= w < W && 0 <= h < H
      ensures Affine(Normalized(x, mean, c), gamma, beta)[b][k][w][h] == gamma[k] * ((x[b][k][w][h] - mean[k]) * c[k]) + beta[k]
    {
      AffineNormalizedAt(x, gamma, beta, mean, c, b, k, w, h);
    }
  }

  lemma AffineNormalizedAt(x: Tensor, gamma: seq<real>, beta: seq<real>, mean: seq<real>, c: seq<real>, b: nat, k: nat, w: nat, h: nat)
    requires |beta| == |gamma| && |mean| == |gamma| && |c| == |gamma|
    requires forall i :: 0 <= i < |x| ==> |x[i]| == |gamma|
    requires b < |x| && k < |gamma| && w < |x[b][k]| && h < |x[b][k][w]|
    ensures Affine(Normalized(x, mean, c), gamma, beta)[b][k][w][h] == gamma[k] * ((x[b][k][w][h] - mean[k]) * c[k]) + beta[k]
  {
    assert Normalized(x, mean, c)[b][k] == Normalize(x[b][k], mean[k], c[k]);
  }

  /**
   * Every input-gradient element is (inv_var(k) / S) * (S * d - sum of d -
   * xhat * sum of d * xhat), where d = errors * gamma(k) and the sums run
   * over channel k of the whole batch.
   */
  lemma BackwardElement(errors: Tensor, gamma: seq<real>, xhat: Tensor, invVar: seq<real>, K: nat, W: nat, H: nat, S: nat,
                        b: nat, k: nat, w: nat, h: nat)
    requires |gamma| == K && |invVar| == K && S > 0
    requires Shaped(errors, K, W, H) && Shaped(xhat, K, W, H) && |xhat| == |errors|
    requires b < |errors| && k < K && w < W && h < H
    ensures Shaped(ScaledErrors(errors, gamma), K, W, H)
    ensures Backward(errors, gamma, xhat, invVar, W, H, S)[b][k][w][h] ==
      ((1.0 / (S as real)) * invVar[k]) *
        ((S as real) * (errors[b][k][w][h] * gamma[k])
         - ChannelSum(ScaledErrors(errors, gamma), k)
         - xhat[b][k][w][h] * ChannelSum(Products(ScaledErrors(errors, gamma), xhat, K, W, H), k))
  {
    ScaledErrorsShape(errors, gamma, W, H);
    InputGradientAt(ScaledErrors(errors, gamma), xhat, invVar, W, H, S, b, k, w, h);
    assert ScaledErrors(errors, gamma)[b][k] == Scale(errors[b][k], gamma[k]);
  }

  /** Every element of the input gradient for scaled errors d. */
  lemma InputGradientAt(d: Tensor, xhat: Tensor, invVar: seq<real>, W: nat, H: nat, S: nat, b: nat, k: nat, w: nat, h: nat)
    requires Shaped(d, |invVar|, W, H) && Shaped(xhat, |invVar|, W, H) && |xhat| == |d| && S > 0
    requires b < |d| && k < |invVar| && w < W && h < H
    ensures InputGradient(d, xhat, invVar, W, H, S)[b][k][w][h] ==
      ((1.0 / (S as real)) * invVar[k]) *
        ((S as real) * d[b][k][w][h] - ChannelSum(d, k) - xhat[b][k][w][h] * ChannelSum(Products(d, xhat, |invVar|, W, H), k))
  {
    assert InputGradient(d, xhat, invVar, W, H, S)[b][k] ==
      GradSlice(d[b][k], xhat[b][k], invVar[k], S as real, ChannelSums(d, |invVar|)[k], ChannelSums(Products(d, xhat, |invVar|, W, H), |invVar|)[k]);
  }

  /**
   * The per-channel reductions of the backward pass are gamma(k) times the
   * parameter gradients: the sum of d is gamma(k) * b_grad(k) and the sum of
   * d * xhat is gamma(k) * w_grad(k).
   */
  lemma BackwardReductions(errors: Tensor, gamma: seq<real>, xhat: Tensor, K: nat, W: nat, H: nat, k: nat)
    requires Shaped(errors, K, W, H) && Shaped(xhat, K, W, H) && |xhat| == |errors|
    requires |gamma| == K && k < K
    ensures Shaped(ScaledErrors(errors, gamma), K, W, H)
    ensures ChannelSum(ScaledErrors(errors, gamma), k) == gamma[k] * BetaGrad(errors, K)[k]
    ensures ChannelSum(Products(ScaledErrors(errors, gamma), xhat, K, W, H), k) == gamma[k] * GammaGrad(xhat, errors, K, W, H)[k]
  {
    BetaGradScaled(errors, gamma, K, W, H, k);
    GammaGradScaled(errors, gamma, xhat, K, W, H, k);
  }

  // ---------------------------------------------------------------------
  // Normalization and the affine output.
  // ---------------------------------------------------------------------

  lemma ConstantSlices(x: Tensor, K: nat, W: nat, H: nat, k: nat, v: real)
    requires Shaped(x, K, W, H) && k < K
    requires forall b, w, h :: 0 <= b < |x| && 0 <= w < W && 0 <= h < H ==> x[b][k][w][h] == v
    ensures AffineSlices(x, x, k, W, H, 0.0, v)
  {
    forall b | 0 <= b < |x| ensures x[b][k] == MatLin(x[b][k], MatOnes(W, H), 0.0, v) {
      var s := MatLin(x[b][k], MatOnes(W, H), 0.0, v);
      forall w | 0 <= w < W ensures x[b][k][w] == s[w] {
      }
    }
  }

  /** A channel holding one value v throughout has batch mean v. */
  lemma ConstantChannelMean(x: Tensor, K: nat, W: nat, H: nat, k: nat, v: real)
    requires Shaped(x, K, W, H) && k < K && |x| * W * H > 0
    requires forall b, w, h :: 0 <= b < |x| && 0 <= w < W && 0 <= h < H ==> x[b][k][w][h] == v
    ensures BatchMeans(x, K, |x| * W * H)[k] == v
  {
    ConstantSlices(x, K, W, H, k, v);
    ChannelSumAffine(x, x, k, W, H, 0.0, v);
    MeanOfConstant(ChannelSum(x, k), ((|x| * W * H) as real), v);
  }

  lemma MeanOfConstant(total: real, S: real, v: real)
    requires S > 0.0 && total == 0.0 * total + v * S
    ensures total / S == v
  {
  }

  /**
   * A channel holding one value throughout normalizes to zero, so the
   * training output of that channel is beta(k) everywhere.
   */
  lemma ConstantChannel(x: Tensor, K: nat, W: nat, H: nat, k: nat, v: real, c: seq<real>, gamma: seq<real>, beta: seq<real>)
    requires Shaped(x, K, W, H) && k < K && |x| * W * H > 0
    requires |c| == K && |gamma| == K && |beta| == K
    requires forall b, w, h :: 0 <= b < |x| && 0 <= w < W && 0 <= h < H ==> x[b][k][w][h] == v
    ensures forall b, w, h :: 0 <= b < |x| && 0 <= w < W && 0 <= h < H ==>
      Normalized(x, BatchMeans(x, K, |x| * W * H), c)[b][k][w][h] == 0.0 &&
      Affine(Normalized(x, BatchMeans(x, K, |x| * W * H), c), gamma, beta)[b][k][w][h] == beta[k]
  {
    ConstantChannelMean(x, K, W, H, k, v);
  }

  /** With gamma(k) = 0 the inference output of channel k is beta(k) everywhere. */
  lemma InferGammaZero(x: Tensor, K: nat, W: nat, H: nat, gamma: seq<real>, beta: seq<real>, mean: seq<real>, v: seq<real>, rsqrt: InvSqrt, k: nat)
    requires Shaped(x, K, W, H) && |gamma| == K && |beta| == K && |mean| == K && |v| == K
    requires forall c :: 0 <= c < K ==> v[c] >= 0.0
    requires k < K && gamma[k] == 0.0
    ensures forall b, w, h :: 0 <= b < |x| && 0 <= w < W && 0 <= h < H ==>
      Infer(x, gamma, beta, mean, v, rsqrt)[b][k][w][h] == beta[k]
  {
  }

  /**
   * With the initial parameters gamma = 1 and beta = 0 the affine step is
   * the identity: the output is the normalized input.
   */
  lemma AffineIdentity(x: Tensor, K: nat, W: nat, H: nat)
    requires Shaped(x, K, W, H)
    ensures Affine(x, Fill(K, 1.0), Fill(K, 0.0)) == x
  {
    var r := Affine(x, Fill(K, 1.0), Fill(K, 0.0));
    forall b | 0 <= b < |x| ensures r[b] == x[b] {
      forall k | 0 <= k < K ensures r[b][k] == x[b][k] {
        forall w | 0 <= w < W ensures r[b][k][w] == x[b][k][w] {
        }
      }
    }
  }

  // ---------------------------------------------------------------------
  // The backward pass.
  // ---------------------------------------------------------------------

  lemma ScaledErrorsShape(errors: Tensor, gamma: seq<real>, W: nat, H: nat)
    requires Shaped(errors, |gamma|, W, H)
    ensures Shaped(ScaledErrors(errors, gamma), |gamma|, W, H)
  {
  }

  /**
   * S * d - xl * xhat, then minus l: the bracket of the input gradient,
   * before the factor inv_var(k) / S.
   */
  function GradBracket(d: Tensor, xhat: Tensor, K: nat, W: nat, H: nat, S: real, l: real, xl: real): (r: Tensor)
    requires Shaped(d, K, W, H) && Shaped(xhat, K, W, H) && |xhat| == |d|
    ensures Shaped(r, K, W, H) && |r| == |d|
  {
    TensorAffine(TensorLin(d, xhat, K, W, H, S, -xl), K, W, H, 1.0, -l)
  }

  lemma GradElement(a: real, iv: real, S: real, d: real, l: real, x: real, xl: real)
    requires S != 0.0 && a == (1.0 / S) * iv
    ensures ((1.0 / S) * iv) * (S * d - l - x * xl) == a * (1.0 * (S * d + -xl * x) + -l * 1.0) + 0.0 * (1.0 * (S * d + -xl * x) + -l * 1.0)
  {
  }

  lemma GradSliceLin(d: Matrix, x: Matrix, W: nat, H: nat, iv: real, S: real, l: real, xl: real, a: real)
    requires IsMatrix(d, W, H) && IsMatrix(x, W, H) && S != 0.0 && a == (1.0 / S) * iv
    ensures GradSlice(d, x, iv, S, l, xl) ==
      MatLin(MatLin(MatLin(d, x, S, -xl), MatOnes(W, H), 1.0, -l), MatLin(MatLin(d, x, S, -xl), MatOnes(W, H), 1.0, -l), a, 0.0)
  {
    var r, s := GradSlice(d, x, iv, S, l, xl),
      MatLin(MatLin(MatLin(d, x, S, -xl), MatOnes(W, H), 1.0, -l), MatLin(MatLin(d, x, S, -xl), MatOnes(W, H), 1.0, -l), a, 0.0);
    forall w | 0 <= w < W ensures r[w] == s[w] {
      forall h | 0 <= h < H ensures r[w][h] == s[w][h] {
        GradElement(a, iv, S, d[w][h], l, x[w][h], xl);
      }
    }
  }

  /** One slice of channel k of the input gradient is the bracket scaled by a. */
  lemma BackwardSlice(errors: Tensor, gamma: seq<real>, xhat: Tensor, invVar: seq<real>, K: nat, W: nat, H: nat, S: nat,
                      k: nat, b: nat, a: real, l: real, xl: real)
    requires |gamma| == K && |invVar| == K && k < K && b < |errors|
    requires Shaped(errors, K, W, H) && Shaped(xhat, K, W, H) && |xhat| == |errors| && S > 0
    requires Shaped(ScaledErrors(errors, gamma), K, W, H)
    requires a == (1.0 / (S as real)) * invVar[k]
    requires l == ChannelSums(ScaledErrors(errors, gamma), K)[k]
    requires xl == ChannelSums(Products(ScaledErrors(errors, gamma), xhat, K, W, H), K)[k]
    ensures Backward(errors, gamma, xhat, invVar, W, H, S)[b][k] ==
      MatLin(GradBracket(ScaledErrors(errors, gamma), xhat, K, W, H, S as real, l, xl)[b][k],
             GradBracket(ScaledErrors(errors, gamma), xhat, K, W, H, S as real, l, xl)[b][k], a, 0.0)
  {
    var d := ScaledErrors(errors, gamma);
    assert Backward(errors, gamma, xhat, invVar, W, H, S)[b][k] == GradSlice(d[b][k], xhat[b][k], invVar[k], S as real, l, xl);
    assert TensorLin(d, xhat, K, W, H, S as real, -xl)[b][k] == MatLin(d[b][k], xhat[b][k], S as real, -xl);
    assert GradBracket(d, xhat, K, W, H, S as real, l, xl)[b][k] ==
      MatLin(TensorLin(d, xhat, K, W, H, S as real, -xl)[b][k], MatOnes(W, H), 1.0, -l);
    GradSliceLin(d[b][k], xhat[b][k], W, H, invVar[k], S as real, l, xl, a);
  }

  /** Channel k of the input gradient is the bracket scaled by a = inv_var(k) / S. */
  lemma BackwardSlices(errors: Tensor, gamma: seq<real>, xhat: Tensor, invVar: seq<real>, K: nat, W: nat, H: nat, S: nat,
                       k: nat, a: real, l: real, xl: real)
    requires |gamma| == K && |invVar| == K && k < K
    requires Shaped(errors, K, W, H) && Shaped(xhat, K, W, H) && |xhat| == |errors| && S > 0
    requires Shaped(ScaledErrors(errors, gamma), K, W, H)
    requires a == (1.0 / (S as real)) * invVar[k]
    requires l == ChannelSums(ScaledErrors(errors, gamma), K)[k]
    requires xl == ChannelSums(Products(ScaledErrors(errors, gamma), xhat, K, W, H), K)[k]
    ensures LinSlices(Backward(errors, gamma, xhat, invVar, W, H, S),
                      GradBracket(ScaledErrors(errors, gamma), xhat, K, W, H, S as real, l, xl),
                      GradBracket(ScaledErrors(errors, gamma), xhat, K, W, H, S as real, l, xl),
                      k, W, H, a, 0.0)
  {
    forall b | 0 <= b < |errors|
      ensures Backward(errors, gamma, xhat, invVar, W, H, S)[b][k] ==
        MatLin(GradBracket(ScaledErrors(errors, gamma), xhat, K, W, H, S as real, l, xl)[b][k],
               GradBracket(ScaledErrors(errors, gamma), xhat, K, W, H, S as real, l, xl)[b][k], a, 0.0)
    {
      BackwardSlice(errors, gamma, xhat, invVar, K, W, H, S, k, b, a, l, xl);
    }
  }

  lemma LinPartSum(d: Tensor, xhat: Tensor, K: nat, W: nat, H: nat, k: nat, S: real, q: real)
    requires Shaped(d, K, W, H) && Shaped(xhat, K, W, H) && |xhat| == |d| && k < K
    ensures ChannelSum(TensorLin(d, xhat, K, W, H, S, q), k) == S * ChannelSum(d, k) + q * ChannelSum(xhat, k)
  {
    TensorLinSlices(d, xhat, K, W, H, S, q, k);
    ChannelSumLin(TensorLin(d, xhat, K, W, H, S, q), d, xhat, k, W, H, S, q);
  }

  lemma AffinePartSum(t: Tensor, K: nat, W: nat, H: nat, k: nat, q: real)
    requires Shaped(t, K, W, H) && k < K
    ensures ChannelSum(TensorAffine(t, K, W, H, 1.0, q), k) == 1.0 * ChannelSum(t, k) + q * ((|t| * W * H) as real)
  {
    TensorAffineSlices(t, K, W, H, 1.0, q, k);
    ChannelSumAffine(TensorAffine(t, K, W, H, 1.0, q), t, k, W, H, 1.0, q);
  }

  /** The bracket of a channel sums to S * l - xl * (sum of xhat) - l * S. */
  lemma GradBracketSum(d: Tensor, xhat: Tensor, K: nat, W: nat, H: nat, k: nat, S: real, l: real, xl: real)
    requires Shaped(d, K, W, H) && Shaped(xhat, K, W, H) && |xhat| == |d| && k < K
    requires S == (|d| * W * H) as real
    requires l == ChannelSum(d, k) && ChannelSum(xhat, k) == 0.0
    ensures ChannelSum(GradBracket(d, xhat, K, W, H, S, l, xl), k) == 0.0
  {
    var t := TensorLin(d, xhat, K, W, H, S, -xl);
    LinPartSum(d, xhat, K, W, H, k, S, -xl);
    AffinePartSum(t, K, W, H, k, -l);
    BracketCancels(ChannelSum(t, k), S, l, xl, ChannelSum(xhat, k));
  }

  lemma BracketCancels(t: real, S: real, l: real, xl: real, sx: real)
    requires t == S * l + -xl * sx && sx == 0.0
    ensures 1.0 * t + -l * S == 0.0
  {
  }

  /**
   * When the cached normalized input sums to zero in channel k, so does the
   * input gradient: the backward pass removes the mean of the gradient.
   */
  lemma BackwardSumsToZero(errors: Tensor, gamma: seq<real>, xhat: Tensor, invVar: seq<real>, K: nat, W: nat, H: nat, k: nat)
    requires |gamma| == K && |invVar| == K && k < K
    requires Shaped(errors, K, W, H) && Shaped(xhat, K, W, H) && |xhat| == |errors| && |errors| * W * H > 0
    requires ChannelSum(xhat, k) == 0.0
    ensures ChannelSum(Backward(errors, gamma, xhat, invVar, W, H, |errors| * W * H), k) == 0.0
  {
    var S := |errors| * W * H;
    var d := ScaledErrors(errors, gamma);
    ScaledErrorsShape(errors, gamma, W, H);
    var a := (1.0 / (S as real)) * invVar[k];
    var l := ChannelSums(d, K)[k];
    var xl := ChannelSums(Products(d, xhat, K, W, H), K)[k];
    BackwardSlices(errors, gamma, xhat, invVar, K, W, H, S, k, a, l, xl);
    var br := GradBracket(d, xhat, K, W, H, S as real, l, xl);
    ChannelSumLin(Backward(errors, gamma, xhat, invVar, W, H, S), br, br, k, W, H, a, 0.0);
    GradBracketSum(d, xhat, K, W, H, k, S as real, l, xl);
  }

  // ---------------------------------------------------------------------
  // The parameter gradients and their link to the backward pass.
  // ---------------------------------------------------------------------

  lemma ScaledErrorsSlices(errors: Tensor, gamma: seq<real>, K: nat, W: nat, H: nat, k: nat, g: real)
    requires Shaped(errors, K, W, H) && |gamma| == K && k < K && g == gamma[k]
    ensures LinSlices(ScaledErrors(errors, gamma), errors, errors, k, W, H, g, 0.0)
  {
    var d := ScaledErrors(errors, gamma);
    forall b | 0 <= b < |errors| ensures d[b][k] == MatLin(errors[b][k], errors[b][k], g, 0.0) {
      var s := MatLin(errors[b][k], errors[b][k], g, 0.0);
      forall w | 0 <= w < W ensures d[b][k][w] == s[w] {
      }
    }
  }

  /**
   * The sum of the scaled errors of channel k, which the backward pass
   * subtracts, is gamma(k) times the gradient of beta(k).
   */
  lemma BetaGradScaled(errors: Tensor, gamma: seq<real>, K: nat, W: nat, H: nat, k: nat)
    requires Shaped(errors, K, W, H) && |gamma| == K && k < K
    ensures ChannelSums(ScaledErrors(errors, gamma), K)[k] == gamma[k] * BetaGrad(errors, K)[k]
  {
    var g := gamma[k];
    ScaledErrorsSlices(errors, gamma, K, W, H, k, g);
    ChannelSumLin(ScaledErrors(errors, gamma), errors, errors, k, W, H, g, 0.0);
  }

  lemma ProductElement(e: real, g: real, x: real)
    ensures (e * g) * x == g * (x * e) + 0.0 * (x * e)
  {
  }

  lemma ScaledProductsSlices(errors: Tensor, gamma: seq<real>, xhat: Tensor, K: nat, W: nat, H: nat, k: nat, g: real)
    requires |gamma| == K && k < K && g == gamma[k]
    requires Shaped(errors, K, W, H) && Shaped(xhat, K, W, H) && |xhat| == |errors|
    requires Shaped(ScaledErrors(errors, gamma), K, W, H)
    ensures LinSlices(Products(ScaledErrors(errors, gamma), xhat, K, W, H), Products(xhat, errors, K, W, H),
                      Products(xhat, errors, K, W, H), k, W, H, g, 0.0)
  {
    var t := Products(ScaledErrors(errors, gamma), xhat, K, W, H);
    var u := Products(xhat, errors, K, W, H);
    forall b | 0 <= b < |errors| ensures t[b][k] == MatLin(u[b][k], u[b][k], g, 0.0) {
      var s := MatLin(u[b][k], u[b][k], g, 0.0);
      forall w | 0 <= w < W ensures t[b][k][w] == s[w] {
        forall h | 0 <= h < H ensures t[b][k][w][h] == s[w][h] {
          ProductElement(errors[b][k][w][h], g, xhat[b][k][w][h]);
        }
      }
    }
  }

  /**
   * The sum of the scaled errors times the normalized input, which the
   * backward pass subtracts, is gamma(k) times the gradient of gamma(k).
   */
  lemma GammaGradScaled(errors: Tensor, gamma: seq<real>, xhat: Tensor, K: nat, W: nat, H: nat, k: nat)
    requires Shaped(errors, K, W, H) && Shaped(xhat, K, W, H) && |xhat| == |errors|
    requires |gamma| == K && k < K
    ensures Shaped(ScaledErrors(errors, gamma), K, W, H)
    ensures ChannelSums(Products(ScaledErrors(errors, gamma), xhat, K, W, H), K)[k] == gamma[k] * GammaGrad(xhat, errors, K, W, H)[k]
  {
    var g := gamma[k];
    ScaledErrorsShape(errors, gamma, W, H);
    ScaledProductsSlices(errors, gamma, xhat, K, W, H, k, g);
    var u := Products(xhat, errors, K, W, H);
    ChannelSumLin(Products(ScaledErrors(errors, gamma), xhat, K, W, H), u, u, k, W, H, g, 0.0);
  }

  lemma GradElementZero(c: real, S: real, x: real)
    ensures c * (S * 0.0 - 0.0 - x * 0.0) == 0.0
  {
  }

  /** A channel whose scaled errors all vanish receives a zero input gradient. */
  lemma BackwardChannelZero(errors: Tensor, gamma: seq<real>, xhat: Tensor, invVar: seq<real>, K: nat, W: nat, H: nat, S: nat, k: nat)
    requires |gamma| == K && |invVar| == K && k < K && S > 0
    requires Shaped(errors, K, W, H) && Shaped(xhat, K, W, H) && |xhat| == |errors|
    requires forall b, w, h :: 0 <= b < |errors| && 0 <= w < W && 0 <= h < H ==> ScaledErrors(errors, gamma)[b][k][w][h] == 0.0
    ensures forall b, w, h :: 0 <= b < |errors| && 0 <= w < W && 0 <= h < H ==>
      Backward(errors, gamma, xhat, invVar, W, H, S)[b][k][w][h] == 0.0
  {
    var d := ScaledErrors(errors, gamma);
    ScaledErrorsShape(errors, gamma, W, H);
    var p := Products(d, xhat, K, W, H);
    ChannelSumZero(d, k);
    forall b, w, h | 0 <= b < |errors| && 0 <= w < W && 0 <= h < H ensures p[b][k][w][h] == 0.0 {
    }
    ChannelSumZero(p, k);
    var l := ChannelSums(d, K)[k];
    var xl := ChannelSums(p, K)[k];
    var r := Backward(errors, gamma, xhat, invVar, W, H, S);
    forall b, w, h | 0 <= b < |errors| && 0 <= w < W && 0 <= h < H ensures r[b][k][w][h] == 0.0 {
      assert r[b][k] == GradSlice(d[b][k], xhat[b][k], invVar[k], S as real, l, xl);
      GradElementZero((1.0 / (S as real)) * invVar[k], S as real, xhat[b][k][w][h]);
    }
  }

  /** With gamma(k) = 0 no gradient flows back through channel k. */
  lemma BackwardGammaZero(errors: Tensor, gamma: seq<real>, xhat: Tensor, invVar: seq<real>, K: nat, W: nat, H: nat, S: nat, k: nat)
    requires |gamma| == K && |invVar| == K && k < K && S > 0 && gamma[k] == 0.0
    requires Shaped(errors, K, W, H) && Shaped(xhat, K, W, H) && |xhat| == |errors|
    ensures forall b, w, h :: 0 <= b < |errors| && 0 <= w < W && 0 <= h < H ==>
      Backward(errors, gamma, xhat, invVar, W, H, S)[b][k][w][h] == 0.0
  {
    BackwardChannelZero(errors, gamma, xhat, invVar, K, W, H, S, k);
  }

  /** Zero errors give zero gradients for gamma, beta and the input. */
  lemma ZeroErrors(errors: Tensor, gamma: seq<real>, xhat: Tensor, invVar: seq<real>, K: nat, W: nat, H: nat, S: nat)
    requires |gamma| == K && |invVar| == K && S > 0
    requires Shaped(errors, K, W, H) && Shaped(xhat, K, W, H) && |xhat| == |errors|
    requires forall b, k, w, h :: 0 <= b < |errors| && 0 <= k < K && 0 <= w < W && 0 <= h < H ==> errors[b][k][w][h] == 0.0
    ensures GammaGrad(xhat, errors, K, W, H) == Fill(K, 0.0)
    ensures BetaGrad(errors, K) == Fill(K, 0.0)
    ensures forall b, k, w, h :: 0 <= b < |errors| && 0 <= k < K && 0 <= w < W && 0 <= h < H ==>
      Backward(errors, gamma, xhat, invVar, W, H, S)[b][k][w][h] == 0.0
  {
    var p := Products(xhat, errors, K, W, H);
    forall k | 0 <= k < K ensures GammaGrad(xhat, errors, K, W, H)[k] == 0.0 && BetaGrad(errors, K)[k] == 0.0 {
      ChannelSumZero(errors, k);
      ChannelSumZero(p, k);
    }
    forall b, k, w, h | 0 <= b < |errors| && 0 <= k < K && 0 <= w < W && 0 <= h < H
      ensures Backward(errors, gamma, xhat, invVar, W, H, S)[b][k][w][h] == 0.0
    {
      BackwardChannelZero(errors, gamma, xhat, invVar, K, W, H, S, k);
    }
  }
}
