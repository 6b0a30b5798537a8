/**
 * The 4-D batch-normalization layer as a stateful object: per-channel
 * parameters and statistics, the normalized input cached by the training
 * pass, and the passes that read and update them.  Caller-owned output
 * buffers are returned as values.
 */
module BatchNormLayer {
  import opened Tensors
  import opened BatchNorm
  import opened BatchNormProperties

  class Layer {
    /** Number of channels and the size of one channel slice. */
    var Kernels: nat
    var W: nat
    var H: nat

    /** Trainable scale and shift, one per channel. */
    var gamma: seq<real>
    var beta: seq<real>

    /** Running statistics used at inference. */
    var mean: seq<real>
    var variance: seq<real>

    /** Statistics of the last training batch. */
    var lastMean: seq<real>
    var lastVar: seq<real>
    var invVar: seq<real>

    /** The normalized input of the last training batch, B x K x W x H. */
    var inputPre: Tensor

    /** Weight of the old running statistics in the running update. */
    const momentum: real := 0.9

    /** The platform's 1 / sqrt(x). */
    const rsqrt: InvSqrt

    /** Whether a training pass has run since the layer was last sized. */
    ghost var trained: bool
    /** The input of that training pass. */
    ghost var lastInput: Tensor

    /** The state a training pass leaves behind, as functions of its input. */
    ghost predicate TrainedState()
      reads this
    {
      AfterTraining(lastInput, Kernels, W, H, rsqrt, lastMean, lastVar, invVar, inputPre)
    }

    /**
     * Every per-channel vector has one entry per channel and the running
     * variance is non-negative.
     */
    ghost predicate Coherent()
      reads this
    {
      |gamma| == Kernels && |beta| == Kernels && |mean| == Kernels && |variance| == Kernels &&
      |lastMean| == Kernels && |lastVar| == Kernels && |invVar| == Kernels &&
      (forall k :: 0 <= k < Kernels ==> variance[k] >= 0.0)
    }

    ghost predicate Valid()
      reads this
    {
      Coherent() && (trained ==> TrainedState())
    }

    /** A layer with no channels yet; momentum 0.9. */
    constructor(rsqrt: InvSqrt)
      ensures Valid() && !trained
      ensures Kernels == 0 && W == 0 && H == 0 && inputPre == []
      ensures this.rsqrt == rsqrt
    {
      Kernels, W, H := 0, 0, 0;
      gamma, beta, mean, variance := [], [], [], [];
      lastMean, lastVar, invVar := [], [], [];
      inputPre := [];
      this.rsqrt := rsqrt;
      trained := false;
      lastInput := [];
    }

    /**
     * Sizes the layer for K channels of W x H slices: every per-channel
     * vector has K zeros, then gamma is set to 1 and beta to 0.
     */
    method InitLayer(K: nat, W: nat, H: nat)
      modifies this
      ensures !trained && Valid()
      ensures Kernels == K && this.W == W && this.H == H
      ensures gamma == Fill(K, 1.0) && beta == Fill(K, 0.0)
      ensures mean == Fill(K, 0.0) && variance == Fill(K, 0.0)
      ensures lastMean == Fill(K, 0.0) && lastVar == Fill(K, 0.0) && invVar == Fill(K, 0.0)
      ensures inputPre == old(inputPre)
    {
      var zeros := Fill(K, 0.0);
      Kernels, this.W, this.H := K, W, H;
      mean, variance := zeros, zeros;
      lastMean, lastVar, invVar := zeros, zeros, zeros;
      gamma, beta := Fill(K, 1.0), zeros;
      trained := false;
      assert forall k :: 0 <= k < K ==> variance[k] >= 0.0;
      assert Coherent();
    }

    /** Trainable parameters: gamma and beta, plus the running mean and variance. */
    function Parameters(): (n: nat)
      reads this
      ensures Valid() ==> n == |gamma| + |beta| + |mean| + |variance|
    {
      4 * Kernels
    }

    function InputSize(): (n: nat)
      reads this
    {
      Kernels * W * H
    }

    function OutputSize(): (n: nat)
      reads this
      ensures n == InputSize()
    {
      Kernels * W * H
    }

    /**
     * The inference pass: the running statistics normalize the batch, then
     * gamma and beta scale and shift it.  The layer is left unchanged.
     */
    method TestBatchActivateHidden(input: Tensor) returns (output: Tensor)
      requires Coherent() && Shaped(input, Kernels, W, H)
      ensures output == Infer(input, gamma, beta, mean, variance, rsqrt)
    {
      var B := |input|;
      var iv := InvStd(variance, rsqrt);
      ghost var spec := Infer(input, gamma, beta, mean, variance, rsqrt);
      output := [];
      var b := 0;
      while b < B
        invariant 0 <= b <= B
        invariant output == spec[..b]
      {
        var sample: seq<Matrix> := [];
        var k := 0;
        while k < Kernels
          invariant 0 <= k <= Kernels
          invariant sample == spec[b][..k]
        {
          sample := sample + [ScaleShift(Normalize(input[b][k], mean[k], iv[k]), gamma[k], beta[k])];
          k := k + 1;
        }
        assert sample == spec[b];
        assert spec[..b + 1] == spec[..b] + [spec[b]];
        output := output + [sample];
        b := b + 1;
      }
      assert spec[..B] == spec;
    }

    /**
     * The training pass.  The batch of B samples, S = B * W * H elements per
     * channel, gives the per-channel mean and population variance; the
     * batch is normalized with them and cached, scaled and shifted into the
     * output, and the batch statistics are folded into the running ones.
     * A cached tensor from an earlier pass is reused, so it must have the
     * batch's shape.
     */
    method TrainBatchActivateHidden(input: Tensor) returns (output: Tensor)
      requires Coherent() && Shaped(input, Kernels, W, H) && |input| * W * H >= 2
      requires inputPre == [] || (Shaped(inputPre, Kernels, W, H) && |inputPre| == |input|)
      modifies this
      ensures Valid() && trained && lastInput == input
      ensures Kernels == old(Kernels) && W == old(W) && H == old(H)
      ensures gamma == old(gamma) && beta == old(beta)
      ensures lastMean == BatchMeans(input, Kernels, |input| * W * H)
      ensures lastVar == BatchVars(input, lastMean, |input| * W * H)
      ensures forall k :: 0 <= k < |lastVar| ==> lastVar[k] >= 0.0
      ensures invVar == InvStd(lastVar, rsqrt)
      ensures inputPre == Normalized(input, lastMean, invVar)
      ensures output == Affine(inputPre, gamma, beta)
      ensures mean == RunningMean(old(mean), lastMean, momentum)
      ensures variance == RunningVar(old(variance), lastVar, momentum, |input| * W * H)
    {
      output := NormalizeTrainingBatch(input);
      var S := |input| * W * H;
      BatchVarsNonneg(input, lastMean, S);
      UpdateRunningStatistics(S);
    }

    /**
     * The batch statistics and the cache: mean, population variance and
     * inverse standard deviation of every channel, the normalized batch,
     * and the output scaled and shifted from it.
     */
    method NormalizeTrainingBatch(input: Tensor) returns (output: Tensor)
      requires |gamma| == Kernels && |beta| == Kernels
      requires Shaped(input, Kernels, W, H) && |input| * W * H >= 2
      requires inputPre == [] || (Shaped(inputPre, Kernels, W, H) && |inputPre| == |input|)
      modifies this`lastMean, this`lastVar, this`invVar, this`inputPre, this`trained, this`lastInput
      ensures trained && lastInput == input && TrainedState()
      ensures output == Affine(inputPre, gamma, beta)
    {
      var pre := if inputPre == [] then Zeros(|input|, Kernels, W, H) else inputPre;
      lastMean, lastVar, invVar, inputPre, output := BatchStatistics(input, Kernels, W, H, rsqrt, pre, gamma, beta);
      trained, lastInput := true, input;
    }

    /** The running statistics take in the batch statistics with weight 1 - momentum. */
    method UpdateRunningStatistics(S: nat)
      requires S >= 2 && |mean| == Kernels && |variance| == Kernels && |lastMean| == Kernels && |lastVar| == Kernels
      requires forall k :: 0 <= k < Kernels ==> variance[k] >= 0.0 && lastVar[k] >= 0.0
      modifies this`mean, this`variance
      ensures mean == RunningMean(old(mean), lastMean, momentum)
      ensures variance == RunningVar(old(variance), lastVar, momentum, S)
      ensures forall k :: 0 <= k < Kernels ==> variance[k] >= 0.0
    {
      RunningVarNonneg(variance, lastVar, momentum, S);
      mean := RunningMean(mean, lastMean, momentum);
      variance := RunningVar(variance, lastVar, momentum, S);
    }

    /**
     * The backward pass: the errors of the output, scaled by gamma, become
     * the errors of the input through the statistics of the last training
     * batch.  The layer is left unchanged; every channel of the result
     * sums to zero.
     */
    method BackwardBatch(ctx: SgdContext) returns (output: Tensor)
      requires Valid() && trained
      requires Shaped(ctx.errors, Kernels, W, H) && |ctx.errors| == |inputPre| && |ctx.input| == |inputPre|
      ensures output == Backward(ctx.errors, gamma, inputPre, invVar, W, H, |ctx.input| * W * H)
      ensures Shaped(output, Kernels, W, H) && |output| == |ctx.errors|
      ensures forall k :: 0 <= k < Kernels ==> ChannelSum(output, k) == 0.0
    {
      TrainedCache(this);
      var S := |ctx.input| * W * H;
      var dxhat := ScaleErrors(ctx.errors, gamma);
      ScaledErrorsShape(ctx.errors, gamma, W, H);
      var dxhatL := ChannelSums(dxhat, Kernels);
      var dxhatXhatL := ChannelSums(Products(dxhat, inputPre, Kernels, W, H), Kernels);
      output := GradientSlices(dxhat, inputPre, invVar, W, H, S, dxhatL, dxhatXhatL);
      forall k | 0 <= k < Kernels ensures ChannelSum(output, k) == 0.0 {
        BackwardSumsToZero(ctx.errors, gamma, inputPre, invVar, Kernels, W, H, k);
      }
    }

    /**
     * The parameter gradients: per channel, the sum of the normalized input
     * times the errors for gamma, and the sum of the errors for beta.
     */
    method ComputeGradients(ctx: SgdContext)
      requires Valid() && trained
      requires Shaped(ctx.errors, Kernels, W, H) && |ctx.errors| == |inputPre|
      modifies ctx`wGrad, ctx`bGrad
      ensures ctx.wGrad == GammaGrad(inputPre, ctx.errors, Kernels, W, H)
      ensures ctx.bGrad == BetaGrad(ctx.errors, Kernels)
    {
      TrainedCache(this);
      ctx.wGrad := GammaGrad(inputPre, ctx.errors, Kernels, W, H);
      ctx.bGrad := BetaGrad(ctx.errors, Kernels);
    }
  }

  /**
   * The buffers a training step hands to the layer: a batch of inputs,
   * outputs and errors, and the gradients of gamma and beta.
   */
  class SgdContext {
    var input: Tensor
    var output: Tensor
    var errors: Tensor
    var wGrad: seq<real>
    var bGrad: seq<real>

    /** Zero-filled buffers for batches of batchSize samples of the layer's shape. */
    constructor(layer: Layer, batchSize: nat)
      ensures input == Zeros(batchSize, layer.Kernels, layer.W, layer.H)
      ensures output == Zeros(batchSize, layer.Kernels, layer.W, layer.H)
      ensures errors == Zeros(batchSize, layer.Kernels, layer.W, layer.H)
      ensures wGrad == Fill(layer.Kernels, 0.0) && bGrad == Fill(layer.Kernels, 0.0)
    {
      var z := Zeros(batchSize, layer.Kernels, layer.W, layer.H);
      input, output, errors := z, z, z;
      wGrad, bGrad := Fill(layer.Kernels, 0.0), Fill(layer.Kernels, 0.0);
    }
  }

  /**
   * What the cache of a trained layer guarantees: it has the shape of the
   * batch, every channel of it sums to zero, the batch variances are
   * non-negative and the inverse standard deviations positive.
   */
  lemma TrainedCache(l: Layer)
    requires l.Valid() && l.trained
    ensures Shaped(l.inputPre, l.Kernels, l.W, l.H) && |l.inputPre| * l.W * l.H >= 2
    ensures forall k :: 0 <= k < l.Kernels ==>
      ChannelSum(l.inputPre, k) == 0.0 && l.lastVar[k] >= 0.0 && l.invVar[k] > 0.0
  {
    var x, K := l.lastInput, l.Kernels;
    var S := |x| * l.W * l.H;
    forall b, k | 0 <= b < |x| && 0 <= k < K ensures IsMatrix(l.inputPre[b][k], l.W, l.H) {
    }
    BatchVarsNonneg(x, l.lastMean, S);
    forall k | 0 <= k < K ensures ChannelSum(l.inputPre, k) == 0.0 {
      NormalizedSumsToZero(x, K, l.W, l.H, l.invVar, k);
    }
  }

  /** The input and output sizes count the elements of one sample. */
  lemma SampleSize(l: Layer, s: seq<Matrix>)
    requires |s| == l.Kernels && forall k :: 0 <= k < |s| ==> IsMatrix(s[k], l.W, l.H)
    ensures SampleElements(s) == l.InputSize() && SampleElements(s) == l.OutputSize()
  {
    SampleElementsShape(s, l.Kernels, l.W, l.H);
    Associate(l.Kernels, l.W, l.H);
  }

  lemma Associate(a: nat, b: nat, c: nat)
    ensures a * (b * c) == a * b * c
  {
  }

  /**
   * What a training pass on x leaves in the statistics of the last batch
   * and in the cache, for K channels of W x H slices.
   */
  ghost predicate AfterTraining(x: Tensor, K: nat, W: nat, H: nat, rsqrt: InvSqrt,
                                lastMean: seq<real>, lastVar: seq<real>, invVar: seq<real>, inputPre: Tensor)
  {
    Shaped(x, K, W, H) && |x| * W * H >= 2 &&
    lastMean == BatchMeans(x, K, |x| * W * H) &&
    lastVar == BatchVars(x, lastMean, |x| * W * H) &&
    (forall k :: 0 <= k < |lastVar| ==> lastVar[k] >= 0.0) &&
    invVar == InvStd(lastVar, rsqrt) &&
    inputPre == Normalized(x, lastMean, invVar)
  }

  /**
   * The statistics of a training batch x and its normalized, scaled and
   * shifted form, the normalization written over the cache tensor pre.
   */
  method BatchStatistics(x: Tensor, K: nat, W: nat, H: nat, rsqrt: InvSqrt, pre: Tensor, gamma: seq<real>, beta: seq<real>)
    returns (lastMean: seq<real>, lastVar: seq<real>, invVar: seq<real>, xhat: Tensor, output: Tensor)
    requires Shaped(x, K, W, H) && |x| * W * H >= 2 && |gamma| == K && |beta| == K
    requires |pre| == |x| && forall b :: 0 <= b < |pre| ==> |pre[b]| == K
    ensures AfterTraining(x, K, W, H, rsqrt, lastMean, lastVar, invVar, xhat)
    ensures output == Affine(xhat, gamma, beta)
  {
    var S := |x| * W * H;
    lastMean := BatchMeans(x, K, S);
    var sums := SquaredDeviationSums(x, lastMean);
    lastVar := Averages(sums, S);
    assert lastVar == BatchVars(x, lastMean, S);
    BatchVarsNonneg(x, lastMean, S);
    invVar := InvStd(lastVar, rsqrt);
    xhat, output := NormalizeBatch(pre, x, lastMean, invVar, gamma, beta);
  }

  /**
   * Per channel k, the sum over the batch of the squared deviations from
   * mu(k), taken one slice at a time into a vector that starts at zero.
   */
  method SquaredDeviationSums(input: Tensor, mu: seq<real>) returns (sums: seq<real>)
    requires forall b :: 0 <= b < |input| ==> |input[b]| == |mu|
    ensures |sums| == |mu|
    ensures forall k :: 0 <= k < |mu| ==> sums[k] == ChannelSum(SquaredDeviations(input, mu), k)
  {
    var B, K := |input|, |mu|;
    sums := Fill(K, 0.0);
    ghost var sq := SquaredDeviations(input, mu);
    var b := 0;
    while b < B
      invariant 0 <= b <= B && |sums| == K
      invariant forall j :: 0 <= j < K ==> sums[j] == ChannelSum(sq[..b], j)
    {
      var k := 0;
      while k < K
        invariant 0 <= k <= K && |sums| == K
        invariant forall j :: 0 <= j < k ==> sums[j] == ChannelSum(sq[..b + 1], j)
        invariant forall j :: k <= j < K ==> sums[j] == ChannelSum(sq[..b], j)
      {
        ChannelSumSnoc(sq, k, b);
        sums := sums[k := sums[k] + MatSum(SquaredDeviation(input[b][k], mu[k]))];
        k := k + 1;
      }
      b := b + 1;
    }
    assert sq[..B] == sq;
  }

  /** Every sum divided by the element count S. */
  function Averages(sums: seq<real>, S: nat): (r: seq<real>)
    requires S > 0
    ensures |r| == |sums|
  {
    seq(|sums|, k requires 0 <= k < |sums| => sums[k] / (S as real))
  }

  /**
   * Every slice of the batch normalized into the cache in place, then
   * scaled and shifted into the output.
   */
  method NormalizeBatch(pre: Tensor, input: Tensor, mu: seq<real>, iv: seq<real>, gamma: seq<real>, beta: seq<real>)
    returns (xhat: Tensor, output: Tensor)
    requires |iv| == |mu| && |gamma| == |mu| && |beta| == |mu|
    requires forall b :: 0 <= b < |input| ==> |input[b]| == |mu|
    requires |pre| == |input| && forall b :: 0 <= b < |pre| ==> |pre[b]| == |mu|
    ensures xhat == Normalized(input, mu, iv)
    ensures output == Affine(xhat, gamma, beta)
  {
    var B, K := |input|, |mu|;
    ghost var spec := Normalized(input, mu, iv);
    ghost var out := Affine(spec, gamma, beta);
    xhat := pre;
    output := [];
    var b := 0;
    while b < B
      invariant 0 <= b <= B
      invariant |xhat| == B && forall i :: 0 <= i < B ==> |xhat[i]| == K
      invariant forall i :: 0 <= i < b ==> xhat[i] == spec[i]
      invariant output == out[..b]
    {
      var sample: seq<Matrix> := [];
      var k := 0;
      while k < K
        invariant 0 <= k <= K
        invariant |xhat| == B && forall i :: 0 <= i < B ==> |xhat[i]| == K
        invariant forall i :: 0 <= i < b ==> xhat[i] == spec[i]
        invariant forall j :: 0 <= j < k ==> xhat[b][j] == spec[b][j]
        invariant sample == out[b][..k]
      {
        xhat := xhat[b := xhat[b][k := Normalize(input[b][k], mu[k], iv[k])]];
        sample := sample + [ScaleShift(xhat[b][k], gamma[k], beta[k])];
        k := k + 1;
      }
      assert xhat[b] == spec[b];
      assert sample == out[b];
      assert out[..b + 1] == out[..b] + [out[b]];
      output := output + [sample];
      b := b + 1;
    }
    assert xhat == spec;
    assert out[..B] == out;
  }

  /** errors * gamma(k), slice by slice, into a temporary of the errors' shape. */
  method ScaleErrors(errors: Tensor, gamma: seq<real>) returns (dxhat: Tensor)
    requires forall b :: 0 <= b < |errors| ==> |errors[b]| == |gamma|
    ensures dxhat == ScaledErrors(errors, gamma)
  {
    var B, K := |errors|, |gamma|;
    ghost var spec := ScaledErrors(errors, gamma);
    dxhat := errors;
    var b := 0;
    while b < B
      invariant 0 <= b <= B
      invariant |dxhat| == B && forall i :: 0 <= i < B ==> |dxhat[i]| == K
      invariant forall i :: 0 <= i < b ==> dxhat[i] == spec[i]
    {
      var k := 0;
      while k < K
        invariant 0 <= k <= K
        invariant |dxhat| == B && forall i :: 0 <= i < B ==> |dxhat[i]| == K
        invariant forall i :: 0 <= i < b ==> dxhat[i] == spec[i]
        invariant forall j :: 0 <= j < k ==> dxhat[b][j] == spec[b][j]
      {
        dxhat := dxhat[b := dxhat[b][k := Scale(errors[b][k], gamma[k])]];
        k := k + 1;
      }
      assert dxhat[b] == spec[b];
      b := b + 1;
    }
    assert dxhat == spec;
  }

  /**
   * The input gradient slice by slice, given the scaled errors, the cached
   * normalized input and the two channel reductions.
   */
  method GradientSlices(dxhat: Tensor, xhat: Tensor, invVar: seq<real>, W: nat, H: nat, S: nat,
                        dxhatL: seq<real>, dxhatXhatL: seq<real>) returns (output: Tensor)
    requires Shaped(dxhat, |invVar|, W, H) && Shaped(xhat, |invVar|, W, H) && |xhat| == |dxhat| && S > 0
    requires dxhatL == ChannelSums(dxhat, |invVar|)
    requires dxhatXhatL == ChannelSums(Products(dxhat, xhat, |invVar|, W, H), |invVar|)
    ensures output == InputGradient(dxhat, xhat, invVar, W, H, S)
  {
    var B, K := |dxhat|, |invVar|;
    ghost var spec := InputGradient(dxhat, xhat, invVar, W, H, S);
    output := [];
    var b := 0;
    while b < B
      invariant 0 <= b <= B
      invariant output == spec[..b]
    {
      var sample: seq<Matrix> := [];
      var k := 0;
      while k < K
        invariant 0 <= k <= K
        invariant sample == spec[b][..k]
      {
        sample := sample + [GradSlice(dxhat[b][k], xhat[b][k], invVar[k], S as real, dxhatL[k], dxhatXhatL[k])];
        k := k + 1;
      }
      assert sample == spec[b];
      assert spec[..b + 1] == spec[..b] + [spec[b]];
      output := output + [sample];
      b := b + 1;
    }
    assert spec[..B] == spec;
  }
}
