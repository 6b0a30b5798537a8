/**
 * Dense real-valued tensors as nested sequences, and the reductions the
 * batch-normalization layer takes over them.
 *
 * A 4-D activation tensor is indexed t[b][k][w][h]: batch element b,
 * channel (kernel) k, and a W x H spatial slice.  The tensor library's
 * element-wise expressions and its per-channel reductions are modelled here
 * by plain functions; floating-point rounding is not modelled (values are
 * exact reals).
 */
module Tensors {

  /** A W x H spatial slice. */
  type Matrix = seq<seq<real>>

  /** A B x K x W x H activation tensor. */
  type Tensor = seq<seq<Matrix>>

  predicate IsMatrix(m: Matrix, rows: nat, cols: nat) {
    |m| == rows && forall w :: 0 <= w < rows ==> |m[w]| == cols
  }

  predicate IsTensor(t: Tensor, B: nat, K: nat, W: nat, H: nat) {
    |t| == B &&
    forall b :: 0 <= b < B ==> |t[b]| == K && forall k :: 0 <= k < K ==> IsMatrix(t[b][k], W, H)
  }

  /** Every batch element of t has a W x H slice for channel k. */
  predicate HasChannel(t: Tensor, k: nat, W: nat, H: nat) {
    forall b :: 0 <= b < |t| ==> k < |t[b]| && |t[b][k]| == W && forall w :: 0 <= w < W ==> |t[b][k][w]| == H
  }

  /** A zero-filled tensor of the given shape, as a fresh allocation holds. */
  function Zeros(B: nat, K: nat, W: nat, H: nat): (t: Tensor)
    ensures IsTensor(t, B, K, W, H)
    ensures forall b, k, w, h :: 0 <= b < B && 0 <= k < K && 0 <= w < W && 0 <= h < H ==> t[b][k][w][h] == 0.0
  {
    seq(B, _ => seq(K, _ => seq(W, _ => seq(H, _ => 0.0))))
  }

  /** A per-channel vector holding the same value everywhere. */
  function Fill(K: nat, v: real): (r: seq<real>)
    ensures |r| == K && forall k :: 0 <= k < K ==> r[k] == v
  {
    seq(K, _ => v)
  }

  // ---------------------------------------------------------------------
  // Reductions.
  // ---------------------------------------------------------------------

  /** Sum of a row. */
  function Sum(s: seq<real>): real {
    if |s| == 0 then 0.0 else Sum(s[..|s| - 1]) + s[|s| - 1]
  }

  /** The sums of the rows of a slice. */
  function RowSums(m: Matrix): (r: seq<real>)
    ensures |r| == |m|
  {
    seq(|m|, w requires 0 <= w < |m| => Sum(m[w]))
  }

  /** Sum of every element of a slice. */
  function MatSum(m: Matrix): real {
    Sum(RowSums(m))
  }

  /** The slice sums of channel k, one per batch element. */
  function SliceSums(t: Tensor, k: nat): (r: seq<real>)
    requires forall b :: 0 <= b < |t| ==> k < |t[b]|
    ensures |r| == |t|
  {
    seq(|t|, b requires 0 <= b < |t| => MatSum(t[b][k]))
  }

  /** Sum of channel k over the whole batch and the whole spatial extent. */
  function ChannelSum(t: Tensor, k: nat): real
    requires forall b :: 0 <= b < |t| ==> k < |t[b]|
  {
    Sum(SliceSums(t, k))
  }

  /** Adding one more batch element adds its slice sum to the channel sum. */
  lemma ChannelSumSnoc(t: Tensor, k: nat, n: nat)
    requires n < |t| && forall b :: 0 <= b < |t| ==> k < |t[b]|
    ensures ChannelSum(t[..n + 1], k) == ChannelSum(t[..n], k) + MatSum(t[n][k])
  {
    var s := SliceSums(t[..n + 1], k);
    assert s[..n] == SliceSums(t[..n], k) by {
      forall b | 0 <= b < n ensures s[..n][b] == SliceSums(t[..n], k)[b] {
      }
    }
  }

  // ---------------------------------------------------------------------
  // Linear combinations.  Every element-wise expression the layer reduces
  // is a combination p * u + q * v of at most two operand tensors, where a
  // constant term is carried by a tensor of ones.
  // ---------------------------------------------------------------------

  function Lin(u: seq<real>, v: seq<real>, p: real, q: real): (a: seq<real>)
    requires |v| == |u|
    ensures |a| == |u|
  {
    seq(|u|, i requires 0 <= i < |u| => p * u[i] + q * v[i])
  }

  function MatLin(u: Matrix, v: Matrix, p: real, q: real): (a: Matrix)
    requires |v| == |u| && forall w :: 0 <= w < |u| ==> |v[w]| == |u[w]|
    ensures |a| == |u|
  {
    seq(|u|, w requires 0 <= w < |u| => Lin(u[w], v[w], p, q))
  }

  /** A row of ones. */
  function Ones(n: nat): (r: seq<real>)
    ensures |r| == n
  {
    seq(n, _ => 1.0)
  }

  /** A rows x cols slice of ones. */
  function MatOnes(rows: nat, cols: nat): (m: Matrix)
    ensures IsMatrix(m, rows, cols)
  {
    seq(rows, _ => Ones(cols))
  }

  /** A tensor of ones. */
  function TensorOnes(B: nat, K: nat, W: nat, H: nat): (t: Tensor)
    ensures IsTensor(t, B, K, W, H)
  {
    seq(B, _ => seq(K, _ => MatOnes(W, H)))
  }

  lemma {:induction false} SumLin(u: seq<real>, v: seq<real>, p: real, q: real)
    requires |v| == |u|
    ensures Sum(Lin(u, v, p, q)) == p * Sum(u) + q * Sum(v)
  {
    if |u| > 0 {
      var n := |u| - 1;
      SumLin(u[..n], v[..n], p, q);
      LinPrefix(u, v, p, q, n);
      Combine(Sum(Lin(u[..n], v[..n], p, q)), p * u[n] + q * v[n], Sum(u[..n]), u[n], Sum(v[..n]), v[n], p, q);
    }
  }

  lemma LinPrefix(u: seq<real>, v: seq<real>, p: real, q: real, n: nat)
    requires |v| == |u| && n <= |u|
    ensures Lin(u, v, p, q)[..n] == Lin(u[..n], v[..n], p, q)
  {
    forall i | 0 <= i < n ensures Lin(u, v, p, q)[..n][i] == Lin(u[..n], v[..n], p, q)[i] {
    }
  }

  /** The inductive step of SumLin. */
  lemma Combine(a1: real, a2: real, u1: real, u2: real, v1: real, v2: real, p: real, q: real)
    requires a1 == p * u1 + q * v1
    requires a2 == p * u2 + q * v2
    ensures a1 + a2 == p * (u1 + u2) + q * (v1 + v2)
  {
  }

  lemma RowSumsLin(u: Matrix, v: Matrix, cols: nat, p: real, q: real)
    requires IsMatrix(u, |u|, cols) && IsMatrix(v, |u|, cols)
    ensures RowSums(MatLin(u, v, p, q)) == Lin(RowSums(u), RowSums(v), p, q)
  {
    forall w | 0 <= w < |u| ensures RowSums(MatLin(u, v, p, q))[w] == Lin(RowSums(u), RowSums(v), p, q)[w] {
      SumLin(u[w], v[w], p, q);
    }
  }

  lemma MatSumLin(u: Matrix, v: Matrix, cols: nat, p: real, q: real)
    requires IsMatrix(u, |u|, cols) && IsMatrix(v, |u|, cols)
    ensures MatSum(MatLin(u, v, p, q)) == p * MatSum(u) + q * MatSum(v)
  {
    RowSumsLin(u, v, cols, p, q);
    SumLin(RowSums(u), RowSums(v), p, q);
    assert MatSum(MatLin(u, v, p, q)) == Sum(Lin(RowSums(u), RowSums(v), p, q));
  }

  /**
   * Channel k of t is, slice by slice, the combination p * u + q * v of the
   * matching slices of u and v, all of them W x H.
   */
  predicate LinSlices(t: Tensor, u: Tensor, v: Tensor, k: nat, W: nat, H: nat, p: real, q: real) {
    |t| == |u| && |v| == |u| &&
    HasChannel(t, k, W, H) && HasChannel(u, k, W, H) && HasChannel(v, k, W, H) &&
    forall b :: 0 <= b < |u| ==> t[b][k] == MatLin(u[b][k], v[b][k], p, q)
  }

  /** Channel sums are linear. */
  lemma ChannelSumLin(t: Tensor, u: Tensor, v: Tensor, k: nat, W: nat, H: nat, p: real, q: real)
    requires LinSlices(t, u, v, k, W, H, p, q)
    ensures ChannelSum(t, k) == p * ChannelSum(u, k) + q * ChannelSum(v, k)
  {
    SliceSumsLin(t, u, v, k, W, H, p, q);
    SumOfLin(t, u, v, k, p, q);
  }

  lemma SliceSumsLin(t: Tensor, u: Tensor, v: Tensor, k: nat, W: nat, H: nat, p: real, q: real)
    requires LinSlices(t, u, v, k, W, H, p, q)
    ensures SliceSums(t, k) == Lin(SliceSums(u, k), SliceSums(v, k), p, q)
  {
    forall b | 0 <= b < |u| ensures SliceSums(t, k)[b] == Lin(SliceSums(u, k), SliceSums(v, k), p, q)[b] {
      MatSumLin(u[b][k], v[b][k], H, p, q);
    }
  }

  lemma SumOfLin(t: Tensor, u: Tensor, v: Tensor, k: nat, p: real, q: real)
    requires |t| == |u| && |v| == |u|
    requires forall b :: 0 <= b < |u| ==> k < |t[b]| && k < |u[b]| && k < |v[b]|
    requires SliceSums(t, k) == Lin(SliceSums(u, k), SliceSums(v, k), p, q)
    ensures ChannelSum(t, k) == p * ChannelSum(u, k) + q * ChannelSum(v, k)
  {
    SumsOfLin(ChannelSum(t, k), ChannelSum(u, k), ChannelSum(v, k), SliceSums(t, k), SliceSums(u, k), SliceSums(v, k), p, q);
  }

  /** p * a + q * b, named so that sums can be matched without the product. */
  function LinComb(a: real, b: real, p: real, q: real): real {
    p * a + q * b
  }

  lemma SumLinComb(u: seq<real>, v: seq<real>, p: real, q: real)
    requires |v| == |u|
    ensures Sum(Lin(u, v, p, q)) == LinComb(Sum(u), Sum(v), p, q)
  {
    SumLin(u, v, p, q);
  }

  /** SumLin for sums that are already named: ct, cu and cv are the sums of st, su and sv. */
  lemma SumsOfLin(ct: real, cu: real, cv: real, st: seq<real>, su: seq<real>, sv: seq<real>, p: real, q: real)
    requires |sv| == |su| && st == Lin(su, sv, p, q)
    requires ct == Sum(st) && cu == Sum(su) && cv == Sum(sv)
    ensures ct == LinComb(cu, cv, p, q)
  {
    SumLinComb(su, sv, p, q);
  }

  // ---------------------------------------------------------------------
  // Sums of ones count the elements.
  // ---------------------------------------------------------------------

  lemma {:induction false} SumFill(n: nat, c: real)
    ensures Sum(Fill(n, c)) == (n as real) * c
  {
    if n > 0 {
      SumFill(n - 1, c);
      assert Fill(n, c)[..n - 1] == Fill(n - 1, c);
    }
  }

  lemma MatSumOnes(rows: nat, cols: nat)
    ensures MatSum(MatOnes(rows, cols)) == (rows * cols) as real
  {
    SumFill(cols, 1.0);
    assert Ones(cols) == Fill(cols, 1.0);
    assert RowSums(MatOnes(rows, cols)) == Fill(rows, cols as real);
    SumFill(rows, cols as real);
  }

  /** A channel of the ones tensor sums to the number of its elements. */
  lemma ChannelSumOnes(B: nat, K: nat, W: nat, H: nat, k: nat)
    requires k < K
    ensures ChannelSum(TensorOnes(B, K, W, H), k) == (B * W * H) as real
  {
    MatSumOnes(W, H);
    assert SliceSums(TensorOnes(B, K, W, H), k) == Fill(B, (W * H) as real);
    SumFill(B, (W * H) as real);
    assert B * W * H == B * (W * H);
  }

  /** Channel k of t is, slice by slice, p * u + q. */
  predicate AffineSlices(t: Tensor, u: Tensor, k: nat, W: nat, H: nat, p: real, q: real) {
    |t| == |u| && HasChannel(t, k, W, H) && HasChannel(u, k, W, H) &&
    forall b :: 0 <= b < |u| ==> t[b][k] == MatLin(u[b][k], MatOnes(W, H), p, q)
  }

  /**
   * With a constant in place of v, p * u + q sums to p times the sum of u
   * plus q times the number of elements.
   */
  lemma ChannelSumAffine(t: Tensor, u: Tensor, k: nat, W: nat, H: nat, p: real, q: real)
    requires AffineSlices(t, u, k, W, H, p, q)
    ensures ChannelSum(t, k) == p * ChannelSum(u, k) + q * ((|u| * W * H) as real)
  {
    var ones := TensorOnes(|u|, k + 1, W, H);
    assert LinSlices(t, u, ones, k, W, H, p, q);
    ChannelSumLin(t, u, ones, k, W, H, p, q);
    ChannelSumOnes(|u|, k + 1, W, H, k);
  }

  /** p * u + q * v, slice by slice, for tensors of one shape. */
  function TensorLin(u: Tensor, v: Tensor, K: nat, W: nat, H: nat, p: real, q: real): (t: Tensor)
    requires IsTensor(u, |u|, K, W, H) && IsTensor(v, |u|, K, W, H)
    ensures IsTensor(t, |u|, K, W, H)
  {
    seq(|u|, b requires 0 <= b < |u| => seq(K, k requires 0 <= k < K => MatLin(u[b][k], v[b][k], p, q)))
  }

  lemma TensorLinSlices(u: Tensor, v: Tensor, K: nat, W: nat, H: nat, p: real, q: real, k: nat)
    requires IsTensor(u, |u|, K, W, H) && IsTensor(v, |u|, K, W, H) && k < K
    ensures LinSlices(TensorLin(u, v, K, W, H, p, q), u, v, k, W, H, p, q)
  {
  }

  /** p * u + q, slice by slice. */
  function TensorAffine(u: Tensor, K: nat, W: nat, H: nat, p: real, q: real): (t: Tensor)
    requires IsTensor(u, |u|, K, W, H)
    ensures IsTensor(t, |u|, K, W, H)
  {
    seq(|u|, b requires 0 <= b < |u| => seq(K, k requires 0 <= k < K => MatLin(u[b][k], MatOnes(W, H), p, q)))
  }

  lemma TensorAffineSlices(u: Tensor, K: nat, W: nat, H: nat, p: real, q: real, k: nat)
    requires IsTensor(u, |u|, K, W, H) && k < K
    ensures AffineSlices(TensorAffine(u, K, W, H, p, q), u, k, W, H, p, q)
  {
  }

  // ---------------------------------------------------------------------
  // Signs of sums.
  // ---------------------------------------------------------------------

  lemma {:induction false} SumNonneg(s: seq<real>)
    requires forall i :: 0 <= i < |s| ==> s[i] >= 0.0
    ensures Sum(s) >= 0.0
  {
    if |s| > 0 {
      SumNonneg(s[..|s| - 1]);
    }
  }

  lemma MatSumNonneg(m: Matrix)
    requires forall w, h :: 0 <= w < |m| && 0 <= h < |m[w]| ==> m[w][h] >= 0.0
    ensures MatSum(m) >= 0.0
  {
    forall w | 0 <= w < |m| ensures RowSums(m)[w] >= 0.0 {
      SumNonneg(m[w]);
    }
    SumNonneg(RowSums(m));
  }

  lemma ChannelSumNonneg(t: Tensor, k: nat)
    requires forall b :: 0 <= b < |t| ==> k < |t[b]|
    requires forall b, w, h :: 0 <= b < |t| && 0 <= w < |t[b][k]| && 0 <= h < |t[b][k][w]| ==> t[b][k][w][h] >= 0.0
    ensures ChannelSum(t, k) >= 0.0
  {
    forall b | 0 <= b < |t| ensures SliceSums(t, k)[b] >= 0.0 {
      MatSumNonneg(t[b][k]);
    }
    SumNonneg(SliceSums(t, k));
  }

  lemma {:induction false} SumZero(s: seq<real>)
    requires forall i :: 0 <= i < |s| ==> s[i] == 0.0
    ensures Sum(s) == 0.0
  {
    if |s| > 0 {
      SumZero(s[..|s| - 1]);
    }
  }

  lemma MatSumZero(m: Matrix)
    requires forall w, h :: 0 <= w < |m| && 0 <= h < |m[w]| ==> m[w][h] == 0.0
    ensures MatSum(m) == 0.0
  {
    forall w | 0 <= w < |m| ensures RowSums(m)[w] == 0.0 {
      SumZero(m[w]);
    }
    SumZero(RowSums(m));
  }

  /** A channel whose every element is zero sums to zero. */
  lemma ChannelSumZero(t: Tensor, k: nat)
    requires forall b :: 0 <= b < |t| ==> k < |t[b]|
    requires forall b, w, h :: 0 <= b < |t| && 0 <= w < |t[b][k]| && 0 <= h < |t[b][k][w]| ==> t[b][k][w][h] == 0.0
    ensures ChannelSum(t, k) == 0.0
  {
    forall b | 0 <= b < |t| ensures SliceSums(t, k)[b] == 0.0 {
      MatSumZero(t[b][k]);
    }
    SumZero(SliceSums(t, k));
  }

  // ---------------------------------------------------------------------
  // Element counts.
  // ---------------------------------------------------------------------

  /** Number of elements of one sample (K slices). */
  function SampleElements(s: seq<Matrix>): nat {
    if |s| == 0 then 0 else SampleElements(s[..|s| - 1]) + MatElements(s[|s| - 1])
  }

  /** Number of elements of one slice. */
  function MatElements(m: Matrix): nat {
    if |m| == 0 then 0 else MatElements(m[..|m| - 1]) + |m[|m| - 1]|
  }

  lemma MulStep(n: nat, c: nat)
    requires n > 0
    ensures (n - 1) * c + c == n * c
  {
  }

  lemma {:induction false} MatElementsShape(m: Matrix, W: nat, H: nat)
    requires IsMatrix(m, W, H)
    ensures MatElements(m) == W * H
  {
    if W > 0 {
      MatElementsShape(m[..W - 1], W - 1, H);
      MulStep(W, H);
    }
  }

  lemma {:induction false} SampleElementsShape(s: seq<Matrix>, K: nat, W: nat, H: nat)
    requires |s| == K && forall k :: 0 <= k < K ==> IsMatrix(s[k], W, H)
    ensures SampleElements(s) == K * (W * H)
  {
    if K > 0 {
      SampleElementsShape(s[..K - 1], K - 1, W, H);
      MatElementsShape(s[K - 1], W, H);
      MulStep(K, W * H);
    }
  }
}
