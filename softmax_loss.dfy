/**
  The masked temporal softmax loss: a cross-entropy at every (n, t) position
  of a (N, T, V) score tensor, summed over time, averaged over the batch,
  with the positions whose mask is false left out of both the loss and the
  gradient. The row-wise softmax of the scores is taken as given: `probs`
  is an arbitrary (N*T, V) matrix, and `log` an arbitrary function.
*/
module SoftmaxLoss {
  import opened LinAlg
  import opened Reshape

  /** `mask_flat` as a number: 1 where the position counts, 0 where not. */
  function Indicator(b: bool): (r: real)
    ensures b ==> r == 1.0
    ensures !b ==> r == 0.0
  {
    if b then 1.0 else 0.0
  }

  /** `y` is (N, T) and every target is a valid column of `probs`. */
  predicate LabelsShaped(y: seq<seq<nat>>, bigN: nat, t: nat, v: nat) {
    |y| == bigN && Uniform(y, t) && forall n, k :: 0 <= n < bigN && 0 <= k < t ==> y[n][k] < v
  }

  /** `mask` is (N, T). */
  predicate MaskShaped(mask: seq<seq<bool>>, bigN: nat, t: nat) {
    |mask| == bigN && Uniform(mask, t)
  }

  /** One row of `probs` per flattened position, and a target and a mask bit for each. */
  predicate FlatShaped(probs: Mat, yFlat: seq<nat>, mFlat: seq<bool>, v: nat) {
    && IsMat(probs, |probs|, v) && |yFlat| == |probs| && |mFlat| == |probs|
    && forall i :: 0 <= i < |yFlat| ==> yFlat[i] < v
  }

  /** `np.sum(mask_flat * np.log(probs[np.arange(N * T), y_flat]))`. */
  function MaskedLogSum(probs: Mat, yFlat: seq<nat>, mFlat: seq<bool>, v: nat, log: real -> real): real
    requires FlatShaped(probs, yFlat, mFlat, v)
    decreases |probs|
  {
    if |probs| == 0 then 0.0
    else
      var i := |probs| - 1;
      MaskedLogSum(probs[..i], yFlat[..i], mFlat[..i], v, log) + Indicator(mFlat[i]) * log(probs[i][yFlat[i]])
  }

  /** Row `i` of `dx_flat`: `probs[i]` with 1 taken off at the target, divided
      by N, times the mask bit. */
  function GradRow(p: Vec, target: nat, m: bool, bigN: nat): (r: Vec)
    requires target < |p| && bigN > 0
    ensures |r| == |p|
  {
    seq(|p|, j requires 0 <= j < |p| => (p[j] - Indicator(j == target)) / bigN as real * Indicator(m))
  }

  /** `dx_flat`, one `GradRow` per flattened position. */
  function GradFlat(probs: Mat, yFlat: seq<nat>, mFlat: seq<bool>, v: nat, bigN: nat): (dx: Mat)
    requires FlatShaped(probs, yFlat, mFlat, v) && bigN > 0
    ensures IsMat(dx, |probs|, v)
  {
    seq(|probs|, i requires 0 <= i < |probs| => GradRow(probs[i], yFlat[i], mFlat[i], bigN))
  }

  /** Every flattened target is below V. */
  lemma {:induction false} ConcatLabels(y: seq<seq<nat>>, t: nat, v: nat)
    requires Uniform(y, t) && forall n, k :: 0 <= n < |y| && 0 <= k < t ==> y[n][k] < v
    ensures |Concat<nat>(y)| == |y| * t
    ensures forall i :: 0 <= i < |y| * t ==> Concat<nat>(y)[i] < v
    decreases |y|
  {
    ConcatLength<nat>(y, t);
    if |y| > 0 {
      var n := |y| - 1;
      ConcatLabels(y[..n], t, v);
      assert Concat<nat>(y) == Concat<nat>(y[..n]) + y[n];
      assert forall k :: 0 <= k < |y[n]| ==> y[n][k] < v;
    }
  }

  datatype LossResult = LossResult(loss: real, dx: Tensor3)

  /** `temporal_softmax_loss(x, y, mask)`, where `probs` stands for the
      row-wise softmax of `x.reshape(N * T, V)`. */
  function TemporalSoftmaxLoss(probs: Mat, y: seq<seq<nat>>, mask: seq<seq<bool>>,
                               bigN: nat, t: nat, v: nat, log: real -> real): (r: LossResult)
    requires bigN > 0 && LabelsShaped(y, bigN, t, v) && MaskShaped(mask, bigN, t)
    requires IsMat(probs, bigN * t, v)
    ensures IsTensor3(r.dx, bigN, t, v)
  {
    ConcatLabels(y, t, v);
    ConcatLength(mask, t);
    var yFlat, mFlat := Concat<nat>(y), Concat(mask);
    assert |yFlat| == |probs| && |mFlat| == |probs|;
    assert forall i :: 0 <= i < |yFlat| ==> yFlat[i] < v;
    var dxFlat := GradFlat(probs, yFlat, mFlat, v, bigN);
    UnflattenIsTensor(dxFlat, bigN, t, v);
    LossResult(-MaskedLogSum(probs, yFlat, mFlat, v, log) / bigN as real, Unflatten(dxFlat, bigN, t))
  }

  // ---------------------------------------------------------------------
  // Positions and the reshape

  /** Row `i` of N*T flattened rows is position `(i / T, i % T)`. */
  lemma {:induction false} FlatIndex(i: nat, bigN: nat, t: nat) returns (n: nat, k: nat)
    requires i < bigN * t
    ensures n < bigN && k < t && i == n * t + k
  {
    n, k := i / t, i % t;
    if n >= bigN {
      assert n * t >= bigN * t by {
        MulMono(bigN, n, t);
      }
    }
  }

  lemma {:induction false} MulMono(a: nat, b: nat, t: nat)
    requires a <= b
    ensures a * t <= b * t
  {
    assert b * t == a * t + (b - a) * t;
  }

  /** Item `k` of block `n` of the reshape of N*T rows is row `n*T + k`. */
  lemma {:induction false} UnflattenAt<X>(rows: seq<X>, bigN: nat, t: nat, n: nat, k: nat)
    requires |rows| == bigN * t && n < bigN && k < t
    ensures n * t + k < |rows|
    ensures Unflatten(rows, bigN, t)[n][k] == rows[n * t + k]
  {
    ConcatUnflatten(rows, bigN, t);
    ConcatAt(Unflatten(rows, bigN, t), t, n, k);
  }

  // ---------------------------------------------------------------------
  // What the masking promises

  /** The gradient at position (n, k), entry `j`: zero where the mask is off,
      else the probability at that position and entry, less 1 at the target,
      divided by N. */
  lemma {:induction false} GradientAt(probs: Mat, y: seq<seq<nat>>, mask: seq<seq<bool>>,
                                      bigN: nat, t: nat, v: nat, log: real -> real,
                                      n: nat, k: nat, j: nat)
    requires bigN > 0 && LabelsShaped(y, bigN, t, v) && MaskShaped(mask, bigN, t)
    requires IsMat(probs, bigN * t, v)
    requires n < bigN && k < t && j < v
    ensures IsTensor3(Unflatten(probs, bigN, t), bigN, t, v)
    ensures TemporalSoftmaxLoss(probs, y, mask, bigN, t, v, log).dx[n][k][j]
         == if !mask[n][k] then 0.0
            else if j == y[n][k] then (Unflatten(probs, bigN, t)[n][k][j] - 1.0) / bigN as real
            else Unflatten(probs, bigN, t)[n][k][j] / bigN as real
  {
    UnflattenIsTensor(probs, bigN, t, v);
    ConcatLabels(y, t, v);
    ConcatLength(mask, t);
    var dxFlat := GradFlat(probs, Concat<nat>(y), Concat(mask), v, bigN);
    assert TemporalSoftmaxLoss(probs, y, mask, bigN, t, v, log).dx == Unflatten(dxFlat, bigN, t);
    var i := FlatRowOf(probs, dxFlat, bigN, t, n, k);
    ConcatAt<nat>(y, t, n, k);
    ConcatAt(mask, t, n, k);
    GradRowAt(probs[i], y[n][k], mask[n][k], bigN, j);
  }

  /** Entry `j` of a gradient row, case by case. */
  lemma {:induction false} GradRowAt(p: Vec, target: nat, m: bool, bigN: nat, j: nat)
    requires target < |p| && bigN > 0 && j < |p|
    ensures GradRow(p, target, m, bigN)[j]
         == if !m then 0.0 else if j == target then (p[j] - 1.0) / bigN as real else p[j] / bigN as real
  {
    var e := (p[j] - Indicator(j == target)) / bigN as real;
    assert GradRow(p, target, m, bigN)[j] == e * Indicator(m);
    if j != target {
      assert p[j] - Indicator(j == target) == p[j];
    }
  }

  /** Position (n, k) of the reshapes of two (N*T)-row matrices is the same row of both. */
  lemma {:induction false} FlatRowOf<X>(a: seq<X>, b: seq<X>, bigN: nat, t: nat, n: nat, k: nat) returns (i: nat)
    requires |a| == bigN * t && |b| == bigN * t && n < bigN && k < t
    ensures i == n * t + k && i < bigN * t
    ensures Unflatten(a, bigN, t)[n][k] == a[i] && Unflatten(b, bigN, t)[n][k] == b[i]
  {
    i := n * t + k;
    UnflattenAt(a, bigN, t, n, k);
    UnflattenAt(b, bigN, t, n, k);
  }

  /** A position whose mask is off gets an all-zero row in `dx`. */
  lemma {:induction false} MaskedRowIsZero(probs: Mat, y: seq<seq<nat>>, mask: seq<seq<bool>>,
                                           bigN: nat, t: nat, v: nat, log: real -> real,
                                           n: nat, k: nat)
    requires bigN > 0 && LabelsShaped(y, bigN, t, v) && MaskShaped(mask, bigN, t)
    requires IsMat(probs, bigN * t, v)
    requires n < bigN && k < t && !mask[n][k]
    ensures TemporalSoftmaxLoss(probs, y, mask, bigN, t, v, log).dx[n][k] == Zeros(v)
  {
    var dx := TemporalSoftmaxLoss(probs, y, mask, bigN, t, v, log).dx;
    forall j | 0 <= j < v
      ensures dx[n][k][j] == 0.0
    {
      GradientAt(probs, y, mask, bigN, t, v, log, n, k, j);
    }
  }

  /** The first `k` entries of a gradient row sum to the first `k`
      probabilities, less 1 if the target is among them, over N, times the mask bit. */
  lemma {:induction false} GradRowPrefixSum(p: Vec, target: nat, m: bool, bigN: nat, k: nat)
    requires target < |p| && bigN > 0 && k <= |p|
    ensures Sum(GradRow(p, target, m, bigN)[..k])
         == (Sum(p[..k]) - Indicator(target < k)) / bigN as real * Indicator(m)
    decreases k
  {
    if k > 0 {
      var r := GradRow(p, target, m, bigN);
      GradRowPrefixSum(p, target, m, bigN, k - 1);
      assert r[..k][..k - 1] == r[..k - 1];
      assert p[..k][..k - 1] == p[..k - 1];
      assert Indicator(target < k) == Indicator(target < k - 1) + Indicator(k - 1 == target);
    }
  }

  /** A gradient row sums to the mask bit times (row sum of `probs` less 1)
      over N: zero for a masked-off position, and zero for any position whose
      probabilities sum to 1. */
  lemma {:induction false} GradRowSum(p: Vec, target: nat, m: bool, bigN: nat)
    requires target < |p| && bigN > 0
    ensures Sum(GradRow(p, target, m, bigN)) == (Sum(p) - 1.0) / bigN as real * Indicator(m)
    ensures Sum(p) == 1.0 ==> Sum(GradRow(p, target, m, bigN)) == 0.0
  {
    var r := GradRow(p, target, m, bigN);
    GradRowPrefixSum(p, target, m, bigN, |p|);
    assert r[..|p|] == r && p[..|p|] == p;
  }

  /** The row of `dx` at position (n, k) sums to the mask bit times the
      row sum of the probabilities there less 1, over N: zero wherever the
      probabilities sum to 1. */
  lemma {:induction false} GradientRowSum(probs: Mat, y: seq<seq<nat>>, mask: seq<seq<bool>>,
                                          bigN: nat, t: nat, v: nat, log: real -> real, n: nat, k: nat)
    requires bigN > 0 && LabelsShaped(y, bigN, t, v) && MaskShaped(mask, bigN, t)
    requires IsMat(probs, bigN * t, v)
    requires n < bigN && k < t
    ensures IsTensor3(Unflatten(probs, bigN, t), bigN, t, v)
    ensures Sum(TemporalSoftmaxLoss(probs, y, mask, bigN, t, v, log).dx[n][k])
         == (Sum(Unflatten(probs, bigN, t)[n][k]) - 1.0) / bigN as real * Indicator(mask[n][k])
  {
    UnflattenIsTensor(probs, bigN, t, v);
    ConcatLabels(y, t, v);
    ConcatLength(mask, t);
    var dxFlat := GradFlat(probs, Concat<nat>(y), Concat(mask), v, bigN);
    assert TemporalSoftmaxLoss(probs, y, mask, bigN, t, v, log).dx == Unflatten(dxFlat, bigN, t);
    var i := FlatRowOf(probs, dxFlat, bigN, t, n, k);
    ConcatAt<nat>(y, t, n, k);
    ConcatAt(mask, t, n, k);
    GradRowSum(probs[i], y[n][k], mask[n][k], bigN);
  }

  /** Rows whose mask is off do not enter the masked sum: two inputs that
      agree on the probability at the target of every counted row have the same sum. */
  lemma {:induction false} MaskedLogSumIgnoresMasked(probs: Mat, yFlat: seq<nat>, probs': Mat, yFlat': seq<nat>,
                                                     mFlat: seq<bool>, v: nat, log: real -> real)
    requires FlatShaped(probs, yFlat, mFlat, v) && FlatShaped(probs', yFlat', mFlat, v)
    requires forall i :: 0 <= i < |mFlat| && mFlat[i] ==> probs'[i][yFlat'[i]] == probs[i][yFlat[i]]
    ensures MaskedLogSum(probs', yFlat', mFlat, v, log) == MaskedLogSum(probs, yFlat, mFlat, v, log)
    decreases |probs|
  {
    if |probs| > 0 {
      var i := |probs| - 1;
      MaskedLogSumIgnoresMasked(probs[..i], yFlat[..i], probs'[..i], yFlat'[..i], mFlat[..i], v, log);
    }
  }

  /** Rows whose mask is off do not enter `dx_flat` either: two inputs that
      agree on every counted row and its target have the same `dx_flat`. */
  lemma {:induction false} GradFlatIgnoresMasked(probs: Mat, yFlat: seq<nat>, probs': Mat, yFlat': seq<nat>,
                                                 mFlat: seq<bool>, v: nat, bigN: nat)
    requires FlatShaped(probs, yFlat, mFlat, v) && FlatShaped(probs', yFlat', mFlat, v) && bigN > 0
    requires forall i :: 0 <= i < |mFlat| && mFlat[i] ==> probs'[i] == probs[i] && yFlat'[i] == yFlat[i]
    ensures GradFlat(probs', yFlat', mFlat, v, bigN) == GradFlat(probs, yFlat, mFlat, v, bigN)
  {
    var g, g' := GradFlat(probs, yFlat, mFlat, v, bigN), GradFlat(probs', yFlat', mFlat, v, bigN);
    forall i | 0 <= i < |g|
      ensures g'[i] == g[i]
    {
      if !mFlat[i] {
        forall j | 0 <= j < v
          ensures g'[i][j] == g[i][j]
        {
          GradRowAt(probs[i], yFlat[i], false, bigN, j);
          GradRowAt(probs'[i], yFlat'[i], false, bigN, j);
        }
      }
    }
  }

  /** A position-wise agreement of the inputs on the counted positions is a
      row-wise agreement of their flattened forms on the counted rows. */
  lemma {:induction false} FlatAgreement(probs: Mat, y: seq<seq<nat>>, probs': Mat, y': seq<seq<nat>>,
                                         mask: seq<seq<bool>>, bigN: nat, t: nat, v: nat)
    requires MaskShaped(mask, bigN, t) && LabelsShaped(y, bigN, t, v) && LabelsShaped(y', bigN, t, v)
    requires IsMat(probs, bigN * t, v) && IsMat(probs', bigN * t, v)
    requires forall n, k :: 0 <= n < bigN && 0 <= k < t && mask[n][k]
               ==> Unflatten(probs', bigN, t)[n][k] == Unflatten(probs, bigN, t)[n][k] && y'[n][k] == y[n][k]
    ensures |Concat(mask)| == bigN * t && |Concat<nat>(y)| == bigN * t && |Concat<nat>(y')| == bigN * t
    ensures forall i :: 0 <= i < bigN * t && Concat(mask)[i]
              ==> probs'[i] == probs[i] && Concat<nat>(y')[i] == Concat<nat>(y)[i]
  {
    ConcatLength(mask, t);
    ConcatLength<nat>(y, t);
    ConcatLength<nat>(y', t);
    forall i | 0 <= i < bigN * t && Concat(mask)[i]
      ensures probs'[i] == probs[i] && Concat<nat>(y')[i] == Concat<nat>(y)[i]
    {
      var n, k := FlatIndex(i, bigN, t);
      var i' := FlatRowOf(probs, probs', bigN, t, n, k);
      ConcatAt(mask, t, n, k);
      ConcatAt<nat>(y, t, n, k);
      ConcatAt<nat>(y', t, n, k);
    }
  }

  /** Positions whose mask is off contribute nothing: changing their
      probabilities or their targets leaves the loss and `dx` unchanged. */
  lemma {:induction false} MaskedPositionsIgnored(probs: Mat, y: seq<seq<nat>>, probs': Mat, y': seq<seq<nat>>,
                                                  mask: seq<seq<bool>>, bigN: nat, t: nat, v: nat,
                                                  log: real -> real)
    requires bigN > 0 && MaskShaped(mask, bigN, t)
    requires LabelsShaped(y, bigN, t, v) && LabelsShaped(y', bigN, t, v)
    requires IsMat(probs, bigN * t, v) && IsMat(probs', bigN * t, v)
    requires forall n, k :: 0 <= n < bigN && 0 <= k < t && mask[n][k]
               ==> Unflatten(probs', bigN, t)[n][k] == Unflatten(probs, bigN, t)[n][k] && y'[n][k] == y[n][k]
    ensures TemporalSoftmaxLoss(probs', y', mask, bigN, t, v, log)
         == TemporalSoftmaxLoss(probs, y, mask, bigN, t, v, log)
  {
    ConcatLabels(y, t, v);
    ConcatLabels(y', t, v);
    FlatAgreement(probs, y, probs', y', mask, bigN, t, v);
    var yFlat, yFlat', mFlat := Concat<nat>(y), Concat<nat>(y'), Concat(mask);
    MaskedLogSumIgnoresMasked(probs, yFlat, probs', yFlat', mFlat, v, log);
    GradFlatIgnoresMasked(probs, yFlat, probs', yFlat', mFlat, v, bigN);
  }

  /** With every position masked off, the loss is zero and so is `dx`. */
  lemma {:induction false} AllMaskedOff(probs: Mat, y: seq<seq<nat>>, mask: seq<seq<bool>>,
                                        bigN: nat, t: nat, v: nat, log: real -> real)
    requires bigN > 0 && LabelsShaped(y, bigN, t, v) && MaskShaped(mask, bigN, t)
    requires IsMat(probs, bigN * t, v)
    requires forall n, k :: 0 <= n < bigN && 0 <= k < t ==> !mask[n][k]
    ensures TemporalSoftmaxLoss(probs, y, mask, bigN, t, v, log).loss == 0.0
    ensures forall n, k :: 0 <= n < bigN && 0 <= k < t ==> TemporalSoftmaxLoss(probs, y, mask, bigN, t, v, log).dx[n][k] == Zeros(v)
  {
    ConcatLabels(y, t, v);
    ConcatLength(mask, t);
    var yFlat, mFlat := Concat<nat>(y), Concat(mask);
    forall i | 0 <= i < bigN * t
      ensures !mFlat[i]
    {
      var n, k := FlatIndex(i, bigN, t);
      ConcatAt(mask, t, n, k);
    }
    MaskedLogSumOff(probs, yFlat, mFlat, v, log);
    forall n, k | 0 <= n < bigN && 0 <= k < t
      ensures TemporalSoftmaxLoss(probs, y, mask, bigN, t, v, log).dx[n][k] == Zeros(v)
    {
      MaskedRowIsZero(probs, y, mask, bigN, t, v, log, n, k);
    }
  }

  /** The masked sum over rows that are all masked off is zero. */
  lemma {:induction false} MaskedLogSumOff(probs: Mat, yFlat: seq<nat>, mFlat: seq<bool>, v: nat, log: real -> real)
    requires FlatShaped(probs, yFlat, mFlat, v)
    requires forall i :: 0 <= i < |mFlat| ==> !mFlat[i]
    ensures MaskedLogSum(probs, yFlat, mFlat, v, log) == 0.0
    decreases |probs|
  {
    if |probs| > 0 {
      var i := |probs| - 1;
      MaskedLogSumOff(probs[..i], yFlat[..i], mFlat[..i], v, log);
    }
  }
}
