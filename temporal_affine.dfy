/**
  The temporal affine layer: one affine map `x[n][t].dot(w) + b` applied at
  every (n, t) position, computed through a reshape to N*T rows and back.
*/
module TemporalAffine {
  import opened LinAlg
  import opened Reshape

  /** The three gradients returned by the backward pass. */
  datatype AffineGrads = AffineGrads(dx: Tensor3, dw: Mat, db: Vec)

  /** `x.reshape(N * T, D).dot(w).reshape(N, T, M)`: the forward pass
      without its bias, linear in `x` and in `w`. */
  function LinearPart(x: Tensor3, w: Mat, t: nat, m: nat): (y: Tensor3)
    requires IsTensor3(x, |x|, t, |w|) && IsMat(w, |w|, m)
    ensures IsTensor3(y, |x|, t, m)
  {
    ConcatIsMat(x, t, |w|);
    UnflattenIsTensor(MatMul(Concat(x), w, m), |x|, t, m);
    Unflatten(MatMul(Concat(x), w, m), |x|, t)
  }

  /** `temporal_affine_forward(x, w, b)`; `T` is `x.shape[1]`. */
  function Forward(x: Tensor3, w: Mat, b: Vec, t: nat): (out: Tensor3)
    requires IsTensor3(x, |x|, t, |w|) && IsMat(w, |w|, |b|)
    ensures IsTensor3(out, |x|, t, |b|)
  {
    AddBias3(LinearPart(x, w, t, |b|), b)
  }

  /** `temporal_affine_backward(dout, cache)`; the cache holds `x`, `w` and `b`
      (the cached `out` is never read). */
  function Backward(dout: Tensor3, x: Tensor3, w: Mat, b: Vec, t: nat): (g: AffineGrads)
    requires IsTensor3(x, |x|, t, |w|) && IsMat(w, |w|, |b|)
    requires IsTensor3(dout, |x|, t, |b|)
    ensures IsTensor3(g.dx, |x|, t, |w|) && IsMat(g.dw, |w|, |b|) && |g.db| == |b|
  {
    var n, d, m := |x|, |w|, |b|;
    ConcatIsMat(x, t, d);
    ConcatIsMat(dout, t, m);
    var flatOut := Concat(dout);
    var dxFlat := MatMul(flatOut, Transpose(w, m), d);
    UnflattenIsTensor(dxFlat, n, t, d);
    AffineGrads(
      Unflatten(dxFlat, n, t),
      Transpose(MatMul(Transpose(flatOut, m), Concat(x), d), d),
      SumTime(dout, m))
  }

  /** `Σ_n Σ_t x[n][t].T.dot(g[n][t])`: the weight gradient summed position by position. */
  function SumOuters3(x: Tensor3, g: Tensor3, t: nat, d: nat, m: nat): (r: Mat)
    requires IsTensor3(x, |x|, t, d) && IsTensor3(g, |x|, t, m)
    ensures IsMat(r, d, m)
    decreases |x|
  {
    if |x| == 0 then ZeroMat(d, m)
    else MatAdd(SumOuters3(x[..|x| - 1], g[..|g| - 1], t, d, m), SumOuters(x[|x| - 1], g[|g| - 1], d, m))
  }

  // ---------------------------------------------------------------------
  // The reshape preserves positions

  /** Each block of a row-wise product, reshaped back, is the product of the block. */
  lemma {:induction false} LinearPartBlocks(x: Tensor3, w: Mat, t: nat, m: nat)
    requires IsTensor3(x, |x|, t, |w|) && IsMat(w, |w|, m)
    ensures LinearPart(x, w, t, m) == seq(|x|, n requires 0 <= n < |x| => MatMul(x[n], w, m))
  {
    var ys := seq(|x|, n requires 0 <= n < |x| => MatMul(x[n], w, m));
    MatMulConcat(x, w, m);
    UnflattenConcat(ys, t);
  }

  /** The output at (n, t) is `x[n][t].dot(w) + b`, entry by entry. */
  lemma {:induction false} ForwardAt(x: Tensor3, w: Mat, b: Vec, t: nat, n: nat, s: nat)
    requires IsTensor3(x, |x|, t, |w|) && IsMat(w, |w|, |b|)
    requires n < |x| && s < t
    ensures Forward(x, w, b, t)[n][s] == VecAdd(VecMat(x[n][s], w, |b|), b)
    ensures forall k :: 0 <= k < |b| ==>
              Forward(x, w, b, t)[n][s][k] == Dot(x[n][s], Col(w, k)) + b[k]
  {
    LinearPartBlocks(x, w, t, |b|);
  }

  /** The input gradient at (n, t) is `dout[n][t].dot(w.T)`. */
  lemma {:induction false} BackwardDxAt(dout: Tensor3, x: Tensor3, w: Mat, b: Vec, t: nat, n: nat, s: nat)
    requires IsTensor3(x, |x|, t, |w|) && IsMat(w, |w|, |b|)
    requires IsTensor3(dout, |x|, t, |b|)
    requires n < |x| && s < t
    ensures Backward(dout, x, w, b, t).dx[n][s] == MatVec(w, dout[n][s])
    ensures forall d :: 0 <= d < |w| ==>
              Backward(dout, x, w, b, t).dx[n][s][d] == Dot(w[d], dout[n][s])
  {
    var m := |b|;
    var wt := Transpose(w, m);
    var ys := seq(|dout|, i requires 0 <= i < |dout| => MatMul(dout[i], wt, |w|));
    MatMulConcat(dout, wt, |w|);
    UnflattenConcat(ys, t);
    VecMatTranspose(dout[n][s], w);
  }

  // ---------------------------------------------------------------------
  // The weight gradient is the sum over positions

  lemma {:induction false} SumOutersAppend(a: Mat, b: Mat, c: Mat, e: Mat, d: nat, m: nat)
    requires IsMat(a, |a|, d) && IsMat(b, |b|, d) && IsMat(c, |a|, m) && IsMat(e, |b|, m)
    ensures SumOuters(a + b, c + e, d, m) == MatAdd(SumOuters(a, c, d, m), SumOuters(b, e, d, m))
    decreases |b|
  {
    if |b| == 0 {
      assert a + b == a && c + e == c;
      MatAddZero(SumOuters(a, c, d, m), m);
    } else {
      var k := |b| - 1;
      assert (a + b)[..|a| + k] == a + b[..k];
      assert (c + e)[..|c| + k] == c + e[..k];
      SumOutersAppend(a, b[..k], c, e[..k], d, m);
      MatAddAssoc(SumOuters(a, c, d, m), SumOuters(b[..k], e[..k], d, m), Outer(b[k], e[k]));
    }
  }

  lemma {:induction false} SumOutersConcat(x: Tensor3, g: Tensor3, t: nat, d: nat, m: nat)
    requires IsTensor3(x, |x|, t, d) && IsTensor3(g, |x|, t, m)
    ensures IsMat(Concat(x), |x| * t, d) && IsMat(Concat(g), |x| * t, m)
    ensures SumOuters(Concat(x), Concat(g), d, m) == SumOuters3(x, g, t, d, m)
    decreases |x|
  {
    ConcatIsMat(x, t, d);
    ConcatIsMat(g, t, m);
    if |x| > 0 {
      var k := |x| - 1;
      SumOutersConcat(x[..k], g[..k], t, d, m);
      SumOutersAppend(Concat(x[..k]), x[k], Concat(g[..k]), g[k], d, m);
    }
  }

  /** `dw` is the sum over every (n, t) of `x[n][t].T.dot(dout[n][t])`. */
  lemma {:induction false} BackwardDwIsSumOverPositions(dout: Tensor3, x: Tensor3, w: Mat, b: Vec, t: nat)
    requires IsTensor3(x, |x|, t, |w|) && IsMat(w, |w|, |b|)
    requires IsTensor3(dout, |x|, t, |b|)
    ensures Backward(dout, x, w, b, t).dw == SumOuters3(x, dout, t, |w|, |b|)
  {
    var d, m := |w|, |b|;
    ConcatIsMat(x, t, d);
    ConcatIsMat(dout, t, m);
    TransposeOfProduct(Concat(dout), Concat(x), m, d);
    TransposeMulIsSumOuters(Concat(x), Concat(dout), d, m);
    SumOutersConcat(x, dout, t, d, m);
  }

  // ---------------------------------------------------------------------
  // The backward pass is the adjoint of the forward pass

  /** For every change `dX` of the input, `<dX.dot(w), dout> == <dX, dx>`. */
  lemma {:induction false} InputGradIsAdjoint(dout: Tensor3, x: Tensor3, w: Mat, b: Vec, t: nat, delta: Tensor3)
    requires IsTensor3(x, |x|, t, |w|) && IsMat(w, |w|, |b|)
    requires IsTensor3(dout, |x|, t, |b|) && IsTensor3(delta, |x|, t, |w|)
    ensures Inner3(LinearPart(delta, w, t, |b|), dout) == Inner3(delta, Backward(dout, x, w, b, t).dx)
  {
    var n, d, m := |x|, |w|, |b|;
    ConcatIsMat(delta, t, d);
    ConcatIsMat(dout, t, m);
    var p := MatMul(Concat(delta), w, m);
    var q := MatMul(Concat(dout), Transpose(w, m), d);
    var dx := Backward(dout, x, w, b, t).dx;
    assert dx == Unflatten(q, n, t);
    calc {
      Inner3(LinearPart(delta, w, t, m), dout);
      { Inner3Concat(LinearPart(delta, w, t, m), dout); }
      Inner(Concat(Unflatten(p, n, t)), Concat(dout));
      { ConcatUnflatten(p, n, t); }
      Inner(p, Concat(dout));
      { InputAdjoint(Concat(delta), w, m, Concat(dout)); }
      Inner(Concat(delta), q);
      { ConcatUnflatten(q, n, t); }
      Inner(Concat(delta), Concat(dx));
      { Inner3Concat(delta, dx); }
      Inner3(delta, dx);
    }
  }

  /** For every change `dW` of the weights, `<x.dot(dW), dout> == <dW, dw>`. */
  lemma {:induction false} WeightGradIsAdjoint(dout: Tensor3, x: Tensor3, w: Mat, b: Vec, t: nat, delta: Mat)
    requires IsTensor3(x, |x|, t, |w|) && IsMat(w, |w|, |b|)
    requires IsTensor3(dout, |x|, t, |b|) && IsMat(delta, |w|, |b|)
    ensures Inner3(LinearPart(x, delta, t, |b|), dout) == Inner(delta, Backward(dout, x, w, b, t).dw)
  {
    var n, d, m := |x|, |w|, |b|;
    ConcatIsMat(x, t, d);
    ConcatIsMat(dout, t, m);
    var p := MatMul(Concat(x), delta, m);
    calc {
      Inner3(LinearPart(x, delta, t, m), dout);
      { Inner3Concat(LinearPart(x, delta, t, m), dout); }
      Inner(Concat(Unflatten(p, n, t)), Concat(dout));
      { ConcatUnflatten(p, n, t); }
      Inner(p, Concat(dout));
      { WeightAdjoint(Concat(x), delta, m, Concat(dout)); }
      Inner(delta, MatMul(Transpose(Concat(x), d), Concat(dout), m));
      { TransposeOfProduct(Concat(dout), Concat(x), m, d); }
      Inner(delta, Backward(dout, x, w, b, t).dw);
    }
  }

  /** Broadcasting over every (n, t) is the adjoint of summing over them. */
  lemma {:induction false} SumTimeAdjoint(dout: Tensor3, t: nat, delta: Vec)
    requires IsTensor3(dout, |dout|, t, |delta|)
    ensures Inner3(Broadcast3(delta, |dout|, t), dout) == Dot(delta, SumTime(dout, |delta|))
    decreases |dout|
  {
    var m := |delta|;
    if |dout| == 0 {
      DotZerosRight(delta);
    } else {
      var k := |dout| - 1;
      assert Broadcast3(delta, |dout|, t)[..k] == Broadcast3(delta, k, t);
      SumTimeAdjoint(dout[..k], t, delta);
      BiasAdjoint(delta, dout[k]);
      DotAddRight(delta, SumTime(dout[..k], m), SumRows(dout[k], m));
    }
  }

  /** For every change `dB` of the bias, `<dB broadcast, dout> == <dB, db>`. */
  lemma {:induction false} BiasGradIsAdjoint(dout: Tensor3, x: Tensor3, w: Mat, b: Vec, t: nat, delta: Vec)
    requires IsTensor3(x, |x|, t, |w|) && IsMat(w, |w|, |b|)
    requires IsTensor3(dout, |x|, t, |b|) && |delta| == |b|
    ensures Inner3(Broadcast3(delta, |x|, t), dout) == Dot(delta, Backward(dout, x, w, b, t).db)
  {
    SumTimeAdjoint(dout, t, delta);
  }
}
