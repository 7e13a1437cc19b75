/**
  Row-major reshapes between a (N, T, ·) tensor and its (N*T, ·) matrix of
  rows, as `x.reshape(N * T, D)` and `y.reshape(N, T, M)` do them, and the
  tensor-level sums and inner products the temporal layers need.
*/
module Reshape {
  import opened LinAlg

  /** Every one of the `|x|` blocks has exactly `t` items. */
  predicate Uniform<X>(x: seq<seq<X>>, t: nat) {
    forall n :: 0 <= n < |x| ==> |x[n]| == t
  }

  /** `reshape(N * T, ...)`: the blocks laid end to end, block 0 first. */
  function Concat<X>(x: seq<seq<X>>): seq<X>
    decreases |x|
  {
    if |x| == 0 then [] else Concat(x[..|x| - 1]) + x[|x| - 1]
  }

  lemma {:induction false} MulStep(n: nat, bigN: nat, t: nat)
    requires n < bigN
    ensures 0 <= n * t && n * t + t <= bigN * t
  {
    var k := bigN - n - 1;
    assert bigN * t == (n + 1 + k) * t;
    assert (n + 1 + k) * t == n * t + t + k * t;
  }

  /** `reshape(N, T, ...)`: the last block is the last `T` items, and the
      blocks before it are the reshape of the items before those. */
  function Unflatten<X>(rows: seq<X>, bigN: nat, t: nat): (x: seq<seq<X>>)
    requires |rows| == bigN * t
    ensures |x| == bigN && Uniform(x, t)
    decreases bigN
  {
    if bigN == 0 then []
    else
      MulStep(bigN - 1, bigN, t);
      Unflatten(rows[..|rows| - t], bigN - 1, t) + [rows[|rows| - t..]]
  }

  lemma {:induction false} ConcatLength<X>(x: seq<seq<X>>, t: nat)
    requires Uniform(x, t)
    ensures |Concat(x)| == |x| * t
    decreases |x|
  {
    if |x| > 0 {
      ConcatLength(x[..|x| - 1], t);
    }
  }

  /** Item `t` of block `n` sits at row `n*T + t` of the flattened sequence. */
  lemma {:induction false} ConcatAt<X>(x: seq<seq<X>>, t: nat, n: nat, k: nat)
    requires Uniform(x, t) && n < |x| && k < t
    ensures |Concat(x)| == |x| * t && n * t + k < |x| * t
    ensures Concat(x)[n * t + k] == x[n][k]
    decreases |x|
  {
    ConcatLength(x, t);
    MulStep(n, |x|, t);
    var last := |x| - 1;
    ConcatLength(x[..last], t);
    if n < last {
      ConcatAt(x[..last], t, n, k);
    } else {
      assert n * t == |Concat(x[..last])|;
    }
  }

  /** Flattening and then reshaping back gives the original tensor. */
  lemma {:induction false} UnflattenConcat<X>(x: seq<seq<X>>, t: nat)
    requires Uniform(x, t)
    ensures |Concat(x)| == |x| * t
    ensures Unflatten(Concat(x), |x|, t) == x
    decreases |x|
  {
    ConcatLength(x, t);
    if |x| > 0 {
      var n := |x| - 1;
      var flat := Concat(x);
      assert flat == Concat(x[..n]) + x[n];
      assert flat[..|flat| - t] == Concat(x[..n]);
      assert flat[|flat| - t..] == x[n];
      UnflattenConcat(x[..n], t);
      assert x == x[..n] + [x[n]];
    }
  }

  /** Reshaping a flat sequence and flattening it again gives it back. */
  lemma {:induction false} ConcatUnflatten<X>(rows: seq<X>, bigN: nat, t: nat)
    requires |rows| == bigN * t
    ensures Concat(Unflatten(rows, bigN, t)) == rows
    decreases bigN
  {
    if bigN > 0 {
      MulStep(bigN - 1, bigN, t);
      var u := Unflatten(rows, bigN, t);
      var front := rows[..|rows| - t];
      assert u[..bigN - 1] == Unflatten(front, bigN - 1, t);
      ConcatUnflatten(front, bigN - 1, t);
      assert rows == front + rows[|rows| - t..];
    }
  }

  // ---------------------------------------------------------------------
  // Tensor-level operations

  /** Two tensors with the same shape everywhere. */
  predicate SameShape3(a: Tensor3, b: Tensor3) {
    |a| == |b| && forall n :: 0 <= n < |a| ==> SameShape(a[n], b[n])
  }

  /** The inner product summed over every (n, t, d) entry. */
  function Inner3(a: Tensor3, b: Tensor3): real
    requires SameShape3(a, b)
    decreases |a|
  {
    if |a| == 0 then 0.0
    else Inner3(a[..|a| - 1], b[..|b| - 1]) + Inner(a[|a| - 1], b[|b| - 1])
  }

  /** `y + b` with `b` broadcast along the last axis. */
  function AddBias3(y: Tensor3, b: Vec): (r: Tensor3)
    requires forall n :: 0 <= n < |y| ==> IsMat(y[n], |y[n]|, |b|)
    ensures |r| == |y| && forall n :: 0 <= n < |y| ==> IsMat(r[n], |y[n]|, |b|)
  {
    seq(|y|, n requires 0 <= n < |y| => AddBias(y[n], b))
  }

  /** `dout.sum(axis=(0, 1))` for a tensor whose last axis has `c` entries. */
  function SumTime(x: Tensor3, c: nat): (r: Vec)
    requires forall n :: 0 <= n < |x| ==> IsMat(x[n], |x[n]|, c)
    ensures |r| == c
    decreases |x|
  {
    if |x| == 0 then Zeros(c) else VecAdd(SumTime(x[..|x| - 1], c), SumRows(x[|x| - 1], c))
  }

  lemma {:induction false} InnerAppend(a: Mat, b: Mat, c: Mat, e: Mat)
    requires SameShape(a, c) && SameShape(b, e)
    ensures SameShape(a + b, c + e)
    ensures Inner(a + b, c + e) == Inner(a, c) + Inner(b, e)
    decreases |b|
  {
    if |b| > 0 {
      var n := |b| - 1;
      assert (a + b)[..|a| + n] == a + b[..n];
      assert (c + e)[..|c| + n] == c + e[..n];
      InnerAppend(a, b[..n], c, e[..n]);
    } else {
      assert a + b == a && c + e == c;
    }
  }

  /** The inner product of two tensors is that of their flattened forms. */
  lemma {:induction false} Inner3Concat(a: Tensor3, b: Tensor3)
    requires SameShape3(a, b)
    ensures SameShape(Concat(a), Concat(b))
    ensures Inner3(a, b) == Inner(Concat(a), Concat(b))
    decreases |a|
  {
    if |a| > 0 {
      var n := |a| - 1;
      Inner3Concat(a[..n], b[..n]);
      InnerAppend(Concat(a[..n]), a[n], Concat(b[..n]), b[n]);
    }
  }

  /** Flattening a (N, T, D) tensor gives N*T rows of width D. */
  lemma {:induction false} ConcatIsMat(x: Tensor3, t: nat, d: nat)
    requires IsTensor3(x, |x|, t, d)
    ensures Uniform(x, t) && IsMat(Concat(x), |x| * t, d)
    decreases |x|
  {
    ConcatLength(x, t);
    if |x| > 0 {
      ConcatIsMat(x[..|x| - 1], t, d);
    }
  }

  /** A row-by-row product commutes with flattening. */
  lemma {:induction false} MatMulConcat(x: Tensor3, w: Mat, c: nat)
    requires forall n :: 0 <= n < |x| ==> IsMat(x[n], |x[n]|, |w|)
    requires IsMat(w, |w|, c)
    ensures IsMat(Concat(x), |Concat(x)|, |w|)
    ensures MatMul(Concat(x), w, c)
         == Concat(seq(|x|, n requires 0 <= n < |x| => MatMul(x[n], w, c)))
    decreases |x|
  {
    var ys := seq(|x|, n requires 0 <= n < |x| => MatMul(x[n], w, c));
    if |x| > 0 {
      var k := |x| - 1;
      MatMulConcat(x[..k], w, c);
      assert ys[..k] == seq(k, n requires 0 <= n < k => MatMul(x[..k][n], w, c));
      var front := Concat(x[..k]);
      assert MatMul(front + x[k], w, c) == MatMul(front, w, c) + MatMul(x[k], w, c);
    }
  }

  /** The bias row broadcast to every (n, t) position. */
  function Broadcast3(b: Vec, bigN: nat, t: nat): (r: Tensor3)
    ensures IsTensor3(r, bigN, t, |b|)
  {
    seq(bigN, _ => Broadcast(b, t))
  }

  /** Reshaping N*T rows of width D gives a (N, T, D) tensor. */
  lemma {:induction false} UnflattenIsTensor(rows: Mat, bigN: nat, t: nat, d: nat)
    requires IsMat(rows, bigN * t, d)
    ensures IsTensor3(Unflatten(rows, bigN, t), bigN, t, d)
    decreases bigN
  {
    if bigN > 0 {
      MulStep(bigN - 1, bigN, t);
      UnflattenIsTensor(rows[..|rows| - t], bigN - 1, t, d);
    }
  }

  /** `x[:, s, :]`: the (N, D) slice of every sequence at time `s`. */
  function TimeSlice(x: Tensor3, s: nat): (m: Mat)
    requires forall n :: 0 <= n < |x| ==> s < |x[n]|
    ensures |m| == |x|
  {
    seq(|x|, n requires 0 <= n < |x| => x[n][s])
  }

  /** `h[:, s, :] = m`: the tensor with its time-`s` slice replaced. */
  function SetTimeSlice(h: Tensor3, s: nat, m: Mat): (r: Tensor3)
    requires |m| == |h| && forall n :: 0 <= n < |h| ==> s < |h[n]|
    ensures |r| == |h| && forall n :: 0 <= n < |h| ==> |r[n]| == |h[n]|
  {
    seq(|h|, n requires 0 <= n < |h| => h[n][s := m[n]])
  }

  lemma {:induction false} TimeSliceShape(x: Tensor3, bigN: nat, t: nat, d: nat, s: nat)
    requires IsTensor3(x, bigN, t, d) && s < t
    ensures IsMat(TimeSlice(x, s), bigN, d)
  {
  }

  /** Writing slice `s` with an (N, D) matrix keeps the shape of the tensor
      and changes slice `s` and no other. */
  lemma {:induction false} SetTimeSliceEffect(h: Tensor3, s: nat, m: Mat, bigN: nat, t: nat, d: nat)
    requires IsTensor3(h, bigN, t, d) && IsMat(m, bigN, d) && s < t
    ensures IsTensor3(SetTimeSlice(h, s, m), bigN, t, d)
    ensures TimeSlice(SetTimeSlice(h, s, m), s) == m
    ensures forall k :: 0 <= k < t && k != s ==> TimeSlice(SetTimeSlice(h, s, m), k) == TimeSlice(h, k)
  {
  }
}
