/**
  Exact linear algebra over `real` on nested sequences: the array operations
  (`dot`, `.T`, `sum(axis=0)`, elementwise `+`/`*`, broadcasting a bias) that
  the recurrent layers are written with, and the adjoint identities that make
  a hand-written backward pass the transpose of its forward pass.
*/
module LinAlg {

  type Vec = seq<real>
  type Mat = seq<Vec>
  type Tensor3 = seq<Mat>

  /** `m` has shape (r, c). */
  predicate IsMat(m: Mat, r: nat, c: nat) {
    |m| == r && forall i :: 0 <= i < r ==> |m[i]| == c
  }

  /** `x` has shape (a, b, c). */
  predicate IsTensor3(x: Tensor3, a: nat, b: nat, c: nat) {
    |x| == a && forall i :: 0 <= i < a ==> IsMat(x[i], b, c)
  }

  /** Two matrices with the same number of rows and the same row lengths. */
  predicate SameShape(a: Mat, b: Mat) {
    |a| == |b| && forall i :: 0 <= i < |a| ==> |a[i]| == |b[i]|
  }

  function Zeros(n: nat): (z: Vec)
    ensures |z| == n
  {
    seq(n, _ => 0.0)
  }

  function ZeroMat(r: nat, c: nat): Mat {
    seq(r, _ => Zeros(c))
  }

  function VecAdd(u: Vec, v: Vec): (r: Vec)
    requires |u| == |v|
    ensures |r| == |u|
  {
    seq(|u|, k requires 0 <= k < |u| => u[k] + v[k])
  }

  function Scale(a: real, v: Vec): Vec {
    seq(|v|, k requires 0 <= k < |v| => a * v[k])
  }

  /** Elementwise product `u * v`. */
  function Hadamard(u: Vec, v: Vec): (r: Vec)
    requires |u| == |v|
    ensures |r| == |u|
  {
    seq(|u|, k requires 0 <= k < |u| => u[k] * v[k])
  }

  function MatAdd(a: Mat, b: Mat): (r: Mat)
    requires SameShape(a, b)
    ensures SameShape(r, a)
  {
    seq(|a|, i requires 0 <= i < |a| => VecAdd(a[i], b[i]))
  }

  /** Elementwise product of two matrices of the same shape. */
  function MatHadamard(a: Mat, b: Mat): (r: Mat)
    requires SameShape(a, b)
    ensures SameShape(r, a)
  {
    seq(|a|, i requires 0 <= i < |a| => Hadamard(a[i], b[i]))
  }

  /** Sum of the entries of a vector. */
  function Sum(s: Vec): real
    decreases |s|
  {
    if |s| == 0 then 0.0 else Sum(s[..|s| - 1]) + s[|s| - 1]
  }

  function Dot(u: Vec, v: Vec): real
    requires |u| == |v|
    decreases |u|
  {
    if |u| == 0 then 0.0
    else Dot(u[..|u| - 1], v[..|v| - 1]) + u[|u| - 1] * v[|v| - 1]
  }

  /** Column `j` of `a`. */
  function Col(a: Mat, j: nat): Vec
    requires forall i :: 0 <= i < |a| ==> j < |a[i]|
  {
    seq(|a|, i requires 0 <= i < |a| => a[i][j])
  }

  /** `a.T` for a matrix with `c` columns. */
  function Transpose(a: Mat, c: nat): (t: Mat)
    requires IsMat(a, |a|, c)
    ensures IsMat(t, c, |a|)
  {
    seq(c, j requires 0 <= j < c => Col(a, j))
  }

  /** The row vector `u` times the matrix `w`, which has `c` columns. */
  function VecMat(u: Vec, w: Mat, c: nat): (r: Vec)
    requires |u| == |w| && IsMat(w, |w|, c)
    ensures |r| == c
  {
    seq(c, j requires 0 <= j < c => Dot(u, Col(w, j)))
  }

  /** The matrix `w` times the column vector `g`. */
  function MatVec(w: Mat, g: Vec): (r: Vec)
    requires IsMat(w, |w|, |g|)
    ensures |r| == |w|
  {
    seq(|w|, d requires 0 <= d < |w| => Dot(w[d], g))
  }

  /** `a.dot(b)` where `b` has `c` columns. */
  function MatMul(a: Mat, b: Mat, c: nat): (r: Mat)
    requires IsMat(a, |a|, |b|) && IsMat(b, |b|, c)
    ensures IsMat(r, |a|, c)
  {
    seq(|a|, i requires 0 <= i < |a| => VecMat(a[i], b, c))
  }

  /** `a.sum(axis=0)` for a matrix with `c` columns. */
  function SumRows(a: Mat, c: nat): (r: Vec)
    requires IsMat(a, |a|, c)
    ensures |r| == c
    decreases |a|
  {
    if |a| == 0 then Zeros(c) else VecAdd(SumRows(a[..|a| - 1], c), a[|a| - 1])
  }

  /** The Frobenius inner product, the sum of `a * b` over every entry. */
  function Inner(a: Mat, b: Mat): real
    requires SameShape(a, b)
    decreases |a|
  {
    if |a| == 0 then 0.0
    else Inner(a[..|a| - 1], b[..|b| - 1]) + Dot(a[|a| - 1], b[|b| - 1])
  }

  /** The outer product `x.T.dot(g)` of two row vectors. */
  function Outer(x: Vec, g: Vec): (r: Mat)
    ensures IsMat(r, |x|, |g|)
  {
    seq(|x|, d requires 0 <= d < |x| => Scale(x[d], g))
  }

  /** `a + b` for a bias row `b` broadcast over the rows of `a`. */
  function AddBias(a: Mat, b: Vec): (r: Mat)
    requires IsMat(a, |a|, |b|)
    ensures IsMat(r, |a|, |b|)
  {
    seq(|a|, i requires 0 <= i < |a| => VecAdd(a[i], b))
  }

  /** The bias row `b` repeated over `r` rows. */
  function Broadcast(b: Vec, r: nat): (m: Mat)
    ensures IsMat(m, r, |b|)
  {
    seq(r, _ => b)
  }

  /** `f` applied to every entry. */
  function MapMat(f: real -> real, a: Mat): (r: Mat)
    ensures SameShape(r, a)
  {
    seq(|a|, i requires 0 <= i < |a| => seq(|a[i]|, j requires 0 <= j < |a[i]| => f(a[i][j])))
  }

  /** The sum of every entry of a matrix. */
  function MatSum(m: Mat): real
    decreases |m|
  {
    if |m| == 0 then 0.0 else MatSum(m[..|m| - 1]) + Sum(m[|m| - 1])
  }

  // ---------------------------------------------------------------------
  // Bilinearity of Dot and Inner

  lemma {:induction false} DotComm(u: Vec, v: Vec)
    requires |u| == |v|
    ensures Dot(u, v) == Dot(v, u)
    decreases |u|
  {
    if |u| > 0 {
      DotComm(u[..|u| - 1], v[..|v| - 1]);
    }
  }

  lemma {:induction false} DotAddLeft(u: Vec, v: Vec, w: Vec)
    requires |u| == |v| == |w|
    ensures Dot(VecAdd(u, v), w) == Dot(u, w) + Dot(v, w)
    decreases |u|
  {
    if |u| > 0 {
      var n := |u| - 1;
      assert VecAdd(u, v)[..n] == VecAdd(u[..n], v[..n]);
      DotAddLeft(u[..n], v[..n], w[..n]);
    }
  }

  lemma {:induction false} DotAddRight(w: Vec, u: Vec, v: Vec)
    requires |u| == |v| == |w|
    ensures Dot(w, VecAdd(u, v)) == Dot(w, u) + Dot(w, v)
  {
    DotComm(w, VecAdd(u, v));
    DotComm(w, u);
    DotComm(w, v);
    DotAddLeft(u, v, w);
  }

  lemma {:induction false} DotScaleLeft(a: real, u: Vec, w: Vec)
    requires |u| == |w|
    ensures Dot(Scale(a, u), w) == a * Dot(u, w)
    decreases |u|
  {
    if |u| > 0 {
      var n := |u| - 1;
      assert Scale(a, u)[..n] == Scale(a, u[..n]) by {
        forall k | 0 <= k < n ensures Scale(a, u)[..n][k] == Scale(a, u[..n])[k] { }
      }
      DotScaleLeft(a, u[..n], w[..n]);
    }
  }

  lemma {:induction false} DotScaleRight(a: real, w: Vec, u: Vec)
    requires |u| == |w|
    ensures Dot(w, Scale(a, u)) == a * Dot(w, u)
  {
    calc {
      Dot(w, Scale(a, u));
      { DotComm(w, Scale(a, u)); }
      Dot(Scale(a, u), w);
      { DotScaleLeft(a, u, w); }
      a * Dot(u, w);
      { DotComm(w, u); }
      a * Dot(w, u);
    }
  }

  lemma {:induction false} DotZerosLeft(w: Vec)
    ensures Dot(Zeros(|w|), w) == 0.0
    decreases |w|
  {
    if |w| > 0 {
      var n := |w| - 1;
      assert Zeros(|w|)[..n] == Zeros(n);
      DotZerosLeft(w[..n]);
    }
  }

  lemma {:induction false} DotZerosRight(w: Vec)
    ensures Dot(w, Zeros(|w|)) == 0.0
  {
    DotComm(w, Zeros(|w|));
    DotZerosLeft(w);
  }

  lemma {:induction false} InnerAddRight(w: Mat, a: Mat, b: Mat)
    requires SameShape(w, a) && SameShape(a, b)
    ensures Inner(w, MatAdd(a, b)) == Inner(w, a) + Inner(w, b)
    decreases |w|
  {
    if |w| > 0 {
      var n := |w| - 1;
      assert MatAdd(a, b)[..n] == MatAdd(a[..n], b[..n]);
      InnerAddRight(w[..n], a[..n], b[..n]);
      DotAddRight(w[n], a[n], b[n]);
    }
  }

  lemma {:induction false} InnerZeroRight(w: Mat, c: nat)
    requires IsMat(w, |w|, c)
    ensures Inner(w, ZeroMat(|w|, c)) == 0.0
    decreases |w|
  {
    if |w| > 0 {
      var n := |w| - 1;
      assert ZeroMat(|w|, c)[..n] == ZeroMat(n, c);
      InnerZeroRight(w[..n], c);
      DotZerosRight(w[n]);
    }
  }

  lemma {:induction false} InnerComm(a: Mat, b: Mat)
    requires SameShape(a, b)
    ensures Inner(a, b) == Inner(b, a)
    decreases |a|
  {
    if |a| > 0 {
      InnerComm(a[..|a| - 1], b[..|b| - 1]);
      DotComm(a[|a| - 1], b[|b| - 1]);
    }
  }

  lemma {:induction false} InnerAddLeft(a: Mat, b: Mat, g: Mat)
    requires SameShape(a, b) && SameShape(b, g)
    ensures Inner(MatAdd(a, b), g) == Inner(a, g) + Inner(b, g)
  {
    InnerComm(MatAdd(a, b), g);
    InnerAddRight(g, a, b);
    InnerComm(a, g);
    InnerComm(b, g);
  }

  // ---------------------------------------------------------------------
  // Products

  /** `VecMat(u, w)` is the combination of the rows of `w` with weights `u`;
      peeling off the last row. */
  lemma {:induction false} VecMatSnoc(u: Vec, w: Mat, c: nat)
    requires |u| == |w| > 0 && IsMat(w, |w|, c)
    ensures VecMat(u, w, c)
         == VecAdd(VecMat(u[..|u| - 1], w[..|w| - 1], c), Scale(u[|u| - 1], w[|w| - 1]))
  {
    var n := |u| - 1;
    forall j | 0 <= j < c
      ensures VecMat(u, w, c)[j]
           == VecAdd(VecMat(u[..n], w[..n], c), Scale(u[n], w[n]))[j]
    {
      assert Col(w, j)[..n] == Col(w[..n], j);
    }
  }

  /** The bilinear form `u · w · g` can be evaluated from either side. */
  lemma {:induction false} VecMatAdjoint(u: Vec, w: Mat, g: Vec)
    requires |u| == |w| && IsMat(w, |w|, |g|)
    ensures Dot(VecMat(u, w, |g|), g) == Dot(u, MatVec(w, g))
    decreases |u|
  {
    var c := |g|;
    if |u| == 0 {
      assert VecMat(u, w, c) == Zeros(c);
      DotZerosLeft(g);
    } else {
      var n := |u| - 1;
      VecMatSnoc(u, w, c);
      DotAddLeft(VecMat(u[..n], w[..n], c), Scale(u[n], w[n]), g);
      DotScaleLeft(u[n], w[n], g);
      VecMatAdjoint(u[..n], w[..n], g);
      assert MatVec(w, g)[..n] == MatVec(w[..n], g);
    }
  }

  /** Multiplying by `w.T` on the right is the same as `w` times a column. */
  lemma {:induction false} VecMatTranspose(g: Vec, w: Mat)
    requires IsMat(w, |w|, |g|)
    ensures VecMat(g, Transpose(w, |g|), |w|) == MatVec(w, g)
  {
    var t := Transpose(w, |g|);
    forall d | 0 <= d < |w|
      ensures VecMat(g, t, |w|)[d] == MatVec(w, g)[d]
    {
      assert Col(t, d) == w[d];
      DotComm(g, w[d]);
    }
  }

  /** `(x.T).dot(g)` gains one outer product per row of `x` and `g`. */
  lemma {:induction false} TransposeMulSnoc(x: Mat, g: Mat, d: nat, c: nat)
    requires |x| == |g| > 0 && IsMat(x, |x|, d) && IsMat(g, |g|, c)
    ensures MatMul(Transpose(x, d), g, c)
         == MatAdd(MatMul(Transpose(x[..|x| - 1], d), g[..|g| - 1], c), Outer(x[|x| - 1], g[|g| - 1]))
  {
    var n := |x| - 1;
    var lhs := MatMul(Transpose(x, d), g, c);
    var rhs := MatAdd(MatMul(Transpose(x[..n], d), g[..n], c), Outer(x[n], g[n]));
    forall k | 0 <= k < d
      ensures lhs[k] == rhs[k]
    {
      assert Col(x, k)[..n] == Col(x[..n], k);
      VecMatSnoc(Col(x, k), g, c);
    }
  }

  lemma {:induction false} InnerOuter(w: Mat, x: Vec, g: Vec)
    requires |w| == |x| && IsMat(w, |w|, |g|)
    ensures Inner(w, Outer(x, g)) == Dot(x, MatVec(w, g))
    decreases |x|
  {
    if |x| > 0 {
      var n := |x| - 1;
      assert Outer(x, g)[..n] == Outer(x[..n], g);
      assert MatVec(w, g)[..n] == MatVec(w[..n], g);
      InnerOuter(w[..n], x[..n], g);
      DotScaleRight(x[n], w[n], g);
    }
  }

  // ---------------------------------------------------------------------
  // The three adjoint identities of an affine layer `x.dot(w) + b`

  /** Gradient with respect to the input: `<x.dot(w), g> == <x, g.dot(w.T)>`. */
  lemma {:induction false} InputAdjoint(x: Mat, w: Mat, c: nat, g: Mat)
    requires IsMat(x, |x|, |w|) && IsMat(w, |w|, c) && IsMat(g, |x|, c)
    ensures Inner(MatMul(x, w, c), g) == Inner(x, MatMul(g, Transpose(w, c), |w|))
    decreases |x|
  {
    if |x| > 0 {
      var n := |x| - 1;
      assert MatMul(x, w, c)[..n] == MatMul(x[..n], w, c);
      assert MatMul(g, Transpose(w, c), |w|)[..n] == MatMul(g[..n], Transpose(w, c), |w|);
      InputAdjoint(x[..n], w, c, g[..n]);
      VecMatAdjoint(x[n], w, g[n]);
      VecMatTranspose(g[n], w);
    }
  }

  /** Gradient with respect to the weights: `<x.dot(w), g> == <w, x.T.dot(g)>`. */
  lemma {:induction false} WeightAdjoint(x: Mat, w: Mat, c: nat, g: Mat)
    requires IsMat(x, |x|, |w|) && IsMat(w, |w|, c) && IsMat(g, |x|, c)
    ensures Inner(MatMul(x, w, c), g) == Inner(w, MatMul(Transpose(x, |w|), g, c))
    decreases |x|
  {
    var d := |w|;
    if |x| == 0 {
      forall k | 0 <= k < d
        ensures MatMul(Transpose(x, d), g, c)[k] == ZeroMat(d, c)[k]
      {
        assert Col(x, k) == [];
      }
      assert MatMul(Transpose(x, d), g, c) == ZeroMat(d, c);
      InnerZeroRight(w, c);
    } else {
      var n := |x| - 1;
      assert MatMul(x, w, c)[..n] == MatMul(x[..n], w, c);
      WeightAdjoint(x[..n], w, c, g[..n]);
      TransposeMulSnoc(x, g, d, c);
      InnerAddRight(w, MatMul(Transpose(x[..n], d), g[..n], c), Outer(x[n], g[n]));
      InnerOuter(w, x[n], g[n]);
      VecMatAdjoint(x[n], w, g[n]);
    }
  }

  /** Gradient with respect to the bias: `<b broadcast, g> == <b, g.sum(axis=0)>`. */
  lemma {:induction false} BiasAdjoint(b: Vec, g: Mat)
    requires IsMat(g, |g|, |b|)
    ensures Inner(Broadcast(b, |g|), g) == Dot(b, SumRows(g, |b|))
    decreases |g|
  {
    if |g| == 0 {
      DotZerosRight(b);
    } else {
      var n := |g| - 1;
      assert Broadcast(b, |g|)[..n] == Broadcast(b, n);
      BiasAdjoint(b, g[..n]);
      DotAddRight(b, SumRows(g[..n], |b|), g[n]);
    }
  }

  // ---------------------------------------------------------------------
  // Sums of outer products

  /** `Σ_i xs[i].T.dot(gs[i])` for rows of width `d` and `c`. */
  function SumOuters(xs: Mat, gs: Mat, d: nat, c: nat): (r: Mat)
    requires IsMat(xs, |xs|, d) && IsMat(gs, |xs|, c)
    ensures IsMat(r, d, c)
    decreases |xs|
  {
    if |xs| == 0 then ZeroMat(d, c)
    else MatAdd(SumOuters(xs[..|xs| - 1], gs[..|gs| - 1], d, c), Outer(xs[|xs| - 1], gs[|gs| - 1]))
  }

  lemma {:induction false} VecAddAssoc(a: Vec, b: Vec, c: Vec)
    requires |a| == |b| == |c|
    ensures VecAdd(VecAdd(a, b), c) == VecAdd(a, VecAdd(b, c))
  {
  }

  lemma {:induction false} VecAddZero(a: Vec)
    ensures VecAdd(a, Zeros(|a|)) == a
  {
  }

  lemma {:induction false} MatAddAssoc(a: Mat, b: Mat, c: Mat)
    requires SameShape(a, b) && SameShape(b, c)
    ensures MatAdd(MatAdd(a, b), c) == MatAdd(a, MatAdd(b, c))
  {
    forall i | 0 <= i < |a|
      ensures MatAdd(MatAdd(a, b), c)[i] == MatAdd(a, MatAdd(b, c))[i]
    {
      assert VecAdd(VecAdd(a[i], b[i]), c[i]) == VecAdd(a[i], VecAdd(b[i], c[i]));
    }
  }

  lemma {:induction false} MatAddZero(a: Mat, c: nat)
    requires IsMat(a, |a|, c)
    ensures MatAdd(a, ZeroMat(|a|, c)) == a
  {
    forall i | 0 <= i < |a|
      ensures MatAdd(a, ZeroMat(|a|, c))[i] == a[i]
    {
      assert VecAdd(a[i], Zeros(c)) == a[i];
    }
  }

  /** `x.T.dot(g)` is the sum of the outer products of matching rows. */
  lemma {:induction false} TransposeMulIsSumOuters(x: Mat, g: Mat, d: nat, c: nat)
    requires |x| == |g| && IsMat(x, |x|, d) && IsMat(g, |g|, c)
    ensures MatMul(Transpose(x, d), g, c) == SumOuters(x, g, d, c)
    decreases |x|
  {
    if |x| == 0 {
      forall k | 0 <= k < d
        ensures MatMul(Transpose(x, d), g, c)[k] == ZeroMat(d, c)[k]
      {
        assert Col(x, k) == [];
      }
    } else {
      TransposeMulSnoc(x, g, d, c);
      TransposeMulIsSumOuters(x[..|x| - 1], g[..|g| - 1], d, c);
    }
  }

  /** `(g.T.dot(x)).T == x.T.dot(g)`. */
  lemma {:induction false} TransposeOfProduct(g: Mat, x: Mat, c: nat, d: nat)
    requires |x| == |g| && IsMat(x, |x|, d) && IsMat(g, |g|, c)
    ensures Transpose(MatMul(Transpose(g, c), x, d), d) == MatMul(Transpose(x, d), g, c)
  {
    var lhs := Transpose(MatMul(Transpose(g, c), x, d), d);
    var rhs := MatMul(Transpose(x, d), g, c);
    forall i | 0 <= i < d
      ensures lhs[i] == rhs[i]
    {
      forall k | 0 <= k < c
        ensures lhs[i][k] == rhs[i][k]
      {
        DotComm(Col(g, k), Col(x, i));
      }
    }
  }

  /** `a * m + b * m == (a + b) * m`, elementwise. */
  lemma {:induction false} HadamardDistrib(a: Mat, b: Mat, m: Mat)
    requires SameShape(a, b) && SameShape(b, m)
    ensures MatAdd(MatHadamard(a, m), MatHadamard(b, m)) == MatHadamard(MatAdd(a, b), m)
  {
    forall i | 0 <= i < |a|
      ensures MatAdd(MatHadamard(a, m), MatHadamard(b, m))[i] == MatHadamard(MatAdd(a, b), m)[i]
    {
      forall j | 0 <= j < |a[i]|
        ensures MatAdd(MatHadamard(a, m), MatHadamard(b, m))[i][j] == MatHadamard(MatAdd(a, b), m)[i][j]
      {
        assert (a[i][j] + b[i][j]) * m[i][j] == a[i][j] * m[i][j] + b[i][j] * m[i][j];
      }
    }
  }

  // ---------------------------------------------------------------------
  // Inner products as sums of entries

  lemma {:induction false} DotIsSum(u: Vec, v: Vec)
    requires |u| == |v|
    ensures Dot(u, v) == Sum(Hadamard(u, v))
    decreases |u|
  {
    if |u| > 0 {
      var n := |u| - 1;
      assert Hadamard(u, v)[..n] == Hadamard(u[..n], v[..n]) by {
        forall k | 0 <= k < n ensures Hadamard(u, v)[..n][k] == Hadamard(u[..n], v[..n])[k] { }
      }
      DotIsSum(u[..n], v[..n]);
    }
  }

  lemma {:induction false} InnerIsMatSum(a: Mat, b: Mat)
    requires SameShape(a, b)
    ensures Inner(a, b) == MatSum(MatHadamard(a, b))
    decreases |a|
  {
    if |a| > 0 {
      var n := |a| - 1;
      assert MatHadamard(a, b)[..n] == MatHadamard(a[..n], b[..n]);
      InnerIsMatSum(a[..n], b[..n]);
      DotIsSum(a[n], b[n]);
    }
  }

  lemma {:induction false} SumAdd(u: Vec, v: Vec)
    requires |u| == |v|
    ensures Sum(VecAdd(u, v)) == Sum(u) + Sum(v)
    decreases |u|
  {
    if |u| > 0 {
      var n := |u| - 1;
      assert VecAdd(u, v)[..n] == VecAdd(u[..n], v[..n]);
      SumAdd(u[..n], v[..n]);
    }
  }

  /** `a * b + c * e`. */
  function PairSum(a: real, b: real, c: real, e: real): real {
    a * b + c * e
  }

  /** `a1 * b1 + ... + a5 * b5`, added left to right. */
  function FiveSum(a1: real, b1: real, a2: real, b2: real, a3: real, b3: real,
                   a4: real, b4: real, a5: real, b5: real): real {
    a1 * b1 + a2 * b2 + a3 * b3 + a4 * b4 + a5 * b5
  }

  /** Two inner products added are the sum of the entries of the two
      elementwise products added. */
  lemma {:induction false} InnerPairIsMatSum(a: Mat, b: Mat, c: Mat, e: Mat)
    requires SameShape(a, b) && SameShape(c, e) && SameShape(a, c)
    ensures Inner(a, b) + Inner(c, e) == MatSum(MatAdd(MatHadamard(a, b), MatHadamard(c, e)))
  {
    InnerIsMatSum(a, b);
    InnerIsMatSum(c, e);
    MatSumAdd(MatHadamard(a, b), MatHadamard(c, e));
  }

  /** Five inner products added, as the sum of the entries of the five
      elementwise products added. */
  lemma {:induction false} InnerFiveIsMatSum(a1: Mat, b1: Mat, a2: Mat, b2: Mat, a3: Mat, b3: Mat,
                                             a4: Mat, b4: Mat, a5: Mat, b5: Mat)
    requires SameShape(a1, b1) && SameShape(a2, b2) && SameShape(a3, b3) && SameShape(a4, b4)
    requires SameShape(a5, b5) && SameShape(a1, a2) && SameShape(a1, a3) && SameShape(a1, a4)
    requires SameShape(a1, a5)
    ensures Inner(a1, b1) + Inner(a2, b2) + Inner(a3, b3) + Inner(a4, b4) + Inner(a5, b5)
         == MatSum(MatAdd(MatAdd(MatAdd(MatAdd(MatHadamard(a1, b1), MatHadamard(a2, b2)), MatHadamard(a3, b3)),
                                 MatHadamard(a4, b4)), MatHadamard(a5, b5)))
  {
    var s2 := MatAdd(MatHadamard(a1, b1), MatHadamard(a2, b2));
    var s3 := MatAdd(s2, MatHadamard(a3, b3));
    var s4 := MatAdd(s3, MatHadamard(a4, b4));
    InnerPairIsMatSum(a1, b1, a2, b2);
    InnerIsMatSum(a3, b3);
    InnerIsMatSum(a4, b4);
    InnerIsMatSum(a5, b5);
    MatSumAdd(s2, MatHadamard(a3, b3));
    MatSumAdd(s3, MatHadamard(a4, b4));
    MatSumAdd(s4, MatHadamard(a5, b5));
  }

  /** One entry of a sum of two elementwise products. */
  lemma {:induction false} HadamardPairAt(a: Mat, b: Mat, c: Mat, e: Mat, r: nat, j: nat)
    requires SameShape(a, b) && SameShape(c, e) && SameShape(a, c) && r < |a| && j < |a[r]|
    ensures MatAdd(MatHadamard(a, b), MatHadamard(c, e))[r][j] == PairSum(a[r][j], b[r][j], c[r][j], e[r][j])
  {
  }

  /** One entry of a sum of five elementwise products, added left to right. */
  lemma {:induction false} HadamardFiveAt(a1: Mat, b1: Mat, a2: Mat, b2: Mat, a3: Mat, b3: Mat,
                                          a4: Mat, b4: Mat, a5: Mat, b5: Mat, r: nat, j: nat)
    requires SameShape(a1, b1) && SameShape(a2, b2) && SameShape(a3, b3) && SameShape(a4, b4)
    requires SameShape(a5, b5) && SameShape(a1, a2) && SameShape(a1, a3) && SameShape(a1, a4)
    requires SameShape(a1, a5) && r < |a1| && j < |a1[r]|
    ensures MatAdd(MatAdd(MatAdd(MatAdd(MatHadamard(a1, b1), MatHadamard(a2, b2)), MatHadamard(a3, b3)),
                          MatHadamard(a4, b4)), MatHadamard(a5, b5))[r][j]
         == FiveSum(a1[r][j], b1[r][j], a2[r][j], b2[r][j], a3[r][j], b3[r][j], a4[r][j], b4[r][j],
                    a5[r][j], b5[r][j])
  {
    var s2 := MatAdd(MatHadamard(a1, b1), MatHadamard(a2, b2));
    var s3 := MatAdd(s2, MatHadamard(a3, b3));
    var s4 := MatAdd(s3, MatHadamard(a4, b4));
    assert s2[r][j] == a1[r][j] * b1[r][j] + a2[r][j] * b2[r][j];
    assert s3[r][j] == s2[r][j] + a3[r][j] * b3[r][j];
    assert s4[r][j] == s3[r][j] + a4[r][j] * b4[r][j];
  }

  lemma {:induction false} MatSumAdd(a: Mat, b: Mat)
    requires SameShape(a, b)
    ensures MatSum(MatAdd(a, b)) == MatSum(a) + MatSum(b)
    decreases |a|
  {
    if |a| > 0 {
      var n := |a| - 1;
      assert MatAdd(a, b)[..n] == MatAdd(a[..n], b[..n]);
      MatSumAdd(a[..n], b[..n]);
      SumAdd(a[n], b[n]);
    }
  }

  /** The dot product of two concatenations is the sum of the parts' dot products. */
  lemma {:induction false} DotAppend(u1: Vec, u2: Vec, v1: Vec, v2: Vec)
    requires |u1| == |v1| && |u2| == |v2|
    ensures Dot(u1 + u2, v1 + v2) == Dot(u1, v1) + Dot(u2, v2)
    decreases |u2|
  {
    if |u2| == 0 {
      assert u1 + u2 == u1 && v1 + v2 == v1;
    } else {
      var n := |u2| - 1;
      assert (u1 + u2)[..|u1| + n] == u1 + u2[..n];
      assert (v1 + v2)[..|v1| + n] == v1 + v2[..n];
      DotAppend(u1, u2[..n], v1, v2[..n]);
    }
  }

  // ---------------------------------------------------------------------
  // The affine map `x.dot(Wx) + h.dot(Wh) + b` of a recurrent step

  /** The shapes of one affine step with `c` output columns: `x` (N, D),
      `h` (N, H), `Wx` (D, c), `Wh` (H, c). */
  predicate AffineShapes(x: Mat, h: Mat, wx: Mat, wh: Mat, c: nat) {
    IsMat(x, |x|, |wx|) && IsMat(h, |x|, |wh|) && IsMat(wx, |wx|, c) && IsMat(wh, |wh|, c)
  }

  /** The first-order change of `x.dot(Wx) + h.dot(Wh) + b` when `x, h, Wx, Wh, b`
      change by `dX, dH, dWx, dWh, dB`. */
  function AffineTangent(x: Mat, h: Mat, wx: Mat, wh: Mat, c: nat,
                         dX: Mat, dH: Mat, dWx: Mat, dWh: Mat, dB: Vec): (r: Mat)
    requires AffineShapes(x, h, wx, wh, c)
    requires IsMat(dX, |x|, |wx|) && IsMat(dH, |x|, |wh|)
    requires IsMat(dWx, |wx|, c) && IsMat(dWh, |wh|, c) && |dB| == c
    ensures IsMat(r, |x|, c)
  {
    MatAdd(MatAdd(MatAdd(MatMul(dX, wx, c), MatMul(x, dWx, c)),
                  MatAdd(MatMul(dH, wh, c), MatMul(h, dWh, c))),
           Broadcast(dB, |x|))
  }

  /** The backward pass of the affine step, `dx = g.dot(Wx.T)`,
      `dh = g.dot(Wh.T)`, `dWx = x.T.dot(g)`, `dWh = h.T.dot(g)`,
      `db = g.sum(axis=0)`, is the adjoint of its first-order change. */
  lemma {:induction false} AffineAdjoint(x: Mat, h: Mat, wx: Mat, wh: Mat, c: nat,
                      dX: Mat, dH: Mat, dWx: Mat, dWh: Mat, dB: Vec, g: Mat)
    requires AffineShapes(x, h, wx, wh, c)
    requires IsMat(dX, |x|, |wx|) && IsMat(dH, |x|, |wh|)
    requires IsMat(dWx, |wx|, c) && IsMat(dWh, |wh|, c) && |dB| == c
    requires IsMat(g, |x|, c)
    ensures Inner(AffineTangent(x, h, wx, wh, c, dX, dH, dWx, dWh, dB), g)
         == Inner(dX, MatMul(g, Transpose(wx, c), |wx|)) + Inner(dH, MatMul(g, Transpose(wh, c), |wh|))
          + Inner(dWx, MatMul(Transpose(x, |wx|), g, c)) + Inner(dWh, MatMul(Transpose(h, |wh|), g, c))
          + Dot(dB, SumRows(g, c))
  {
    var a1, a2 := MatMul(dX, wx, c), MatMul(x, dWx, c);
    var a3, a4 := MatMul(dH, wh, c), MatMul(h, dWh, c);
    InnerAddLeft(MatAdd(MatAdd(a1, a2), MatAdd(a3, a4)), Broadcast(dB, |x|), g);
    InnerAddLeft(MatAdd(a1, a2), MatAdd(a3, a4), g);
    InnerAddLeft(a1, a2, g);
    InnerAddLeft(a3, a4, g);
    InputAdjoint(dX, wx, c, g);
    WeightAdjoint(x, dWx, c, g);
    InputAdjoint(dH, wh, c, g);
    WeightAdjoint(h, dWh, c, g);
    BiasAdjoint(dB, g);
  }
}
